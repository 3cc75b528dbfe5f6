/** The instruction builders of the tree-initialisation integration test:
    the account size `ix_alloc_tree` requests and the `create_tree`
    instruction `ix_init_tree` assembles. */
module Welp {
  import opened Types
  import TestHarness

  // ---------------------------------------------------------------------
  // The `merkle_roll_account_size` closure of `ix_alloc_tree`.

  /** The closure over `max_depth` and `max_buf_size`, applied to a canopy
      depth. Its body is the same sequence of checked `u32` steps as
      `Tree::merkle_roll_account_size`, over the captured parameters instead
      of the tree's fields, so it is that computation on the tree shape the
      parameters describe. */
  function MerkleRollAccountSize(maxDepth: u32, maxBufSize: u32, canopyDepth: u32): (r: Option<u64>)
    ensures var t := TestHarness.TreeShape(maxDepth, maxBufSize, canopyDepth);
      r == if TestHarness.AccountSize(t) < U32_LIMIT then Some(TestHarness.AccountSize(t)) else None
  {
    TestHarness.MerkleRollAccountSizeExact(TestHarness.TreeShape(maxDepth, maxBufSize, canopyDepth));
    TestHarness.MerkleRollAccountSize(TestHarness.TreeShape(maxDepth, maxBufSize, canopyDepth))
  }

  /** The size `ix_alloc_tree` allocates: the closure at canopy depth 0,
      so it has no canopy. */
  function AllocTreeAccountSize(maxDepth: u32, maxBufSize: u32): (r: Option<u64>)
    ensures r.Some? <==> 40 + 32 + TestHarness.PathSize(maxDepth) * (maxBufSize + 1) < U32_LIMIT
    ensures r.Some? ==> r.value == 40 + 32 + TestHarness.PathSize(maxDepth) * (maxBufSize + 1)
  {
    TestHarness.NoCanopyAtDepthZero();
    MerkleRollAccountSize(maxDepth, maxBufSize, 0)
  }

  /** The test's tree (depth 20, buffer 64) takes 44272 bytes. */
  lemma TestTreeAllocation()
    ensures AllocTreeAccountSize(TestHarness.MAX_DEPTH, TestHarness.MAX_SIZE) == Some(44272)
  {
    TestHarness.DefaultShapeSize();
  }

  // ---------------------------------------------------------------------
  // The `create_tree` instruction data.

  /** The 8-byte Anchor discriminator of `create_tree`. */
  const CREATE_TREE_DISCRIMINATOR: seq<u8> := [165, 83, 136, 142, 89, 202, 47, 220]

  /** `u32::to_le_bytes`. */
  function LeBytes32(x: u32): (r: seq<u8>)
    ensures |r| == 4
  {
    [x % 0x100, (x / 0x100) % 0x100, (x / 0x1_0000) % 0x100, x / 0x100_0000]
  }

  /** `u32::from_le_bytes`. */
  function FromLeBytes32(b: seq<u8>): u32
    requires |b| == 4
  {
    var b0, b1, b2, b3: int := b[0], b[1], b[2], b[3];
    b0 + 0x100 * b1 + 0x1_0000 * b2 + 0x100_0000 * b3
  }

  lemma LeBytes32RoundTrip(x: u32)
    ensures FromLeBytes32(LeBytes32(x)) == x
  {
    var b := LeBytes32(x);
    var b0, b1, b2, b3: int := b[0], b[1], b[2], b[3];
    var q1: int := x / 0x100;
    var q2: int := q1 / 0x100;
    assert x == b0 + 0x100 * q1;
    assert q1 == b1 + 0x100 * q2;
    assert q2 == b2 + 0x100 * b3 by {
      assert x / 0x1_0000 == q2;
      assert x / 0x100_0000 == q2 / 0x100;
    }
  }

  lemma FromLeBytes32RoundTrip(b: seq<u8>)
    requires |b| == 4
    ensures LeBytes32(FromLeBytes32(b)) == b
  {
    var x: int := FromLeBytes32(b);
    var b0, b1, b2, b3: int := b[0], b[1], b[2], b[3];
    var q1 := b1 + 0x100 * b2 + 0x1_0000 * b3;
    var q2 := b2 + 0x100 * b3;
    assert x == b0 + 0x100 * q1;
    assert x % 0x100 == b0 && x / 0x100 == q1;
    assert q1 == b1 + 0x100 * q2;
    assert q1 % 0x100 == b1 && q1 / 0x100 == q2;
    assert x / 0x1_0000 == q2;
    assert q2 % 0x100 == b2 && q2 / 0x100 == b3;
    assert x / 0x100_0000 == b3;
  }

  /** The data `ix_init_tree` sends: discriminator, then `max_depth` and
      `max_buf_size` as little-endian `u32`s. */
  function CreateTreeData(maxDepth: u32, maxBufSize: u32): seq<u8>
  {
    CREATE_TREE_DISCRIMINATOR + LeBytes32(maxDepth) + LeBytes32(maxBufSize)
  }

  /** Reads `create_tree` data back: the discriminator must match and the
      two arguments fill the remaining 8 bytes. */
  function DecodeCreateTree(data: seq<u8>): Option<(u32, u32)>
  {
    if |data| != 16 || data[..8] != CREATE_TREE_DISCRIMINATOR then None
    else Some((FromLeBytes32(data[8..12]), FromLeBytes32(data[12..16])))
  }

  /** The data is 16 bytes; its first 8 are the discriminator and the
      rest read back as the two arguments. */
  lemma CreateTreeDataRoundTrip(maxDepth: u32, maxBufSize: u32)
    ensures |CreateTreeData(maxDepth, maxBufSize)| == 16
    ensures CreateTreeData(maxDepth, maxBufSize)[..8] == CREATE_TREE_DISCRIMINATOR
    ensures DecodeCreateTree(CreateTreeData(maxDepth, maxBufSize)) == Some((maxDepth, maxBufSize))
  {
    var data := CreateTreeData(maxDepth, maxBufSize);
    assert data[..8] == CREATE_TREE_DISCRIMINATOR;
    assert data[8..12] == LeBytes32(maxDepth);
    assert data[12..16] == LeBytes32(maxBufSize);
    LeBytes32RoundTrip(maxDepth);
    LeBytes32RoundTrip(maxBufSize);
  }

  /** Whatever decodes is an encoding: the decoder accepts exactly the
      data the builder can produce. */
  lemma DecodeCreateTreeExact(data: seq<u8>)
    requires DecodeCreateTree(data).Some?
    ensures data == CreateTreeData(DecodeCreateTree(data).value.0, DecodeCreateTree(data).value.1)
  {
    FromLeBytes32RoundTrip(data[8..12]);
    FromLeBytes32RoundTrip(data[12..16]);
    assert data == data[..8] + data[8..12] + data[12..16];
  }

  // ---------------------------------------------------------------------
  // The `create_tree` instruction.

  datatype AccountMeta = AccountMeta(pubkey: Pubkey, isSigner: bool, isWritable: bool)

  datatype Instruction = Instruction(programId: Pubkey, accounts: seq<AccountMeta>, data: seq<u8>)

  /** The program ids the builder refers to, which the source writes as
      base58 literals or takes from the crates' `id()`. */
  datatype ProgramIds = ProgramIds(bubblegum: Pubkey, candyWrapper: Pubkey, system: Pubkey, gummyroll: Pubkey)

  /** `AccountMeta::new`. */
  function Writable(key: Pubkey, isSigner: bool): AccountMeta
  {
    AccountMeta(key, isSigner, true)
  }

  /** `AccountMeta::new_readonly`. */
  function ReadOnly(key: Pubkey, isSigner: bool): AccountMeta
  {
    AccountMeta(key, isSigner, false)
  }

  /** `ix_init_tree`. The tree authority is the program-derived address of
      the slab under the program; `findProgramAddress` is a parameter. */
  method IxInitTree(ids: ProgramIds, findProgramAddress: (seq<seq<u8>>, Pubkey) -> (Pubkey, u8),
                    payer: Pubkey, treeCreator: Pubkey, slab: Pubkey,
                    maxDepth: u32, maxBufSize: u32) returns (ix: Instruction)
    ensures ix.programId == ids.bubblegum
    ensures ix.data == CreateTreeData(maxDepth, maxBufSize)
    ensures |ix.data| == 16 && DecodeCreateTree(ix.data) == Some((maxDepth, maxBufSize))
    ensures |ix.accounts| == 7
    ensures ix.accounts[0] == AccountMeta(findProgramAddress([slab], ids.bubblegum).0, false, true)
    ensures ix.accounts[1] == AccountMeta(payer, true, true)
    ensures ix.accounts[2] == AccountMeta(treeCreator, true, false)
    ensures ix.accounts[3] == AccountMeta(ids.candyWrapper, false, false)
    ensures ix.accounts[4] == AccountMeta(ids.system, false, false)
    ensures ix.accounts[5] == AccountMeta(ids.gummyroll, false, false)
    ensures ix.accounts[6] == AccountMeta(slab, false, true)
    ensures forall i :: 0 <= i < 7 ==> (ix.accounts[i].isSigner <==> i == 1 || i == 2)
    ensures forall i :: 0 <= i < 7 ==> (ix.accounts[i].isWritable <==> i in {0, 1, 6})
  {
    var (auth, _) := findProgramAddress([slab], ids.bubblegum);
    var data: seq<u8> := [];
    data := data + CREATE_TREE_DISCRIMINATOR;
    data := data + LeBytes32(maxDepth);
    data := data + LeBytes32(maxBufSize);
    CreateTreeDataRoundTrip(maxDepth, maxBufSize);
    var accounts := [
      Writable(auth, false),
      Writable(payer, true),
      ReadOnly(treeCreator, true),
      ReadOnly(ids.candyWrapper, false),
      ReadOnly(ids.system, false),
      ReadOnly(ids.gummyroll, false),
      Writable(slab, false)
    ];
    ix := Instruction(ids.bubblegum, accounts, data);
  }
}
