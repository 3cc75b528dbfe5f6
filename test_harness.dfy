/** Pure helpers of the program's test harness: the size of the on-chain
    tree account, the creator-hash preimage, and the nonce of the latest
    leaf. Integer steps are `u32`/`u64` operations of a build with overflow
    checks, so an overflow is a panic, modelled as `None`. */
module TestHarness {
  import opened Types

  // ---------------------------------------------------------------------
  // Checked machine arithmetic.

  function CheckedAdd(a: u32, b: u32): (r: Option<u32>)
    ensures r.Some? <==> a + b < U32_LIMIT
    ensures r.Some? ==> r.value == a + b
  {
    if a + b < U32_LIMIT then Some(a + b) else None
  }

  function CheckedSub(a: u32, b: u32): (r: Option<u32>)
    ensures r.Some? <==> a >= b
    ensures r.Some? ==> r.value == a - b
  {
    if a >= b then Some(a - b) else None
  }

  function CheckedMul(a: u32, b: u32): (r: Option<u32>)
    ensures r.Some? <==> a * b < U32_LIMIT
    ensures r.Some? ==> r.value == a * b
  {
    if a * b < U32_LIMIT then Some(a * b) else None
  }

  function Pow2(n: nat): (p: nat)
    ensures p >= 1
  {
    if n == 0 then 1 else 2 * Pow2(n - 1)
  }

  lemma {:induction false} Pow2Monotone(a: nat, b: nat)
    requires a <= b
    ensures Pow2(a) <= Pow2(b)
    decreases b
  {
    if a < b {
      Pow2Monotone(a, b - 1);
    }
  }

  lemma {:induction false} Pow2Add(a: nat, b: nat)
    ensures Pow2(a + b) == Pow2(a) * Pow2(b)
    decreases a
  {
    if a > 0 {
      Pow2Add(a - 1, b);
      assert Pow2(a + b) == 2 * Pow2(a - 1 + b);
    }
  }

  lemma Pow2Values()
    ensures Pow2(25) == 0x200_0000 && Pow2(27) == 0x800_0000
    ensures Pow2(28) == 0x1000_0000 && Pow2(31) == 0x8000_0000
  {
    assert Pow2(7) == 128;
    Pow2Add(7, 7);
    Pow2Add(14, 7);
    Pow2Add(21, 4);
    Pow2Add(21, 6);
    Pow2Add(21, 7);
    Pow2Add(28, 3);
    assert Pow2(4) == 16 && Pow2(6) == 64 && Pow2(3) == 8;
  }

  lemma MulMonotone(a: nat, b: nat, c: nat, d: nat)
    requires a <= c && b <= d
    ensures a * b <= c * d
  {
    assert a * b <= c * b;
  }

  /** `1u32 << shift`: a shift by 32 or more bits panics. */
  function CheckedShlOne(shift: u32): (r: Option<u32>)
    ensures r.Some? <==> shift < 32
    ensures r.Some? ==> r.value == Pow2(shift)
  {
    if shift >= 32 then None
    else
      Pow2Monotone(shift, 31);
      Pow2Values();
      Some(Pow2(shift))
  }

  // ---------------------------------------------------------------------
  // `Tree::merkle_roll_account_size`.

  /** The parameters of the harness's `Tree` that the account size
      depends on. */
  datatype TreeShape = TreeShape(maxDepth: u32, maxBufferSize: u32, canopyDepth: u32)

  const MAX_DEPTH: u32 := 20
  const MAX_SIZE: u32 := 64

  /** The shape `Tree::with_creator` sets up. */
  const DEFAULT_SHAPE: TreeShape := TreeShape(MAX_DEPTH, MAX_SIZE, 0)

  /** `merkle_roll_size` of `Tree::merkle_roll_account_size`: the roll's
      32 bytes of header fields, `maxBufferSize` change-log entries and the
      rightmost path, each `u32` step checked. */
  function RollSize(maxDepth: u32, maxBufferSize: u32): Option<u32>
  {
    var depthBytes :- CheckedMul(maxDepth, 32);
    var withNode :- CheckedAdd(depthBytes, 32);
    var withIndex :- CheckedAdd(withNode, 4);
    // A change-log entry and the rightmost path have this same size; the
    // source computes the same expression twice.
    var pathSize :- CheckedAdd(withIndex, 4);
    var changelogSize :- CheckedMul(pathSize, maxBufferSize);
    var rightmostPathSize := pathSize;
    var rollPrefix :- CheckedAdd(8 + 8 + 16, changelogSize);
    CheckedAdd(rollPrefix, rightmostPathSize)
  }

  /** `canopy_size`: `((1 << canopy_depth + 1) - 2) * 32`, checked. */
  function CanopyBytes(canopyDepth: u32): Option<u32>
  {
    var shift :- CheckedAdd(canopyDepth, 1);
    var nodes :- CheckedShlOne(shift);
    var canopyNodes :- CheckedSub(nodes, 2);
    CheckedMul(canopyNodes, 32)
  }

  /** `Tree::merkle_roll_account_size`, with every `u32` step checked. */
  function MerkleRollAccountSize(t: TreeShape): (r: Option<u64>)
    ensures r.Some? ==> 112 <= r.value < U32_LIMIT
  {
    var headerSize := 8 + 32;
    var merkleRollSize :- RollSize(t.maxDepth, t.maxBufferSize);
    var canopySize :- CanopyBytes(t.canopyDepth);
    var withHeader :- CheckedAdd(merkleRollSize, headerSize);
    var total :- CheckedAdd(withHeader, canopySize);
    Some(total)
  }

  /** Size of one change-log entry (and of the rightmost path): a node per
      level, the root or leaf, and two `u32` fields. */
  function PathSize(maxDepth: nat): nat
  {
    maxDepth * 32 + 40
  }

  /** Bytes of the canopy: the `2^(depth+1) - 2` cached upper nodes. */
  function CanopySize(canopyDepth: nat): nat
  {
    (Pow2(canopyDepth + 1) - 2) * 32
  }

  /** The account size in unbounded arithmetic: 40 header bytes, 32 bytes
      of roll header fields, `maxBufferSize` change-log entries, the
      rightmost path, and the canopy. */
  function AccountSize(t: TreeShape): nat
  {
    40 + 32 + PathSize(t.maxDepth) * (t.maxBufferSize + 1) + CanopySize(t.canopyDepth)
  }

  /** The change-log part is exactly `PathSize * maxBufferSize`. */
  lemma ChangelogShare(t: TreeShape)
    ensures AccountSize(t) == 40 + 32 + PathSize(t.maxDepth) * t.maxBufferSize + PathSize(t.maxDepth)
                              + CanopySize(t.canopyDepth)
  {
    var r := PathSize(t.maxDepth);
    assert r * (t.maxBufferSize + 1) == r * t.maxBufferSize + r;
  }

  /** The canopy takes no space when its depth is 0. */
  lemma NoCanopyAtDepthZero()
    ensures CanopySize(0) == 0
  {
  }

  /** A deep canopy alone exceeds `u32`. */
  lemma DeepCanopyTooLarge(canopyDepth: nat)
    requires canopyDepth >= 27
    ensures CanopySize(canopyDepth) >= U32_LIMIT
  {
    Pow2Monotone(28, canopyDepth + 1);
    Pow2Values();
  }

  /** The checked roll size panics exactly when the true roll size does
      not fit in `u32`. */
  lemma RollSizeExact(maxDepth: u32, maxBufferSize: u32)
    ensures var size := 32 + PathSize(maxDepth) * (maxBufferSize + 1);
      RollSize(maxDepth, maxBufferSize) == if size < U32_LIMIT then Some(size) else None
  {
    var r := PathSize(maxDepth);
    var b := maxBufferSize;
    assert r * (b + 1) == r * b + r;
    assert r * b >= 0;
    if 32 + r * (b + 1) < U32_LIMIT {
      assert r * b < U32_LIMIT;
    }
  }

  /** The checked canopy size panics exactly when the true canopy size does
      not fit in `u32`. */
  lemma CanopyBytesExact(canopyDepth: u32)
    ensures CanopyBytes(canopyDepth) == if CanopySize(canopyDepth) < U32_LIMIT then Some(CanopySize(canopyDepth)) else None
  {
    if canopyDepth >= 27 {
      DeepCanopyTooLarge(canopyDepth);
    } else {
      Pow2Monotone(canopyDepth + 1, 27);
      Pow2Monotone(1, canopyDepth + 1);
      Pow2Values();
    }
  }

  /** The checked computation panics exactly when the true size does not
      fit in `u32`, and otherwise returns it. */
  lemma MerkleRollAccountSizeExact(t: TreeShape)
    ensures MerkleRollAccountSize(t) == if AccountSize(t) < U32_LIMIT then Some(AccountSize(t)) else None
  {
    RollSizeExact(t.maxDepth, t.maxBufferSize);
    CanopyBytesExact(t.canopyDepth);
  }

  /** The harness's default tree takes 44272 bytes. */
  lemma DefaultShapeSize()
    ensures MerkleRollAccountSize(DEFAULT_SHAPE) == Some(44272)
  {
    MerkleRollAccountSizeExact(DEFAULT_SHAPE);
  }

  /** A bound under which the computation never overflows `u32`. */
  predicate WithinSizeBounds(t: TreeShape)
  {
    t.maxDepth <= 1024 && t.maxBufferSize <= 2048 && t.canopyDepth <= 24
  }

  lemma NoOverflowWithinBounds(t: TreeShape)
    requires WithinSizeBounds(t)
    ensures MerkleRollAccountSize(t).Some?
  {
    MerkleRollAccountSizeExact(t);
    Pow2Monotone(t.canopyDepth + 1, 25);
    Pow2Values();
    MulMonotone(PathSize(t.maxDepth), t.maxBufferSize + 1, 32808, 2049);
  }

  /** The size never shrinks when the depth or the buffer grows. */
  lemma AccountSizeMonotone(t1: TreeShape, t2: TreeShape)
    requires t1.maxDepth <= t2.maxDepth && t1.maxBufferSize <= t2.maxBufferSize
    requires t1.canopyDepth == t2.canopyDepth
    ensures AccountSize(t1) <= AccountSize(t2)
  {
    MulMonotone(PathSize(t1.maxDepth), t1.maxBufferSize + 1, PathSize(t2.maxDepth), t2.maxBufferSize + 1);
  }

  /** If the larger shape's size fits in `u32`, so does the smaller one's,
      and it is no larger. */
  lemma FitsMonotone(t1: TreeShape, t2: TreeShape)
    requires t1.maxDepth <= t2.maxDepth && t1.maxBufferSize <= t2.maxBufferSize
    requires t1.canopyDepth == t2.canopyDepth
    ensures MerkleRollAccountSize(t2).Some? ==>
              MerkleRollAccountSize(t1).Some? && MerkleRollAccountSize(t1).value <= MerkleRollAccountSize(t2).value
  {
    AccountSizeMonotone(t1, t2);
    MerkleRollAccountSizeExact(t1);
    MerkleRollAccountSizeExact(t2);
  }

  // ---------------------------------------------------------------------
  // The creator-hash preimage of `compute_metadata_hashes`.

  function VerifiedByte(verified: bool): u8
  {
    if verified then 1 else 0
  }

  /** One creator's segment: address bytes, `verified as u8`, share. */
  function CreatorSegment(c: Creator): seq<u8>
  {
    c.address + [VerifiedByte(c.verified), c.share]
  }

  /** The segments hashed for the creator hash, one per creator in list
      order. */
  function CreatorData(cs: seq<Creator>): seq<seq<u8>>
  {
    seq(|cs|, i requires 0 <= i < |cs| => CreatorSegment(cs[i]))
  }

  /** Reads a creator back from its segment. */
  function DecodeCreatorSegment(seg: seq<u8>): Option<Creator>
  {
    if |seg| != 34 || seg[32] > 1 then None
    else Some(Creator(seg[..32], seg[32] == 1, seg[33]))
  }

  lemma SegmentRoundTrip(c: Creator)
    ensures |CreatorSegment(c)| == 34
    ensures DecodeCreatorSegment(CreatorSegment(c)) == Some(c)
  {
    assert CreatorSegment(c)[..32] == c.address;
  }

  lemma DecodedSegmentRoundTrip(seg: seq<u8>)
    requires DecodeCreatorSegment(seg).Some?
    ensures CreatorSegment(DecodeCreatorSegment(seg).value) == seg
  {
    assert seg == seg[..32] + [seg[32], seg[33]];
  }

  /** The preimage layout: one 34-byte segment per creator, in list order,
      holding the 32 address bytes, then 0 or 1 for `verified`, then the
      share. */
  lemma CreatorDataLayout(cs: seq<Creator>)
    ensures |CreatorData(cs)| == |cs|
    ensures forall i :: 0 <= i < |cs| ==>
              && |CreatorData(cs)[i]| == 34
              && CreatorData(cs)[i][..32] == cs[i].address
              && CreatorData(cs)[i][32] == (if cs[i].verified then 1 else 0)
              && CreatorData(cs)[i][33] == cs[i].share
  {
    forall i | 0 <= i < |cs|
      ensures CreatorData(cs)[i][..32] == cs[i].address
    {
      SegmentRoundTrip(cs[i]);
    }
  }

  /** Distinct creator lists, including the same creators in another
      order, have distinct preimages. */
  lemma CreatorDataInjective(a: seq<Creator>, b: seq<Creator>)
    requires CreatorData(a) == CreatorData(b)
    ensures a == b
  {
    assert |a| == |CreatorData(a)| == |b|;
    forall i | 0 <= i < |a|
      ensures a[i] == b[i]
    {
      SegmentRoundTrip(a[i]);
      SegmentRoundTrip(b[i]);
      assert CreatorSegment(a[i]) == CreatorData(a)[i] == CreatorData(b)[i] == CreatorSegment(b[i]);
    }
  }

  /** `compute_metadata_hashes`: the data hash from `hashMetadata` (whose
      error makes the harness panic), and the creator hash as the
      multi-part hash `hashv` of the creator segments. Both hash functions
      are parameters. */
  function ComputeMetadataHashes(args: MetadataArgs, hashMetadata: MetadataArgs -> Option<Hash>,
                                 hashv: seq<seq<u8>> -> Hash): (r: Option<(Hash, Hash)>)
    ensures r.Some? <==> hashMetadata(args).Some?
    ensures r.Some? ==> r.value.0 == hashMetadata(args).value
    ensures r.Some? ==> r.value.1 == hashv(CreatorData(args.creators))
  {
    var dataHash :- hashMetadata(args);
    Some((dataHash, hashv(CreatorData(args.creators))))
  }

  // ---------------------------------------------------------------------
  // `decode_roll`'s nonce.

  /** The nonce reported for the latest leaf: `num_minted - 1` in `u64`,
      which panics when nothing has been minted. */
  function LatestNonce(numMinted: u64): (r: Option<u64>)
    ensures r.Some? <==> numMinted >= 1
    ensures r.Some? ==> r.value + 1 == numMinted
  {
    if numMinted >= 1 then Some(numMinted - 1) else None
  }
}
