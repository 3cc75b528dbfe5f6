# Bubblegum leaf-metadata update validator, in Dafny

This project models two parts of the Metaplex Bubblegum program (compressed NFTs on Solana).

The first is the validator that decides whether a proposed new `MetadataArgs` may replace a leaf's old one. That is `process_update_metadata_accounts_v2` and its helpers `assert_data_valid`, `assert_collection_update_is_valid` and `assert_valid_use`. The validator returns `Ok` or the first error it finds, and the checks run in a fixed order:

1. immutability;
2. field caps and the creator-list rules: count, duplicates, the `u8` share sum, and who may change a `verified` flag;
3. the collection rules;
4. the "uses" rules;
5. the primary-sale flag, then the mutability flag.

The second part is the pure helpers of the test harnesses:

- the tree-account size arithmetic, which the source has in two copies: a `Tree` method and a closure in `ix_alloc_tree`;
- the creator-hash preimage;
- the latest-leaf nonce;
- the `create_tree` instruction that the integration test builds.

Modules, one per file:

- `Types`: machine integers, keys, `MetadataArgs`, the error codes, and `Option`/`Result`.
- `CreatorMaps`: the `HashMap` that `collect` builds from a creator list (left to right, so the later entry wins), iteration orders over the map's keys, and share sums.
- `DataValidation`:
  - `assert_data_valid` as order-parameterised specification functions;
  - an order-free characterisation `DataValid`;
  - the imperative procedure `AssertDataValid` with its two loops, proved equal to the specification.
- `CollectionUses`: the collection and uses checks.
- `UpdateMetadata`: the top-level validator and the properties of an accepted update.
- `TestHarness`: `Tree::merkle_roll_account_size`, the creator segments of `compute_metadata_hashes`, and the nonce.
- `Welp`: the size closure of `ix_alloc_tree` and the `create_tree` instruction of `ix_init_tree`.

How the model treats the source:

- **Iteration order.** A `HashMap` has no fixed iteration order. Each loop over one therefore takes its order as a parameter, a sequence that lists the map's keys once each. The model proves that whether the validator accepts an update does not depend on that order. When several checks fail, which error comes first can depend on it.
- **Overflow.** Integer arithmetic is unbounded. The `u8` `checked_add` of the share total is written out. The harness's `u32` size computation is modelled as it runs in a build with overflow checks, so an overflow is a panic, written `None`.
- **Foreign functions.** Keccak `hashv`, `hash_metadata` and `find_program_address` are function parameters. So are the program ids, which the source writes as base58 literals.

Behaviour of the code that the model follows, which a reader might not expect:

- An incoming collection that is `Some` but unverified passes, even when the old collection was verified under another key. Only the `None` case rejects a verified old collection; the source's own comment at update_metadata.rs:44-46 describes it the same way (`CollectionStage`).
- The `IsMutableCanOnlyBeFlippedToFalse` check cannot fire. It runs only after `old.is_mutable` has been seen true, and immutable metadata is rejected earlier with `DataIsImmutable`, so the "flip to false" rule of the comment at update_metadata.rs:86 always holds (`ProcessUpdateMetadataAccountsV2`).
- No per-creator share bound is checked. Only the `u8` running sum and the final total of 100 are checked.
- The old creator map always exists (`Some(&old.creators)`), so the branch for a missing old map cannot be reached.

## Model

| member | source | states |
|---|---|---|
| UpdateMetadata.ProcessUpdateMetadataAccountsV2 | bubblegum/program/src/update_metadata.rs:15-98 | Immutable old metadata gives `DataIsImmutable` whatever the new data, and that error means the old metadata was immutable; `IsMutableCanOnlyBeFlippedToFalse` is never returned |
| UpdateMetadata.CollectionStage | bubblegum/program/src/update_metadata.rs:47-57 | Passes exactly when the incoming collection is unverified or identical to the old one, or is `None` while the old one is absent or unverified; an incoming `None` against a verified old collection gives `CannotUpdateVerifiedCollection`, which no other case returns, and a rejected `Some` gives `CollectionCannotBeVerifiedInThisInstruction` |
| UpdateMetadata.UpdatePasses | bubblegum/program/src/update_metadata.rs:15-98 | The update is accepted iff the old metadata is mutable, the data, collection and uses rules hold, and the primary-sale flag is not unset, on every iteration order |
| UpdateMetadata.UpdateOrderIndependent | bubblegum/program/src/update_metadata.rs:140-146 | Whether the update is accepted is the same for any two iteration orders of each creator map |
| UpdateMetadata.AcceptedDataWellFormed | bubblegum/program/src/update_metadata.rs:109-146 | An accepted update has name, symbol and URI within their caps, fee basis points at most 10000, 1 to 5 creators with distinct addresses, and shares summing to 100 |
| UpdateMetadata.AcceptedCreatorFlags | bubblegum/program/src/update_metadata.rs:173-219 | In an accepted update every new creator other than the update authority keeps its old `verified` flag (false if it was absent), and every verified old creator other than the update authority is still listed |
| UpdateMetadata.AcceptedKeepsVerifiedOldCreators | bubblegum/program/src/update_metadata.rs:209-219 | With distinct old addresses, every verified old creator other than the update authority appears in the new list of an accepted update |
| UpdateMetadata.AcceptedCollection | bubblegum/program/src/update_metadata.rs:47-57 | In an accepted update a verified incoming collection equals a verified old one with the same key, and a dropped collection means the old one was absent or unverified |
| UpdateMetadata.AcceptedUses | bubblegum/program/src/update_metadata.rs:250-273 | In an accepted update `Single` uses have total and remaining 1, `Multiple` uses have total at least 2 and remaining at most total, and used-once records keep method and counters |
| UpdateMetadata.AcceptedFlagsMonotone | bubblegum/program/src/update_metadata.rs:70-92 | An accepted update never unsets `primary_sale_happened` and requires mutable old metadata |
| UpdateMetadata.ErrorPrecedence | bubblegum/program/src/update_metadata.rs:30-79 | Errors surface in order: a data error before any collection error, before any uses error, before the primary-sale error; the first failing stage's own error (that of `assert_data_valid`, of the collection step or of `assert_valid_use`) is the one returned |
| DataValidation.VerifiedFlagCheck | bubblegum/program/src/update_metadata.rs:166-197 | The flag check passes iff the creator is exempt or keeps its old flag; otherwise it fails with `CannotVerifyAnotherCreator` exactly when the new flag is set and `CannotUnverifyAnotherCreator` exactly when it is clear |
| DataValidation.NewCreatorsLoop | bubblegum/program/src/update_metadata.rs:154-198 | The first loop fails only with an overflow or one of the two flag errors; when each is returned is stated by `NewCreatorsLoopOutcome`, `NewCreatorsLoopFlagErrors` and `NewCreatorsLoopFirstError` |
| DataValidation.ExistingCreatorsLoop | bubblegum/program/src/update_metadata.rs:209-219 | The second loop fails only with `CannotUnverifyAnotherCreator` |
| DataValidation.DataValidity | bubblegum/program/src/update_metadata.rs:102-224 | Every error `assert_data_valid` returns is one of its eleven data errors; which of them each condition gives is stated by `DataValidityFieldErrors`, `DataValidityShareErrors`, `DataValidityFlagErrors` and `DataValidityFlagErrorsRaised` |
| DataValidation.DataValidityFieldErrors | bubblegum/program/src/update_metadata.rs:109-146 | Each of `MetadataNameTooLong`, `MetadataSymbolTooLong`, `MetadataUriTooLong`, `MetadataBasisPointsTooHigh`, `CreatorsTooLong`, `NoCreatorsPresent` and `DuplicateCreatorAddress` is returned exactly when its own condition fails and every earlier check passes |
| DataValidation.DataValidityShareErrors | bubblegum/program/src/update_metadata.rs:154-203 | The overflow error means the creators' share sum exceeds 255 and `CreatorShareTotalMustBe100` means it is not 100; with the fields, the list shape and every flag check passing, a sum over 255 gives the overflow and any other sum but 100 gives the total error |
| DataValidation.NewCreatorsLoopOutcome | bubblegum/program/src/update_metadata.rs:154-198 | The first loop succeeds iff the running `u8` sum never exceeds 255 and every flag check passes, and then yields the sum; the overflow error means the sum exceeds 255, and it is returned exactly then when every flag check passes |
| DataValidation.NewCreatorsLoopFlagErrors | bubblegum/program/src/update_metadata.rs:166-197 | On any order, `CannotVerifyAnotherCreator` from the first loop names a visited creator that sets its flag without permission, and `CannotUnverifyAnotherCreator` one that clears it |
| DataValidation.NewCreatorsLoopFirstError | bubblegum/program/src/update_metadata.rs:154-198 | Every error of the first loop arises at one creator, after every earlier creator fitted in the `u8` total and kept its flag; at that creator the share is added first, so an overflow there is reported instead of its flag error, and otherwise the error is that of its failing flag check |
| DataValidation.ListFlagErrors | bubblegum/program/src/update_metadata.rs:154-198 | For a list without repeated addresses, on any iteration order of its map, each flag error of the first loop names a creator of the list whose flag check fails, with its flag set or clear accordingly |
| DataValidation.DataValidityFlagErrors | bubblegum/program/src/update_metadata.rs:166-219 | `CannotVerifyAnotherCreator` means some new creator sets its flag without permission; `CannotUnverifyAnotherCreator` means some new creator clears it, or a verified old creator is dropped without permission |
| DataValidation.DataValidityFlagErrorsRaised | bubblegum/program/src/update_metadata.rs:154-219 | With the fields, the list shape and the share sum passing, a new creator failing its flag check gives one of the two flag errors; with every new flag kept and shares at 100, a verified old creator dropped without permission gives `CannotUnverifyAnotherCreator` |
| DataValidation.ExistingCreatorsLoopOutcome | bubblegum/program/src/update_metadata.rs:209-219 | The second loop passes iff every visited old creator is the signing authority, is still listed, or is unverified |
| DataValidation.FlagsOverOrder | bubblegum/program/src/update_metadata.rs:155-197 | Visiting a duplicate-free creator map in any order checks exactly the creators of the list |
| DataValidation.DataValidityPasses | bubblegum/program/src/update_metadata.rs:102-224 | `assert_data_valid` returns `Ok` iff the order-free `DataValid` holds: caps, creator count, distinct addresses, share sum 100, flags kept, verified old creators retained |
| DataValidation.DataValidityOrderIndependent | bubblegum/program/src/update_metadata.rs:140-155 | Whether `assert_data_valid` returns `Ok` does not depend on the iteration orders of its maps |
| DataValidation.CheckNewCreators | bubblegum/program/src/update_metadata.rs:154-198 | The imperative first loop, with its early returns, returns what `NewCreatorsLoop` specifies |
| DataValidation.CheckExistingCreators | bubblegum/program/src/update_metadata.rs:207-220 | The imperative second loop returns what `ExistingCreatorsLoop` specifies |
| DataValidation.AssertDataValid | bubblegum/program/src/update_metadata.rs:102-224 | The imperative procedure returns what `DataValidity` specifies, and passes iff `DataValid` holds |
| CreatorMaps.CreatorMapKeys | bubblegum/program/src/update_metadata.rs:140-141 | The map built by `collect` has exactly the list's addresses as keys |
| CreatorMaps.CreatorMapKeyedByAddress | bubblegum/program/src/update_metadata.rs:140-141 | Every entry of the collected map is stored under its own address |
| CreatorMaps.CreatorMapLastWins | bubblegum/program/src/update_metadata.rs:150-151 | For a repeated address the map holds the last creator with that address |
| CreatorMaps.CreatorMapOfDistinct | bubblegum/program/src/update_metadata.rs:140-141 | Without repeated addresses every creator is its own map entry |
| CreatorMaps.CreatorMapSize | bubblegum/program/src/update_metadata.rs:143-146 | The map is no larger than the list, and has the list's length iff the addresses are pairwise distinct, so the duplicate check fires exactly on a repeated address |
| CreatorMaps.AddressesEnumerate | bubblegum/program/src/update_metadata.rs:140-141 | The list's addresses in list order are one iteration order of the map |
| CreatorMaps.DedupEnumerates | bubblegum/program/src/update_metadata.rs:140-141 | Dropping repeats from a sequence keeps exactly its elements, each once |
| CreatorMaps.CreatorMapOrder | bubblegum/program/src/update_metadata.rs:150-151 | Every creator list, repeated addresses included, has an iteration order over its map: its addresses without repeats, so the validator applies to every old creator list |
| CreatorMaps.SumOverAppend | bubblegum/program/src/update_metadata.rs:154-160 | The share sum over a concatenated order is the sum of the two parts |
| CreatorMaps.RemoveAt | bubblegum/program/src/update_metadata.rs:154-160 | Removing one key from a repeat-free order removes exactly that key and its share |
| CreatorMaps.SumOverPermutation | bubblegum/program/src/update_metadata.rs:154-160 | Two repeat-free orders over the same keys give the same share sum |
| CreatorMaps.SumOverEntries | bubblegum/program/src/update_metadata.rs:154-160 | Visiting a list's own entries in list order sums the list's shares |
| CreatorMaps.CreatorMapSumShares | bubblegum/program/src/update_metadata.rs:154-160 | Any iteration order of a duplicate-free creator map sums to the list's share sum |
| CollectionUses.AssertCollectionUpdateIsValid | bubblegum/program/src/update_metadata.rs:228-246 | Fails only with `CollectionCannotBeVerifiedInThisInstruction`, and passes iff `edition` is set, the incoming collection is absent or unverified, or it equals the existing one |
| CollectionUses.RemovingUsesPasses | bubblegum/program/src/update_metadata.rs:250-273 | An update without a uses record never fails the uses check, whatever the current record |
| CollectionUses.UsesFrozenAfterFirstUse | bubblegum/program/src/update_metadata.rs:259-270 | Once the current record has been used, a well-shaped incoming record passes iff it is identical; a changed method gives `CannotChangeUseMethodAfterFirstUse` and any other change `CannotChangeUsesAfterFirstUse` |
| CollectionUses.AssertValidUse | bubblegum/program/src/update_metadata.rs:250-273 | Fails only with a uses error; passes iff the incoming record is well-shaped and an already-used record is unchanged; `InvalidUseMethod` exactly for a malformed incoming record |
| TestHarness.ChangelogShare | bubblegum/program/src/tests/mod.rs:221-223 | The change-log part of the size is exactly `R * max_buffer_size` with `R = max_depth * 32 + 40` |
| TestHarness.NoCanopyAtDepthZero | bubblegum/program/src/tests/mod.rs:225-226 | The canopy takes no space at canopy depth 0 |
| TestHarness.DeepCanopyTooLarge | bubblegum/program/src/tests/mod.rs:226 | A canopy depth of 27 or more alone exceeds `u32` |
| TestHarness.MerkleRollAccountSize | bubblegum/program/src/tests/mod.rs:218-229 | A computed size is a `u32` widened to `u64`, and at least 112 bytes: the header, the roll fields and the rightmost path of a tree of depth 0 |
| TestHarness.RollSizeExact | bubblegum/program/src/tests/mod.rs:221-223 | The checked `merkle_roll_size` is `32 + R * (max_buffer_size + 1)` when that fits in `u32` and panics exactly otherwise |
| TestHarness.CanopyBytesExact | bubblegum/program/src/tests/mod.rs:225-226 | The checked canopy size is `(2^(canopy_depth+1) - 2) * 32` when that fits in `u32` and panics exactly otherwise |
| TestHarness.MerkleRollAccountSizeExact | bubblegum/program/src/tests/mod.rs:218-229 | The checked computation returns `40 + 32 + R * (max_buffer_size + 1) + canopy_size` when that fits in `u32` and panics exactly otherwise |
| TestHarness.DefaultShapeSize | bubblegum/program/src/tests/mod.rs:155-156 | The harness's default tree (depth 20, buffer 64, canopy 0) takes 44272 bytes |
| TestHarness.NoOverflowWithinBounds | bubblegum/program/src/tests/mod.rs:219 | With depth at most 1024, buffer at most 2048 and canopy depth at most 24 the computation never overflows |
| TestHarness.AccountSizeMonotone | bubblegum/program/src/tests/mod.rs:221-223 | The size does not decrease as depth or buffer size grow |
| TestHarness.FitsMonotone | bubblegum/program/src/tests/mod.rs:218-229 | If the checked size of a shape exists, so does that of any shape with smaller depth and buffer, and it is no larger |
| TestHarness.SegmentRoundTrip | bubblegum/program/src/tests/mod.rs:68-74 | A creator's segment is 34 bytes and decodes back to the creator |
| TestHarness.DecodedSegmentRoundTrip | bubblegum/program/src/tests/mod.rs:68-74 | Every decodable segment is the segment of the creator it decodes to |
| TestHarness.CreatorDataLayout | bubblegum/program/src/tests/mod.rs:65-75 | The preimage has one segment per creator, in list order: 32 address bytes, `verified` as 0 or 1, then the share |
| TestHarness.CreatorDataInjective | bubblegum/program/src/tests/mod.rs:65-75 | Different creator lists, including reorderings, have different preimages |
| TestHarness.ComputeMetadataHashes | bubblegum/program/src/tests/mod.rs:62-88 | The hashes exist iff `hash_metadata` succeeds; the data hash is its result and the creator hash is `hashv` of the creator segments |
| TestHarness.LatestNonce | bubblegum/program/src/tests/mod.rs:452 | The nonce is `num_minted - 1` and exists only when `num_minted >= 1` |
| Welp.MerkleRollAccountSize | bubblegum/program/tests/welp.rs:37-48 | The closure gives the true size `40 + 32 + R * (max_buf_size + 1) + canopy_size` when it fits in `u32` and panics otherwise, the same as `Tree::merkle_roll_account_size` for equal parameters |
| Welp.AllocTreeAccountSize | bubblegum/program/tests/welp.rs:37-50 | `ix_alloc_tree` sizes at canopy depth 0: the size is `40 + 32 + R * (max_buf_size + 1)`, with no canopy bytes, and exists iff that fits in `u32` |
| Welp.TestTreeAllocation | bubblegum/program/tests/welp.rs:15-16 | The test's tree of depth 20 and buffer 64 takes 44272 bytes |
| Welp.LeBytes32 | bubblegum/program/tests/welp.rs:78-79 | `to_le_bytes` of a `u32` is 4 bytes |
| Welp.LeBytes32RoundTrip | bubblegum/program/tests/welp.rs:78-79 | Reading back the little-endian bytes of a `u32` gives the number |
| Welp.FromLeBytes32RoundTrip | bubblegum/program/tests/welp.rs:78-79 | Every 4 bytes are the little-endian bytes of the number they read as |
| Welp.CreateTreeDataRoundTrip | bubblegum/program/tests/welp.rs:74-79 | The `create_tree` data is 16 bytes, starts with the discriminator and decodes back to `max_depth` and `max_buf_size` |
| Welp.DecodeCreateTreeExact | bubblegum/program/tests/welp.rs:74-79 | Any data that decodes is exactly the encoding of its decoded arguments |
| Welp.IxInitTree | bubblegum/program/tests/welp.rs:64-98 | The instruction targets the program, its data is the discriminator and two little-endian `u32`s that decode back, and its 7 accounts are, in order: authority (writable), payer (writable, signer), tree creator (signer), candy wrapper, system, gummyroll, slab (writable) |

## Left out

- `process_update_metadata_accounts_v2` and the two helper checks need no update in place: the source has the assignments commented out, and the new leaf hash carries the change.
- The branch for a missing old creator map (update_metadata.rs lines 194-196) is not modelled, because `Some(&old.creators)` always builds the map.
- `MAX_NAME_LENGTH`, `MAX_SYMBOL_LENGTH`, `MAX_URI_LENGTH` and `MAX_CREATOR_LIMIT` come from the Token Metadata crate, which is not part of this model. They are constants set to that program's values: 32, 10, 200 and 5.
- The field types of `MetadataArgs` come from `state::metaplex_adapter`, which is not part of this model. They are reconstructed from their use.
- `hash_metadata`, keccak `hashv` and `Pubkey::find_program_address` are foreign cryptography. They are function parameters.
- The program ids (`mpl_bubblegum::id()`, the candy wrapper, the system program and gummyroll) are base58 literals or crate constants. They are a parameter.
- `Rent::minimum_balance` and `system_instruction::create_account` in `ix_alloc_tree` and `Tree::alloc_instruction` are foreign library calls. Only the account size they are given is modelled.
- The `Tree` and `TxBuilder` transaction plumbing is not modelled: `BanksClient` calls, `process_tx`, `execute`, account reads, signer and delegate bookkeeping. It is asynchronous I/O against a test validator.
- `decode_roll`'s `bytemuck` cast of the gummyroll account layout is not modelled. It is a foreign byte layout; only its nonce arithmetic is modelled.
- The other test files (`tests/simple.rs`, `src/tests/simple.rs`, `src/tests/mint.rs`, `src/tests/dummy.rs`) are end-to-end scenarios of handlers that are not part of this model.
- `error.rs` is used for the error names only. It belongs to a different revision than `update_metadata.rs`.
- TestHarness.MerkleRollAccountSize: the `u32` overflow is modelled as a panic, as in a build with overflow checks. A release build would wrap around instead, and that is not modelled.
- Welp.MerkleRollAccountSize: the same overflow treatment as the harness's copy. The closure repeats that method's steps over its captured parameters, so it is defined through the harness's function.
- The validator's properties are proved for any iteration order. Which error is reported first when several creator checks fail can depend on that order, and no order is fixed.
