/** `process_update_metadata_accounts_v2`: whether a proposed new
    `MetadataArgs` may replace the old one. The checks run in a fixed order
    and the first failure is returned: immutability, the data checks,
    collection, uses, then the two flag-monotonicity rules. */
module UpdateMetadata {
  import opened Types
  import opened CreatorMaps
  import opened DataValidation
  import opened CollectionUses

  /** What the collection part of an update may do: carry an unverified
      collection or exactly the existing one, or drop a collection that is
      not verified. */
  predicate CollectionUpdateAllowed(existing: Option<Collection>, incoming: Option<Collection>)
  {
    if incoming.Some? then IncomingCollectionAllowed(existing, incoming)
    else existing.None? || !existing.value.verified
  }

  predicate IsCollectionError(e: BubblegumError)
  {
    e in {CannotUpdateVerifiedCollection, CollectionCannotBeVerifiedInThisInstruction}
  }

  /** The collection step inside the mutable branch. */
  function CollectionStage(newArgs: MetadataArgs, oldArgs: MetadataArgs): (r: Outcome)
    ensures r.Fail? ==> IsCollectionError(r.error)
    ensures r.Pass? <==> CollectionUpdateAllowed(oldArgs.collection, newArgs.collection)
    ensures r == Fail(CannotUpdateVerifiedCollection) ==> newArgs.collection.None?
    ensures newArgs.collection.None? && oldArgs.collection.Some? && oldArgs.collection.value.verified ==>
              r == Fail(CannotUpdateVerifiedCollection)
    ensures newArgs.collection.Some? && r.Fail? ==> r == Fail(CollectionCannotBeVerifiedInThisInstruction)
  {
    if newArgs.collection.Some? then AssertCollectionUpdateIsValid(false, oldArgs.collection, newArgs.collection)
    else if oldArgs.collection.Some? && oldArgs.collection.value.verified then Fail(CannotUpdateVerifiedCollection)
    else Pass
  }

  /** `process_update_metadata_accounts_v2(new, old, update_authority)`,
      with the iteration orders of the two creator maps of
      `assert_data_valid` given. That call passes
      `allow_direct_creator_writes = false` and
      `update_authority_is_signer = true`. */
  function ProcessUpdateMetadataAccountsV2(newArgs: MetadataArgs, oldArgs: MetadataArgs, updateAuthority: Pubkey,
                                           newOrder: seq<Pubkey>, oldOrder: seq<Pubkey>): (r: Outcome)
    requires IsEnumeration(newOrder, CreatorMap(newArgs.creators).Keys)
    requires IsEnumeration(oldOrder, CreatorMap(oldArgs.creators).Keys)
    ensures !oldArgs.isMutable ==> r == Fail(DataIsImmutable)
    ensures r == Fail(DataIsImmutable) ==> !oldArgs.isMutable
    ensures r != Fail(IsMutableCanOnlyBeFlippedToFalse)
  {
    var checked :=
      if oldArgs.isMutable then
        var data := DataValidity(newArgs, updateAuthority, oldArgs, false, true, newOrder, oldOrder);
        if data.Fail? then data
        else
          var collection := CollectionStage(newArgs, oldArgs);
          if collection.Fail? then collection
          else AssertValidUse(newArgs.uses, oldArgs.uses)
      else Fail(DataIsImmutable);
    if checked.Fail? then checked
    else if !(newArgs.primarySaleHappened || !oldArgs.primarySaleHappened) then
      Fail(PrimarySaleCanOnlyBeFlippedToTrue)
    else if !(!newArgs.isMutable || oldArgs.isMutable) then
      Fail(IsMutableCanOnlyBeFlippedToFalse)
    else Pass
  }

  /** Order-free statement of when an update is accepted. */
  predicate UpdateAllowed(newArgs: MetadataArgs, oldArgs: MetadataArgs, updateAuthority: Pubkey)
  {
    && oldArgs.isMutable
    && DataValid(newArgs, updateAuthority, oldArgs, false, true)
    && CollectionUpdateAllowed(oldArgs.collection, newArgs.collection)
    && UsesUpdateAllowed(newArgs.uses, oldArgs.uses)
    && (oldArgs.primarySaleHappened ==> newArgs.primarySaleHappened)
  }

  /** The update is accepted exactly when `UpdateAllowed` holds, whatever
      the `HashMap` iteration orders. */
  lemma UpdatePasses(newArgs: MetadataArgs, oldArgs: MetadataArgs, updateAuthority: Pubkey,
                     newOrder: seq<Pubkey>, oldOrder: seq<Pubkey>)
    requires IsEnumeration(newOrder, CreatorMap(newArgs.creators).Keys)
    requires IsEnumeration(oldOrder, CreatorMap(oldArgs.creators).Keys)
    ensures ProcessUpdateMetadataAccountsV2(newArgs, oldArgs, updateAuthority, newOrder, oldOrder).Pass? <==>
            UpdateAllowed(newArgs, oldArgs, updateAuthority)
  {
    DataValidityPasses(newArgs, updateAuthority, oldArgs, false, true, newOrder, oldOrder);
  }

  /** Whether the update is accepted does not depend on the iteration order
      of either creator map. */
  lemma UpdateOrderIndependent(newArgs: MetadataArgs, oldArgs: MetadataArgs, updateAuthority: Pubkey,
                               newOrder1: seq<Pubkey>, oldOrder1: seq<Pubkey>,
                               newOrder2: seq<Pubkey>, oldOrder2: seq<Pubkey>)
    requires IsEnumeration(newOrder1, CreatorMap(newArgs.creators).Keys)
    requires IsEnumeration(oldOrder1, CreatorMap(oldArgs.creators).Keys)
    requires IsEnumeration(newOrder2, CreatorMap(newArgs.creators).Keys)
    requires IsEnumeration(oldOrder2, CreatorMap(oldArgs.creators).Keys)
    ensures ProcessUpdateMetadataAccountsV2(newArgs, oldArgs, updateAuthority, newOrder1, oldOrder1).Pass? <==>
            ProcessUpdateMetadataAccountsV2(newArgs, oldArgs, updateAuthority, newOrder2, oldOrder2).Pass?
  {
    UpdatePasses(newArgs, oldArgs, updateAuthority, newOrder1, oldOrder1);
    UpdatePasses(newArgs, oldArgs, updateAuthority, newOrder2, oldOrder2);
  }

  /** An accepted update has fields within their caps and a well-formed
      creator list: one to `MAX_CREATOR_LIMIT` creators, distinct
      addresses, shares summing to exactly 100. */
  lemma AcceptedDataWellFormed(newArgs: MetadataArgs, oldArgs: MetadataArgs, updateAuthority: Pubkey,
                               newOrder: seq<Pubkey>, oldOrder: seq<Pubkey>)
    requires IsEnumeration(newOrder, CreatorMap(newArgs.creators).Keys)
    requires IsEnumeration(oldOrder, CreatorMap(oldArgs.creators).Keys)
    requires ProcessUpdateMetadataAccountsV2(newArgs, oldArgs, updateAuthority, newOrder, oldOrder).Pass?
    ensures |newArgs.name| <= MAX_NAME_LENGTH && |newArgs.symbol| <= MAX_SYMBOL_LENGTH && |newArgs.uri| <= MAX_URI_LENGTH
    ensures newArgs.sellerFeeBasisPoints <= 10000
    ensures 1 <= |newArgs.creators| <= MAX_CREATOR_LIMIT
    ensures forall i, j :: 0 <= i < j < |newArgs.creators| ==> newArgs.creators[i].address != newArgs.creators[j].address
    ensures SumShares(newArgs.creators) == 100
  {
    UpdatePasses(newArgs, oldArgs, updateAuthority, newOrder, oldOrder);
  }

  /** In an accepted update only the update authority may change a
      creator's `verified` flag: every other new creator keeps the flag its
      address has in the old creator map (unverified if absent), and every
      old verified creator other than the update authority is still
      listed. */
  lemma AcceptedCreatorFlags(newArgs: MetadataArgs, oldArgs: MetadataArgs, updateAuthority: Pubkey,
                             newOrder: seq<Pubkey>, oldOrder: seq<Pubkey>)
    requires IsEnumeration(newOrder, CreatorMap(newArgs.creators).Keys)
    requires IsEnumeration(oldOrder, CreatorMap(oldArgs.creators).Keys)
    requires ProcessUpdateMetadataAccountsV2(newArgs, oldArgs, updateAuthority, newOrder, oldOrder).Pass?
    ensures forall i :: 0 <= i < |newArgs.creators| && newArgs.creators[i].address != updateAuthority ==>
              newArgs.creators[i].verified == ExistingFlag(CreatorMap(oldArgs.creators), newArgs.creators[i].address)
    ensures forall a :: a in CreatorMap(oldArgs.creators) && CreatorMap(oldArgs.creators)[a].verified && a != updateAuthority ==>
              a in Addresses(newArgs.creators)
  {
    UpdatePasses(newArgs, oldArgs, updateAuthority, newOrder, oldOrder);
    CreatorMapKeys(newArgs.creators);
    forall i | 0 <= i < |newArgs.creators| && newArgs.creators[i].address != updateAuthority
      ensures newArgs.creators[i].verified == ExistingFlag(CreatorMap(oldArgs.creators), newArgs.creators[i].address)
    {
      assert FlagKept(newArgs.creators[i], updateAuthority, CreatorMap(oldArgs.creators), false, true);
    }
    forall a | a in CreatorMap(oldArgs.creators) && CreatorMap(oldArgs.creators)[a].verified && a != updateAuthority
      ensures a in Addresses(newArgs.creators)
    {
      assert RetainedIfVerified(a, CreatorMap(oldArgs.creators), CreatorMap(newArgs.creators), updateAuthority, true);
    }
  }

  /** With no repeated address among the old creators, the old creator map
      is the old list itself: an accepted update lists every old verified
      creator other than the update authority. */
  lemma AcceptedKeepsVerifiedOldCreators(newArgs: MetadataArgs, oldArgs: MetadataArgs, updateAuthority: Pubkey,
                                         newOrder: seq<Pubkey>, oldOrder: seq<Pubkey>)
    requires IsEnumeration(newOrder, CreatorMap(newArgs.creators).Keys)
    requires IsEnumeration(oldOrder, CreatorMap(oldArgs.creators).Keys)
    requires DistinctAddresses(oldArgs.creators)
    requires ProcessUpdateMetadataAccountsV2(newArgs, oldArgs, updateAuthority, newOrder, oldOrder).Pass?
    ensures forall j :: 0 <= j < |oldArgs.creators| && oldArgs.creators[j].verified && oldArgs.creators[j].address != updateAuthority ==>
              oldArgs.creators[j].address in Addresses(newArgs.creators)
  {
    AcceptedCreatorFlags(newArgs, oldArgs, updateAuthority, newOrder, oldOrder);
    CreatorMapOfDistinct(oldArgs.creators);
  }

  /** In an accepted update a verified incoming collection is exactly the
      old one, and dropping the collection means the old one was absent or
      unverified. */
  lemma AcceptedCollection(newArgs: MetadataArgs, oldArgs: MetadataArgs, updateAuthority: Pubkey,
                           newOrder: seq<Pubkey>, oldOrder: seq<Pubkey>)
    requires IsEnumeration(newOrder, CreatorMap(newArgs.creators).Keys)
    requires IsEnumeration(oldOrder, CreatorMap(oldArgs.creators).Keys)
    requires ProcessUpdateMetadataAccountsV2(newArgs, oldArgs, updateAuthority, newOrder, oldOrder).Pass?
    ensures newArgs.collection.Some? && newArgs.collection.value.verified ==>
              oldArgs.collection.Some? && oldArgs.collection.value.key == newArgs.collection.value.key
              && oldArgs.collection.value.verified
    ensures newArgs.collection.None? ==> oldArgs.collection.None? || !oldArgs.collection.value.verified
  {
    UpdatePasses(newArgs, oldArgs, updateAuthority, newOrder, oldOrder);
  }

  /** In an accepted update the uses record has a valid shape, and once
      the old record has been used its method and counters are unchanged. */
  lemma AcceptedUses(newArgs: MetadataArgs, oldArgs: MetadataArgs, updateAuthority: Pubkey,
                     newOrder: seq<Pubkey>, oldOrder: seq<Pubkey>)
    requires IsEnumeration(newOrder, CreatorMap(newArgs.creators).Keys)
    requires IsEnumeration(oldOrder, CreatorMap(oldArgs.creators).Keys)
    requires ProcessUpdateMetadataAccountsV2(newArgs, oldArgs, updateAuthority, newOrder, oldOrder).Pass?
    ensures newArgs.uses.Some? && newArgs.uses.value.useMethod == Single ==>
              newArgs.uses.value.total == 1 && newArgs.uses.value.remaining == 1
    ensures newArgs.uses.Some? && newArgs.uses.value.useMethod == Multiple ==>
              newArgs.uses.value.total >= 2 && newArgs.uses.value.remaining <= newArgs.uses.value.total
    ensures newArgs.uses.Some? && oldArgs.uses.Some? && oldArgs.uses.value.total != oldArgs.uses.value.remaining ==>
              && newArgs.uses.value.useMethod == oldArgs.uses.value.useMethod
              && newArgs.uses.value.total == oldArgs.uses.value.total
              && newArgs.uses.value.remaining == oldArgs.uses.value.remaining
  {
    UpdatePasses(newArgs, oldArgs, updateAuthority, newOrder, oldOrder);
  }

  /** An accepted update never unsets `primary_sale_happened`, and never
      makes immutable metadata mutable. */
  lemma AcceptedFlagsMonotone(newArgs: MetadataArgs, oldArgs: MetadataArgs, updateAuthority: Pubkey,
                              newOrder: seq<Pubkey>, oldOrder: seq<Pubkey>)
    requires IsEnumeration(newOrder, CreatorMap(newArgs.creators).Keys)
    requires IsEnumeration(oldOrder, CreatorMap(oldArgs.creators).Keys)
    requires ProcessUpdateMetadataAccountsV2(newArgs, oldArgs, updateAuthority, newOrder, oldOrder).Pass?
    ensures oldArgs.primarySaleHappened ==> newArgs.primarySaleHappened
    ensures oldArgs.isMutable
  {
    UpdatePasses(newArgs, oldArgs, updateAuthority, newOrder, oldOrder);
  }

  /** Errors surface in the order the checks run: immutability, then the
      data checks, then collection, then uses, then primary sale. The
      error of a failing stage is passed through unchanged. */
  lemma ErrorPrecedence(newArgs: MetadataArgs, oldArgs: MetadataArgs, updateAuthority: Pubkey,
                        newOrder: seq<Pubkey>, oldOrder: seq<Pubkey>)
    requires IsEnumeration(newOrder, CreatorMap(newArgs.creators).Keys)
    requires IsEnumeration(oldOrder, CreatorMap(oldArgs.creators).Keys)
    ensures var r := ProcessUpdateMetadataAccountsV2(newArgs, oldArgs, updateAuthority, newOrder, oldOrder);
      && (oldArgs.isMutable && !DataValid(newArgs, updateAuthority, oldArgs, false, true) ==>
            r.Fail? && IsDataError(r.error))
      && (oldArgs.isMutable && DataValid(newArgs, updateAuthority, oldArgs, false, true)
          && !CollectionUpdateAllowed(oldArgs.collection, newArgs.collection) ==>
            r.Fail? && IsCollectionError(r.error))
      && (oldArgs.isMutable && DataValid(newArgs, updateAuthority, oldArgs, false, true)
          && CollectionUpdateAllowed(oldArgs.collection, newArgs.collection)
          && !UsesUpdateAllowed(newArgs.uses, oldArgs.uses) ==>
            r.Fail? && IsUseError(r.error))
      && (oldArgs.isMutable && DataValid(newArgs, updateAuthority, oldArgs, false, true)
          && CollectionUpdateAllowed(oldArgs.collection, newArgs.collection)
          && UsesUpdateAllowed(newArgs.uses, oldArgs.uses)
          && oldArgs.primarySaleHappened && !newArgs.primarySaleHappened ==>
            r == Fail(PrimarySaleCanOnlyBeFlippedToTrue))
    ensures var r := ProcessUpdateMetadataAccountsV2(newArgs, oldArgs, updateAuthority, newOrder, oldOrder);
      var d := DataValidity(newArgs, updateAuthority, oldArgs, false, true, newOrder, oldOrder);
      var c := CollectionStage(newArgs, oldArgs);
      var u := AssertValidUse(newArgs.uses, oldArgs.uses);
      && (oldArgs.isMutable && d.Fail? ==> r == d)
      && (oldArgs.isMutable && d.Pass? && c.Fail? ==> r == c)
      && (oldArgs.isMutable && d.Pass? && c.Pass? && u.Fail? ==> r == u)
  {
    DataValidityPasses(newArgs, updateAuthority, oldArgs, false, true, newOrder, oldOrder);
  }
}
