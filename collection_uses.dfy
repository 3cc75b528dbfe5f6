/** The collection and "uses" rules of a metadata update:
    `assert_collection_update_is_valid` and `assert_valid_use`. */
module CollectionUses {
  import opened Types

  /** The collection an update may carry: an unverified one, or exactly
      the existing one. */
  predicate IncomingCollectionAllowed(existing: Option<Collection>, incoming: Option<Collection>)
  {
    incoming.Some? ==> !incoming.value.verified || existing == incoming
  }

  /** `assert_collection_update_is_valid`: an incoming collection marked
      verified must be identical to the existing one, unless `edition` is
      set. An incoming collection that is not verified always passes. */
  function AssertCollectionUpdateIsValid(edition: bool, existing: Option<Collection>,
                                         incoming: Option<Collection>): (r: Outcome)
    ensures r.Fail? ==> r.error == CollectionCannotBeVerifiedInThisInstruction
    ensures r.Pass? <==> edition || IncomingCollectionAllowed(existing, incoming)
  {
    var isIncomingVerifiedTrue := incoming.Some? && incoming.value.verified;
    var isIncomingDataValid :=
      || !isIncomingVerifiedTrue
      || (&& existing.Some?
          && incoming.value.verified == existing.value.verified
          && incoming.value.key == existing.value.key);
    if !isIncomingDataValid && !edition then Fail(CollectionCannotBeVerifiedInThisInstruction)
    else Pass
  }

  /** The shape a uses record must have for its method. */
  predicate UseShapeValid(u: Uses)
  {
    && (u.useMethod == Single ==> u.total == 1 && u.remaining == 1)
    && (u.useMethod == Multiple ==> u.total >= 2 && u.remaining <= u.total)
  }

  /** A uses record has been consumed at least once. */
  predicate UsedAtLeastOnce(u: Uses)
  {
    u.total != u.remaining
  }

  /** The errors `assert_valid_use` can return. */
  predicate IsUseError(e: BubblegumError)
  {
    e in {InvalidUseMethod, CannotChangeUseMethodAfterFirstUse, CannotChangeUsesAfterFirstUse}
  }

  /** The incoming record has a valid shape, and once the current record
      has been used it may not change. */
  predicate UsesUpdateAllowed(incoming: Option<Uses>, current: Option<Uses>)
  {
    && (incoming.Some? ==> UseShapeValid(incoming.value))
    && (incoming.Some? && current.Some? && UsedAtLeastOnce(current.value) ==> incoming == current)
  }

  /** `assert_valid_use`. */
  function AssertValidUse(incoming: Option<Uses>, current: Option<Uses>): (r: Outcome)
    ensures r.Fail? ==> IsUseError(r.error)
    ensures r.Pass? <==> UsesUpdateAllowed(incoming, current)
    ensures r == Fail(InvalidUseMethod) <==> incoming.Some? && !UseShapeValid(incoming.value)
  {
    if incoming.Some? && incoming.value.useMethod == Single
       && (incoming.value.total != 1 || incoming.value.remaining != 1) then
      Fail(InvalidUseMethod)
    else if incoming.Some? && incoming.value.useMethod == Multiple
       && (incoming.value.total < 2 || incoming.value.total < incoming.value.remaining) then
      Fail(InvalidUseMethod)
    else
      match (incoming, current)
      case (Some(i), Some(c)) =>
        if i.useMethod != c.useMethod && c.total != c.remaining then Fail(CannotChangeUseMethodAfterFirstUse)
        else if i.total != c.total && c.total != c.remaining then Fail(CannotChangeUsesAfterFirstUse)
        else if i.remaining != c.remaining && c.total != c.remaining then Fail(CannotChangeUsesAfterFirstUse)
        else Pass
      case _ => Pass
  }

  /** Removing the uses record never fails the check. */
  lemma RemovingUsesPasses(current: Option<Uses>)
    ensures AssertValidUse(None, current) == Pass
  {
  }

  /** Once an asset has been used, its use method and counters are frozen:
      any change to one of them is rejected, and a changed method is
      reported before changed counters. */
  lemma UsesFrozenAfterFirstUse(incoming: Uses, current: Uses)
    requires UseShapeValid(incoming)
    requires UsedAtLeastOnce(current)
    ensures AssertValidUse(Some(incoming), Some(current)).Pass? <==> incoming == current
    ensures incoming.useMethod != current.useMethod ==>
              AssertValidUse(Some(incoming), Some(current)) == Fail(CannotChangeUseMethodAfterFirstUse)
    ensures incoming.useMethod == current.useMethod && incoming != current ==>
              AssertValidUse(Some(incoming), Some(current)) == Fail(CannotChangeUsesAfterFirstUse)
  {
  }
}
