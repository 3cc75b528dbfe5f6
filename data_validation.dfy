/** `assert_data_valid`: field caps, the creator list's shape and share sum,
    and who may set or clear a creator's `verified` flag.

    The two `for` loops of the source run over `HashMap`s, whose iteration
    order is unspecified; here each order is an explicit parameter that
    enumerates the map's keys. `NewCreatorsLoop` and `ExistingCreatorsLoop`
    run the loops on a given order; `DataValidity` is the whole check on
    given orders; `DataValid` says, without any order, when it passes; and
    `AssertDataValid` is the imperative procedure, proved equal to
    `DataValidity`. */
module DataValidation {
  import opened Types
  import opened CreatorMaps

  /** The loop body may skip the flag check: direct creator writes are
      allowed, or this creator is the signing update authority. */
  predicate FlagCheckSkipped(address: Pubkey, updateAuthority: Pubkey,
                             allowDirectCreatorWrites: bool, updateAuthorityIsSigner: bool)
  {
    allowDirectCreatorWrites || (updateAuthorityIsSigner && address == updateAuthority)
  }

  /** The `verified` flag an address has in the old creator map; an address
      absent from it counts as unverified. */
  function ExistingFlag(existing: map<Pubkey, Creator>, address: Pubkey): bool
  {
    address in existing && existing[address].verified
  }

  /** A new creator's flag either is exempt from the check or equals its
      flag in the old creator map. */
  predicate FlagKept(c: Creator, updateAuthority: Pubkey, existing: map<Pubkey, Creator>,
                     allowDirectCreatorWrites: bool, updateAuthorityIsSigner: bool)
  {
    || FlagCheckSkipped(c.address, updateAuthority, allowDirectCreatorWrites, updateAuthorityIsSigner)
    || c.verified == ExistingFlag(existing, c.address)
  }

  /** The flag check in the body of the first loop, for one new creator. */
  function VerifiedFlagCheck(c: Creator, updateAuthority: Pubkey, existing: map<Pubkey, Creator>,
                             allowDirectCreatorWrites: bool, updateAuthorityIsSigner: bool): (r: Outcome)
    ensures r.Pass? <==> FlagKept(c, updateAuthority, existing, allowDirectCreatorWrites, updateAuthorityIsSigner)
    ensures r == Fail(CannotVerifyAnotherCreator) <==> !FlagKept(c, updateAuthority, existing, allowDirectCreatorWrites, updateAuthorityIsSigner) && c.verified
    ensures r == Fail(CannotUnverifyAnotherCreator) <==> !FlagKept(c, updateAuthority, existing, allowDirectCreatorWrites, updateAuthorityIsSigner) && !c.verified
  {
    if allowDirectCreatorWrites then Pass
    else if updateAuthorityIsSigner && c.address == updateAuthority then Pass
    else if c.address in existing then
      if c.verified && !existing[c.address].verified then Fail(CannotVerifyAnotherCreator)
      else if !c.verified && existing[c.address].verified then Fail(CannotUnverifyAnotherCreator)
      else Pass
    else if c.verified then Fail(CannotVerifyAnotherCreator)
    else Pass
  }

  /** Every creator visited in `order` passes the flag check. */
  predicate AllFlagsKept(order: seq<Pubkey>, newMap: map<Pubkey, Creator>, updateAuthority: Pubkey,
                         existing: map<Pubkey, Creator>, allowDirectCreatorWrites: bool, updateAuthorityIsSigner: bool)
    requires forall k :: k in order ==> k in newMap
  {
    forall i :: 0 <= i < |order| ==>
      FlagKept(newMap[order[i]], updateAuthority, existing, allowDirectCreatorWrites, updateAuthorityIsSigner)
  }

  /** The first loop on the iteration order `order`, from share total
      `total`: add each share with `u8::checked_add`, then check the flag.
      Its result is the final share total or the first error. */
  function NewCreatorsLoop(order: seq<Pubkey>, newMap: map<Pubkey, Creator>, updateAuthority: Pubkey,
                           existing: map<Pubkey, Creator>, allowDirectCreatorWrites: bool,
                           updateAuthorityIsSigner: bool, total: u8): (r: Result<u8>)
    requires forall k :: k in order ==> k in newMap
    ensures r.Err? ==> r.error in {NumericalOverflowError, CannotVerifyAnotherCreator, CannotUnverifyAnotherCreator}
    decreases |order|
  {
    if order == [] then Ok(total)
    else
      var c := newMap[order[0]];
      if total + c.share > U8_MAX then Err(NumericalOverflowError)
      else
        match VerifiedFlagCheck(c, updateAuthority, existing, allowDirectCreatorWrites, updateAuthorityIsSigner)
        case Fail(e) => Err(e)
        case Pass =>
          NewCreatorsLoop(order[1..], newMap, updateAuthority, existing, allowDirectCreatorWrites,
                          updateAuthorityIsSigner, total + c.share)
  }

  /** An old creator that is verified may be missing from the new list only
      if it is the signing update authority. */
  predicate RetainedIfVerified(address: Pubkey, existing: map<Pubkey, Creator>, newMap: map<Pubkey, Creator>,
                               updateAuthority: Pubkey, updateAuthorityIsSigner: bool)
    requires address in existing
  {
    (updateAuthorityIsSigner && address == updateAuthority) || address in newMap || !existing[address].verified
  }

  /** The second loop, over the old creator map on the iteration order
      `order`. */
  function ExistingCreatorsLoop(order: seq<Pubkey>, existing: map<Pubkey, Creator>, newMap: map<Pubkey, Creator>,
                                updateAuthority: Pubkey, updateAuthorityIsSigner: bool): (r: Outcome)
    requires forall k :: k in order ==> k in existing
    ensures r.Fail? ==> r.error == CannotUnverifyAnotherCreator
    decreases |order|
  {
    if order == [] then Pass
    else if updateAuthorityIsSigner && order[0] == updateAuthority then
      ExistingCreatorsLoop(order[1..], existing, newMap, updateAuthority, updateAuthorityIsSigner)
    else if order[0] !in newMap && existing[order[0]].verified then Fail(CannotUnverifyAnotherCreator)
    else ExistingCreatorsLoop(order[1..], existing, newMap, updateAuthority, updateAuthorityIsSigner)
  }

  /** The errors `assert_data_valid` can return. */
  predicate IsDataError(e: BubblegumError)
  {
    e in {MetadataNameTooLong, MetadataSymbolTooLong, MetadataUriTooLong, MetadataBasisPointsTooHigh,
          CreatorsTooLong, NoCreatorsPresent, DuplicateCreatorAddress, NumericalOverflowError,
          CannotVerifyAnotherCreator, CannotUnverifyAnotherCreator, CreatorShareTotalMustBe100}
  }

  /** `assert_data_valid` with the iteration orders of its two maps given. */
  function DataValidity(newArgs: MetadataArgs, updateAuthority: Pubkey, oldArgs: MetadataArgs,
                        allowDirectCreatorWrites: bool, updateAuthorityIsSigner: bool,
                        newOrder: seq<Pubkey>, oldOrder: seq<Pubkey>): (r: Outcome)
    requires IsEnumeration(newOrder, CreatorMap(newArgs.creators).Keys)
    requires IsEnumeration(oldOrder, CreatorMap(oldArgs.creators).Keys)
    ensures r.Fail? ==> IsDataError(r.error)
  {
    if |newArgs.name| > MAX_NAME_LENGTH then Fail(MetadataNameTooLong)
    else if |newArgs.symbol| > MAX_SYMBOL_LENGTH then Fail(MetadataSymbolTooLong)
    else if |newArgs.uri| > MAX_URI_LENGTH then Fail(MetadataUriTooLong)
    else if newArgs.sellerFeeBasisPoints > 10000 then Fail(MetadataBasisPointsTooHigh)
    else if |newArgs.creators| > MAX_CREATOR_LIMIT then Fail(CreatorsTooLong)
    else if |newArgs.creators| == 0 then Fail(NoCreatorsPresent)
    else
      var newMap := CreatorMap(newArgs.creators);
      if |newMap| != |newArgs.creators| then Fail(DuplicateCreatorAddress)
      else
        // The old creators always form a map: `Some(&old.creators).map(..)`.
        var existing := CreatorMap(oldArgs.creators);
        match NewCreatorsLoop(newOrder, newMap, updateAuthority, existing, allowDirectCreatorWrites,
                              updateAuthorityIsSigner, 0)
        case Err(e) => Fail(e)
        case Ok(shareTotal) =>
          if shareTotal != 100 then Fail(CreatorShareTotalMustBe100)
          else if allowDirectCreatorWrites then Pass
          else ExistingCreatorsLoop(oldOrder, existing, newMap, updateAuthority, updateAuthorityIsSigner)
  }

  // ---------------------------------------------------------------------
  // When the check passes, independently of the iteration orders.

  predicate FieldsWithinCaps(newArgs: MetadataArgs)
  {
    && |newArgs.name| <= MAX_NAME_LENGTH
    && |newArgs.symbol| <= MAX_SYMBOL_LENGTH
    && |newArgs.uri| <= MAX_URI_LENGTH
    && newArgs.sellerFeeBasisPoints <= 10000
  }

  /** Between one and `MAX_CREATOR_LIMIT` creators, no address twice, and
      the shares sum to exactly 100. */
  predicate CreatorListWellFormed(cs: seq<Creator>)
  {
    && 1 <= |cs| <= MAX_CREATOR_LIMIT
    && DistinctAddresses(cs)
    && SumShares(cs) == 100
  }

  predicate NewFlagsKept(newArgs: MetadataArgs, updateAuthority: Pubkey, oldArgs: MetadataArgs,
                         allowDirectCreatorWrites: bool, updateAuthorityIsSigner: bool)
  {
    forall i :: 0 <= i < |newArgs.creators| ==>
      FlagKept(newArgs.creators[i], updateAuthority, CreatorMap(oldArgs.creators), allowDirectCreatorWrites, updateAuthorityIsSigner)
  }

  predicate OldVerifiedRetained(newArgs: MetadataArgs, updateAuthority: Pubkey, oldArgs: MetadataArgs,
                                allowDirectCreatorWrites: bool, updateAuthorityIsSigner: bool)
  {
    || allowDirectCreatorWrites
    || forall a :: a in CreatorMap(oldArgs.creators) ==>
         RetainedIfVerified(a, CreatorMap(oldArgs.creators), CreatorMap(newArgs.creators), updateAuthority, updateAuthorityIsSigner)
  }

  /** Order-free statement of when `assert_data_valid` returns `Ok`. */
  predicate DataValid(newArgs: MetadataArgs, updateAuthority: Pubkey, oldArgs: MetadataArgs,
                      allowDirectCreatorWrites: bool, updateAuthorityIsSigner: bool)
  {
    && FieldsWithinCaps(newArgs)
    && CreatorListWellFormed(newArgs.creators)
    && NewFlagsKept(newArgs, updateAuthority, oldArgs, allowDirectCreatorWrites, updateAuthorityIsSigner)
    && OldVerifiedRetained(newArgs, updateAuthority, oldArgs, allowDirectCreatorWrites, updateAuthorityIsSigner)
  }

  /** The first loop passes exactly when no share total overflows `u8` and
      every flag check passes; it then yields the total. The `checked_add`
      overflow is reported only if the true sum exceeds 255, and it is
      reported whenever the sum exceeds 255 and no flag check fails first. */
  lemma {:induction false} NewCreatorsLoopOutcome(order: seq<Pubkey>, newMap: map<Pubkey, Creator>,
                                                  updateAuthority: Pubkey, existing: map<Pubkey, Creator>,
                                                  allowDirectCreatorWrites: bool, updateAuthorityIsSigner: bool,
                                                  total: u8)
    requires forall k :: k in order ==> k in newMap
    ensures var r := NewCreatorsLoop(order, newMap, updateAuthority, existing, allowDirectCreatorWrites,
                                     updateAuthorityIsSigner, total);
      && (r.Ok? <==> total + SumOver(order, newMap) <= U8_MAX
                     && AllFlagsKept(order, newMap, updateAuthority, existing, allowDirectCreatorWrites, updateAuthorityIsSigner))
      && (r.Ok? ==> r.value == total + SumOver(order, newMap))
      && (r == Err(NumericalOverflowError) ==> total + SumOver(order, newMap) > U8_MAX)
      && (AllFlagsKept(order, newMap, updateAuthority, existing, allowDirectCreatorWrites, updateAuthorityIsSigner) ==>
            (r == Err(NumericalOverflowError) <==> total + SumOver(order, newMap) > U8_MAX))
    decreases |order|
  {
    if order != [] {
      var c := newMap[order[0]];
      var rest := order[1..];
      if total + c.share <= U8_MAX {
        NewCreatorsLoopOutcome(rest, newMap, updateAuthority, existing, allowDirectCreatorWrites,
                               updateAuthorityIsSigner, total + c.share);
        assert forall i :: 1 <= i < |order| ==> order[i] == rest[i - 1];
      }
    }
  }

  /** The first loop stops at position `i` of `order` with result `r`:
      every earlier creator kept its flag and its share fitted in the `u8`
      total, and creator `i` either overflows the total, which is reported
      first, or fits and fails its flag check with that check's error. */
  predicate StopsAt(order: seq<Pubkey>, newMap: map<Pubkey, Creator>, updateAuthority: Pubkey,
                    existing: map<Pubkey, Creator>, allowDirectCreatorWrites: bool,
                    updateAuthorityIsSigner: bool, total: u8, i: nat, r: Result<u8>)
    requires forall k :: k in order ==> k in newMap
    requires i < |order|
  {
    assert forall k :: k in order[..i] ==> k in order;
    var before := total + SumOver(order[..i], newMap);
    var c := newMap[order[i]];
    && (forall j :: 0 <= j < i ==>
          FlagKept(newMap[order[j]], updateAuthority, existing, allowDirectCreatorWrites, updateAuthorityIsSigner))
    && before <= U8_MAX
    && if before + c.share > U8_MAX then r == Err(NumericalOverflowError)
       else
         var check := VerifiedFlagCheck(c, updateAuthority, existing, allowDirectCreatorWrites, updateAuthorityIsSigner);
         check.Fail? && r == Err(check.error)
  }

  /** Some position of `order` is where the first loop stops with `r`. */
  predicate StopsSomewhere(order: seq<Pubkey>, newMap: map<Pubkey, Creator>, updateAuthority: Pubkey,
                           existing: map<Pubkey, Creator>, allowDirectCreatorWrites: bool,
                           updateAuthorityIsSigner: bool, total: u8, r: Result<u8>)
    requires forall k :: k in order ==> k in newMap
  {
    exists i :: 0 <= i < |order|
      && StopsAt(order, newMap, updateAuthority, existing, allowDirectCreatorWrites, updateAuthorityIsSigner, total, i, r)
  }

  /** A stop at position `i` of `order[1..]`, from the total after the
      first creator, is a stop at position `i + 1` of `order` when the first
      creator fits and keeps its flag. */
  lemma StopsAtShift(order: seq<Pubkey>, newMap: map<Pubkey, Creator>, updateAuthority: Pubkey,
                     existing: map<Pubkey, Creator>, allowDirectCreatorWrites: bool,
                     updateAuthorityIsSigner: bool, total: u8, i: nat, r: Result<u8>)
    requires forall k :: k in order ==> k in newMap
    requires i + 1 < |order|
    requires total + newMap[order[0]].share <= U8_MAX
    requires FlagKept(newMap[order[0]], updateAuthority, existing, allowDirectCreatorWrites, updateAuthorityIsSigner)
    requires StopsAt(order[1..], newMap, updateAuthority, existing, allowDirectCreatorWrites, updateAuthorityIsSigner,
                     total + newMap[order[0]].share, i, r)
    ensures StopsAt(order, newMap, updateAuthority, existing, allowDirectCreatorWrites, updateAuthorityIsSigner,
                    total, i + 1, r)
  {
    var rest := order[1..];
    assert order[..i + 1][0] == order[0] && order[..i + 1][1..] == rest[..i];
    assert forall j :: 1 <= j < i + 1 ==> order[j] == rest[j - 1];
  }

  /** Every error of the first loop is produced at one creator, after all
      earlier creators passed both checks; at that creator the share is
      added before the flag is checked, so an overflow there is reported
      instead of its flag error. */
  lemma {:induction false} NewCreatorsLoopFirstError(order: seq<Pubkey>, newMap: map<Pubkey, Creator>,
                                                     updateAuthority: Pubkey, existing: map<Pubkey, Creator>,
                                                     allowDirectCreatorWrites: bool, updateAuthorityIsSigner: bool,
                                                     total: u8)
    requires forall k :: k in order ==> k in newMap
    ensures NewCreatorsLoop(order, newMap, updateAuthority, existing, allowDirectCreatorWrites,
                            updateAuthorityIsSigner, total).Err? ==>
            StopsSomewhere(order, newMap, updateAuthority, existing, allowDirectCreatorWrites,
                           updateAuthorityIsSigner, total,
                           NewCreatorsLoop(order, newMap, updateAuthority, existing, allowDirectCreatorWrites,
                                           updateAuthorityIsSigner, total))
    decreases |order|
  {
    if order != [] {
      var c := newMap[order[0]];
      var rest := order[1..];
      var r := NewCreatorsLoop(order, newMap, updateAuthority, existing, allowDirectCreatorWrites,
                               updateAuthorityIsSigner, total);
      assert order[..0] == [];
      if total + c.share > U8_MAX
         || VerifiedFlagCheck(c, updateAuthority, existing, allowDirectCreatorWrites, updateAuthorityIsSigner).Fail? {
        assert StopsAt(order, newMap, updateAuthority, existing, allowDirectCreatorWrites, updateAuthorityIsSigner, total, 0, r);
      } else {
        NewCreatorsLoopFirstError(rest, newMap, updateAuthority, existing, allowDirectCreatorWrites,
                                  updateAuthorityIsSigner, total + c.share);
        if r.Err? {
          var i :| 0 <= i < |rest|
                   && StopsAt(rest, newMap, updateAuthority, existing, allowDirectCreatorWrites, updateAuthorityIsSigner,
                              total + c.share, i, r);
          StopsAtShift(order, newMap, updateAuthority, existing, allowDirectCreatorWrites, updateAuthorityIsSigner,
                       total, i, r);
        }
      }
    }
  }

  /** Each flag error of the first loop comes from a visited creator whose
      flag check fails: `CannotVerifyAnotherCreator` from one that sets its
      flag, `CannotUnverifyAnotherCreator` from one that clears it. */
  lemma {:induction false} NewCreatorsLoopFlagErrors(order: seq<Pubkey>, newMap: map<Pubkey, Creator>,
                                                     updateAuthority: Pubkey, existing: map<Pubkey, Creator>,
                                                     allowDirectCreatorWrites: bool, updateAuthorityIsSigner: bool,
                                                     total: u8)
    requires forall k :: k in order ==> k in newMap
    ensures var r := NewCreatorsLoop(order, newMap, updateAuthority, existing, allowDirectCreatorWrites,
                                     updateAuthorityIsSigner, total);
      && (r == Err(CannotVerifyAnotherCreator) ==>
            exists i :: 0 <= i < |order| && newMap[order[i]].verified
              && !FlagKept(newMap[order[i]], updateAuthority, existing, allowDirectCreatorWrites, updateAuthorityIsSigner))
      && (r == Err(CannotUnverifyAnotherCreator) ==>
            exists i :: 0 <= i < |order| && !newMap[order[i]].verified
              && !FlagKept(newMap[order[i]], updateAuthority, existing, allowDirectCreatorWrites, updateAuthorityIsSigner))
    decreases |order|
  {
    if order != [] {
      var c := newMap[order[0]];
      var rest := order[1..];
      if total + c.share <= U8_MAX
         && VerifiedFlagCheck(c, updateAuthority, existing, allowDirectCreatorWrites, updateAuthorityIsSigner).Pass? {
        NewCreatorsLoopFlagErrors(rest, newMap, updateAuthority, existing, allowDirectCreatorWrites,
                                  updateAuthorityIsSigner, total + c.share);
        var r := NewCreatorsLoop(rest, newMap, updateAuthority, existing, allowDirectCreatorWrites,
                                 updateAuthorityIsSigner, total + c.share);
        if r == Err(CannotVerifyAnotherCreator) {
          var i :| 0 <= i < |rest| && newMap[rest[i]].verified
                   && !FlagKept(newMap[rest[i]], updateAuthority, existing, allowDirectCreatorWrites, updateAuthorityIsSigner);
          assert order[i + 1] == rest[i];
        } else if r == Err(CannotUnverifyAnotherCreator) {
          var i :| 0 <= i < |rest| && !newMap[rest[i]].verified
                   && !FlagKept(newMap[rest[i]], updateAuthority, existing, allowDirectCreatorWrites, updateAuthorityIsSigner);
          assert order[i + 1] == rest[i];
        }
      }
    }
  }

  /** The second loop passes exactly when every visited old creator is
      retained if verified. */
  lemma {:induction false} ExistingCreatorsLoopOutcome(order: seq<Pubkey>, existing: map<Pubkey, Creator>,
                                                       newMap: map<Pubkey, Creator>, updateAuthority: Pubkey,
                                                       updateAuthorityIsSigner: bool)
    requires forall k :: k in order ==> k in existing
    ensures ExistingCreatorsLoop(order, existing, newMap, updateAuthority, updateAuthorityIsSigner).Pass? <==>
            forall k :: k in order ==> RetainedIfVerified(k, existing, newMap, updateAuthority, updateAuthorityIsSigner)
    decreases |order|
  {
    if order != [] {
      var rest := order[1..];
      ExistingCreatorsLoopOutcome(rest, existing, newMap, updateAuthority, updateAuthorityIsSigner);
      assert order == [order[0]] + rest;
      assert order[0] in order;
      assert forall k :: k in rest ==> k in order;
    }
  }

  /** Visiting the map of a list without repeated addresses in any order
      checks the same creators as walking the list. */
  lemma FlagsOverOrder(cs: seq<Creator>, order: seq<Pubkey>, updateAuthority: Pubkey,
                       existing: map<Pubkey, Creator>, allowDirectCreatorWrites: bool, updateAuthorityIsSigner: bool)
    requires DistinctAddresses(cs)
    requires IsEnumeration(order, CreatorMap(cs).Keys)
    ensures AllFlagsKept(order, CreatorMap(cs), updateAuthority, existing, allowDirectCreatorWrites, updateAuthorityIsSigner) <==>
            forall i :: 0 <= i < |cs| ==> FlagKept(cs[i], updateAuthority, existing, allowDirectCreatorWrites, updateAuthorityIsSigner)
  {
    var m := CreatorMap(cs);
    CreatorMapKeys(cs);
    CreatorMapOfDistinct(cs);
    if AllFlagsKept(order, m, updateAuthority, existing, allowDirectCreatorWrites, updateAuthorityIsSigner) {
      forall i | 0 <= i < |cs|
        ensures FlagKept(cs[i], updateAuthority, existing, allowDirectCreatorWrites, updateAuthorityIsSigner)
      {
        assert cs[i].address in m;
        var j :| 0 <= j < |order| && order[j] == cs[i].address;
        assert m[order[j]] == cs[i];
      }
    }
    if forall i :: 0 <= i < |cs| ==> FlagKept(cs[i], updateAuthority, existing, allowDirectCreatorWrites, updateAuthorityIsSigner) {
      forall j | 0 <= j < |order|
        ensures FlagKept(m[order[j]], updateAuthority, existing, allowDirectCreatorWrites, updateAuthorityIsSigner)
      {
        assert order[j] in Addresses(cs);
        var i :| 0 <= i < |cs| && Addresses(cs)[i] == order[j];
        assert m[order[j]] == cs[i];
      }
    }
  }

  /** `assert_data_valid` returns `Ok` exactly when `DataValid` holds, on
      every iteration order of its two maps. */
  lemma DataValidityPasses(newArgs: MetadataArgs, updateAuthority: Pubkey, oldArgs: MetadataArgs,
                           allowDirectCreatorWrites: bool, updateAuthorityIsSigner: bool,
                           newOrder: seq<Pubkey>, oldOrder: seq<Pubkey>)
    requires IsEnumeration(newOrder, CreatorMap(newArgs.creators).Keys)
    requires IsEnumeration(oldOrder, CreatorMap(oldArgs.creators).Keys)
    ensures DataValidity(newArgs, updateAuthority, oldArgs, allowDirectCreatorWrites, updateAuthorityIsSigner, newOrder, oldOrder).Pass? <==>
            DataValid(newArgs, updateAuthority, oldArgs, allowDirectCreatorWrites, updateAuthorityIsSigner)
  {
    var cs := newArgs.creators;
    var newMap := CreatorMap(cs);
    var existing := CreatorMap(oldArgs.creators);
    CreatorMapSize(cs);
    if FieldsWithinCaps(newArgs) && 1 <= |cs| <= MAX_CREATOR_LIMIT && DistinctAddresses(cs) {
      CreatorMapSumShares(cs, newOrder);
      FlagsOverOrder(cs, newOrder, updateAuthority, existing, allowDirectCreatorWrites, updateAuthorityIsSigner);
      NewCreatorsLoopOutcome(newOrder, newMap, updateAuthority, existing, allowDirectCreatorWrites, updateAuthorityIsSigner, 0);
      ExistingCreatorsLoopOutcome(oldOrder, existing, newMap, updateAuthority, updateAuthorityIsSigner);
    }
  }

  /** Each error of the field and creator-count checks is returned
      exactly when its own condition is the first one to fail. */
  lemma DataValidityFieldErrors(newArgs: MetadataArgs, updateAuthority: Pubkey, oldArgs: MetadataArgs,
                                allowDirectCreatorWrites: bool, updateAuthorityIsSigner: bool,
                                newOrder: seq<Pubkey>, oldOrder: seq<Pubkey>)
    requires IsEnumeration(newOrder, CreatorMap(newArgs.creators).Keys)
    requires IsEnumeration(oldOrder, CreatorMap(oldArgs.creators).Keys)
    ensures var r := DataValidity(newArgs, updateAuthority, oldArgs, allowDirectCreatorWrites,
                                  updateAuthorityIsSigner, newOrder, oldOrder);
      var cs := newArgs.creators;
      && (r == Fail(MetadataNameTooLong) <==> |newArgs.name| > MAX_NAME_LENGTH)
      && (r == Fail(MetadataSymbolTooLong) <==>
            |newArgs.name| <= MAX_NAME_LENGTH && |newArgs.symbol| > MAX_SYMBOL_LENGTH)
      && (r == Fail(MetadataUriTooLong) <==>
            |newArgs.name| <= MAX_NAME_LENGTH && |newArgs.symbol| <= MAX_SYMBOL_LENGTH
            && |newArgs.uri| > MAX_URI_LENGTH)
      && (r == Fail(MetadataBasisPointsTooHigh) <==>
            |newArgs.name| <= MAX_NAME_LENGTH && |newArgs.symbol| <= MAX_SYMBOL_LENGTH
            && |newArgs.uri| <= MAX_URI_LENGTH && newArgs.sellerFeeBasisPoints > 10000)
      && (r == Fail(CreatorsTooLong) <==> FieldsWithinCaps(newArgs) && |cs| > MAX_CREATOR_LIMIT)
      && (r == Fail(NoCreatorsPresent) <==> FieldsWithinCaps(newArgs) && |cs| == 0)
      && (r == Fail(DuplicateCreatorAddress) <==>
            FieldsWithinCaps(newArgs) && 1 <= |cs| <= MAX_CREATOR_LIMIT && !DistinctAddresses(cs))
  {
    CreatorMapSize(newArgs.creators);
  }

  /** Once the fields and the creator list's shape pass, the share errors
      report the true share sum: the overflow only when it exceeds 255,
      the total error only when it is not 100; and when every flag check
      passes, exactly one of them is returned for a sum other than 100. */
  lemma DataValidityShareErrors(newArgs: MetadataArgs, updateAuthority: Pubkey, oldArgs: MetadataArgs,
                                allowDirectCreatorWrites: bool, updateAuthorityIsSigner: bool,
                                newOrder: seq<Pubkey>, oldOrder: seq<Pubkey>)
    requires IsEnumeration(newOrder, CreatorMap(newArgs.creators).Keys)
    requires IsEnumeration(oldOrder, CreatorMap(oldArgs.creators).Keys)
    ensures var r := DataValidity(newArgs, updateAuthority, oldArgs, allowDirectCreatorWrites,
                                  updateAuthorityIsSigner, newOrder, oldOrder);
      var cs := newArgs.creators;
      && (r == Fail(NumericalOverflowError) ==> SumShares(cs) > U8_MAX)
      && (r == Fail(CreatorShareTotalMustBe100) ==> SumShares(cs) != 100)
      && (FieldsWithinCaps(newArgs) && 1 <= |cs| <= MAX_CREATOR_LIMIT && DistinctAddresses(cs)
          && NewFlagsKept(newArgs, updateAuthority, oldArgs, allowDirectCreatorWrites, updateAuthorityIsSigner) ==>
            && (SumShares(cs) > U8_MAX ==> r == Fail(NumericalOverflowError))
            && (SumShares(cs) <= U8_MAX && SumShares(cs) != 100 ==> r == Fail(CreatorShareTotalMustBe100)))
  {
    var cs := newArgs.creators;
    var existing := CreatorMap(oldArgs.creators);
    CreatorMapSize(cs);
    if FieldsWithinCaps(newArgs) && 1 <= |cs| <= MAX_CREATOR_LIMIT && DistinctAddresses(cs) {
      CreatorMapSumShares(cs, newOrder);
      FlagsOverOrder(cs, newOrder, updateAuthority, existing, allowDirectCreatorWrites, updateAuthorityIsSigner);
      NewCreatorsLoopOutcome(newOrder, CreatorMap(cs), updateAuthority, existing, allowDirectCreatorWrites,
                             updateAuthorityIsSigner, 0);
    }
  }

  /** A creator visited in an iteration order over the map of a list
      without repeats is a creator of the list. */
  lemma VisitedCreator(cs: seq<Creator>, order: seq<Pubkey>, i: nat)
    requires DistinctAddresses(cs)
    requires IsEnumeration(order, CreatorMap(cs).Keys)
    requires i < |order|
    ensures exists j :: 0 <= j < |cs| && cs[j] == CreatorMap(cs)[order[i]]
  {
    CreatorMapKeys(cs);
    CreatorMapOfDistinct(cs);
    assert order[i] in Addresses(cs);
    var j :| 0 <= j < |cs| && Addresses(cs)[j] == order[i];
    assert CreatorMap(cs)[order[i]] == cs[j];
  }

  /** The first loop over any iteration order of the map of a list without
      repeats: each flag error names a creator of the list whose flag
      check fails, with its flag set or clear accordingly. */
  lemma ListFlagErrors(cs: seq<Creator>, order: seq<Pubkey>, updateAuthority: Pubkey,
                       existing: map<Pubkey, Creator>, allowDirectCreatorWrites: bool, updateAuthorityIsSigner: bool)
    requires DistinctAddresses(cs)
    requires IsEnumeration(order, CreatorMap(cs).Keys)
    ensures var r := NewCreatorsLoop(order, CreatorMap(cs), updateAuthority, existing, allowDirectCreatorWrites,
                                     updateAuthorityIsSigner, 0);
      && (r == Err(CannotVerifyAnotherCreator) ==>
            exists j :: 0 <= j < |cs| && cs[j].verified
              && !FlagKept(cs[j], updateAuthority, existing, allowDirectCreatorWrites, updateAuthorityIsSigner))
      && (r == Err(CannotUnverifyAnotherCreator) ==>
            exists j :: 0 <= j < |cs| && !cs[j].verified
              && !FlagKept(cs[j], updateAuthority, existing, allowDirectCreatorWrites, updateAuthorityIsSigner))
  {
    var m := CreatorMap(cs);
    NewCreatorsLoopFlagErrors(order, m, updateAuthority, existing, allowDirectCreatorWrites, updateAuthorityIsSigner, 0);
    var r := NewCreatorsLoop(order, m, updateAuthority, existing, allowDirectCreatorWrites, updateAuthorityIsSigner, 0);
    if r == Err(CannotVerifyAnotherCreator) {
      var i :| 0 <= i < |order| && m[order[i]].verified
               && !FlagKept(m[order[i]], updateAuthority, existing, allowDirectCreatorWrites, updateAuthorityIsSigner);
      VisitedCreator(cs, order, i);
    } else if r == Err(CannotUnverifyAnotherCreator) {
      var i :| 0 <= i < |order| && !m[order[i]].verified
               && !FlagKept(m[order[i]], updateAuthority, existing, allowDirectCreatorWrites, updateAuthorityIsSigner);
      VisitedCreator(cs, order, i);
    }
  }

  /** The two flag errors name a creator whose flag changed without
      permission: `CannotVerifyAnotherCreator` a new creator that sets its
      flag, `CannotUnverifyAnotherCreator` a new creator that clears it or
      a verified old creator that was dropped. */
  lemma DataValidityFlagErrors(newArgs: MetadataArgs, updateAuthority: Pubkey, oldArgs: MetadataArgs,
                               allowDirectCreatorWrites: bool, updateAuthorityIsSigner: bool,
                               newOrder: seq<Pubkey>, oldOrder: seq<Pubkey>)
    requires IsEnumeration(newOrder, CreatorMap(newArgs.creators).Keys)
    requires IsEnumeration(oldOrder, CreatorMap(oldArgs.creators).Keys)
    ensures var r := DataValidity(newArgs, updateAuthority, oldArgs, allowDirectCreatorWrites,
                                  updateAuthorityIsSigner, newOrder, oldOrder);
      var cs := newArgs.creators;
      var existing := CreatorMap(oldArgs.creators);
      && (r == Fail(CannotVerifyAnotherCreator) ==>
            exists i :: 0 <= i < |cs| && cs[i].verified
              && !FlagKept(cs[i], updateAuthority, existing, allowDirectCreatorWrites, updateAuthorityIsSigner))
      && (r == Fail(CannotUnverifyAnotherCreator) ==>
            || (exists i :: 0 <= i < |cs| && !cs[i].verified
                  && !FlagKept(cs[i], updateAuthority, existing, allowDirectCreatorWrites, updateAuthorityIsSigner))
            || (exists k :: k in existing
                  && !RetainedIfVerified(k, existing, CreatorMap(cs), updateAuthority, updateAuthorityIsSigner)))
  {
    var cs := newArgs.creators;
    var newMap := CreatorMap(cs);
    var existing := CreatorMap(oldArgs.creators);
    CreatorMapSize(cs);
    if FieldsWithinCaps(newArgs) && 1 <= |cs| <= MAX_CREATOR_LIMIT && DistinctAddresses(cs) {
      ListFlagErrors(cs, newOrder, updateAuthority, existing, allowDirectCreatorWrites, updateAuthorityIsSigner);
      ExistingCreatorsLoopOutcome(oldOrder, existing, newMap, updateAuthority, updateAuthorityIsSigner);
    }
  }

  /** Once the fields, the list shape and the share sum pass, a failing
      new flag check gives one of the two flag errors; and with every new
      flag kept and the shares at 100, a dropped verified old creator gives
      `CannotUnverifyAnotherCreator`. */
  lemma DataValidityFlagErrorsRaised(newArgs: MetadataArgs, updateAuthority: Pubkey, oldArgs: MetadataArgs,
                                     allowDirectCreatorWrites: bool, updateAuthorityIsSigner: bool,
                                     newOrder: seq<Pubkey>, oldOrder: seq<Pubkey>)
    requires IsEnumeration(newOrder, CreatorMap(newArgs.creators).Keys)
    requires IsEnumeration(oldOrder, CreatorMap(oldArgs.creators).Keys)
    ensures var r := DataValidity(newArgs, updateAuthority, oldArgs, allowDirectCreatorWrites,
                                  updateAuthorityIsSigner, newOrder, oldOrder);
      var cs := newArgs.creators;
      && (FieldsWithinCaps(newArgs) && 1 <= |cs| <= MAX_CREATOR_LIMIT && DistinctAddresses(cs) && SumShares(cs) <= U8_MAX
          && !NewFlagsKept(newArgs, updateAuthority, oldArgs, allowDirectCreatorWrites, updateAuthorityIsSigner) ==>
            r == Fail(CannotVerifyAnotherCreator) || r == Fail(CannotUnverifyAnotherCreator))
      && (FieldsWithinCaps(newArgs) && CreatorListWellFormed(cs)
          && NewFlagsKept(newArgs, updateAuthority, oldArgs, allowDirectCreatorWrites, updateAuthorityIsSigner)
          && !OldVerifiedRetained(newArgs, updateAuthority, oldArgs, allowDirectCreatorWrites, updateAuthorityIsSigner) ==>
            r == Fail(CannotUnverifyAnotherCreator))
  {
    var cs := newArgs.creators;
    var newMap := CreatorMap(cs);
    var existing := CreatorMap(oldArgs.creators);
    CreatorMapSize(cs);
    if FieldsWithinCaps(newArgs) && 1 <= |cs| <= MAX_CREATOR_LIMIT && DistinctAddresses(cs) {
      CreatorMapSumShares(cs, newOrder);
      FlagsOverOrder(cs, newOrder, updateAuthority, existing, allowDirectCreatorWrites, updateAuthorityIsSigner);
      NewCreatorsLoopOutcome(newOrder, newMap, updateAuthority, existing, allowDirectCreatorWrites, updateAuthorityIsSigner, 0);
      ExistingCreatorsLoopOutcome(oldOrder, existing, newMap, updateAuthority, updateAuthorityIsSigner);
    }
  }

  /** Whether `assert_data_valid` returns `Ok` does not depend on the
      iteration order of either `HashMap`. */
  lemma DataValidityOrderIndependent(newArgs: MetadataArgs, updateAuthority: Pubkey, oldArgs: MetadataArgs,
                                     allowDirectCreatorWrites: bool, updateAuthorityIsSigner: bool,
                                     newOrder1: seq<Pubkey>, oldOrder1: seq<Pubkey>,
                                     newOrder2: seq<Pubkey>, oldOrder2: seq<Pubkey>)
    requires IsEnumeration(newOrder1, CreatorMap(newArgs.creators).Keys)
    requires IsEnumeration(oldOrder1, CreatorMap(oldArgs.creators).Keys)
    requires IsEnumeration(newOrder2, CreatorMap(newArgs.creators).Keys)
    requires IsEnumeration(oldOrder2, CreatorMap(oldArgs.creators).Keys)
    ensures DataValidity(newArgs, updateAuthority, oldArgs, allowDirectCreatorWrites, updateAuthorityIsSigner, newOrder1, oldOrder1).Pass? <==>
            DataValidity(newArgs, updateAuthority, oldArgs, allowDirectCreatorWrites, updateAuthorityIsSigner, newOrder2, oldOrder2).Pass?
  {
    DataValidityPasses(newArgs, updateAuthority, oldArgs, allowDirectCreatorWrites, updateAuthorityIsSigner, newOrder1, oldOrder1);
    DataValidityPasses(newArgs, updateAuthority, oldArgs, allowDirectCreatorWrites, updateAuthorityIsSigner, newOrder2, oldOrder2);
  }

  // ---------------------------------------------------------------------
  // The procedure itself.

  /** The first `for` loop (lines 154-198): the running `u8` share total
      and the flag check, with early returns. */
  method CheckNewCreators(order: seq<Pubkey>, newCreatorsMap: map<Pubkey, Creator>, updateAuthority: Pubkey,
                          existingCreatorsMap: map<Pubkey, Creator>, allowDirectCreatorWrites: bool,
                          updateAuthorityIsSigner: bool) returns (r: Result<u8>)
    requires forall k :: k in order ==> k in newCreatorsMap
    requires KeyedByAddress(newCreatorsMap)
    ensures r == NewCreatorsLoop(order, newCreatorsMap, updateAuthority, existingCreatorsMap,
                                 allowDirectCreatorWrites, updateAuthorityIsSigner, 0)
  {
    var shareTotal: u8 := 0;
    var i := 0;
    while i < |order|
      invariant 0 <= i <= |order|
      invariant NewCreatorsLoop(order[i..], newCreatorsMap, updateAuthority, existingCreatorsMap,
                                allowDirectCreatorWrites, updateAuthorityIsSigner, shareTotal) ==
                NewCreatorsLoop(order, newCreatorsMap, updateAuthority, existingCreatorsMap,
                                allowDirectCreatorWrites, updateAuthorityIsSigner, 0)
    {
      var address := order[i];
      var creator := newCreatorsMap[address];
      assert order[i..][0] == address && order[i..][1..] == order[i + 1..];
      if shareTotal + creator.share > U8_MAX {
        return Err(NumericalOverflowError);
      }
      shareTotal := shareTotal + creator.share;
      if !allowDirectCreatorWrites && !(updateAuthorityIsSigner && address == updateAuthority) {
        if address in existingCreatorsMap {
          if creator.verified && !existingCreatorsMap[address].verified {
            return Err(CannotVerifyAnotherCreator);
          } else if !creator.verified && existingCreatorsMap[address].verified {
            return Err(CannotUnverifyAnotherCreator);
          }
        } else if creator.verified {
          return Err(CannotVerifyAnotherCreator);
        }
      }
      i := i + 1;
    }
    return Ok(shareTotal);
  }

  /** The second `for` loop (lines 209-219): no verified old creator may be
      dropped by anyone but itself. */
  method CheckExistingCreators(order: seq<Pubkey>, existingCreatorsMap: map<Pubkey, Creator>,
                               newCreatorsMap: map<Pubkey, Creator>, updateAuthority: Pubkey,
                               updateAuthorityIsSigner: bool) returns (r: Outcome)
    requires forall k :: k in order ==> k in existingCreatorsMap
    ensures r == ExistingCreatorsLoop(order, existingCreatorsMap, newCreatorsMap, updateAuthority, updateAuthorityIsSigner)
  {
    var j := 0;
    while j < |order|
      invariant 0 <= j <= |order|
      invariant ExistingCreatorsLoop(order[j..], existingCreatorsMap, newCreatorsMap, updateAuthority, updateAuthorityIsSigner) ==
                ExistingCreatorsLoop(order, existingCreatorsMap, newCreatorsMap, updateAuthority, updateAuthorityIsSigner)
    {
      var address := order[j];
      assert order[j..][1..] == order[j + 1..];
      if updateAuthorityIsSigner && address == updateAuthority {
        // This creator may clear its own flag.
      } else if address !in newCreatorsMap && existingCreatorsMap[address].verified {
        return Fail(CannotUnverifyAnotherCreator);
      }
      j := j + 1;
    }
    return Pass;
  }

  /** `assert_data_valid`, step by step: the caps, the creator-list checks,
      then the two loops. */
  method AssertDataValid(newArgs: MetadataArgs, updateAuthority: Pubkey, oldArgs: MetadataArgs,
                         allowDirectCreatorWrites: bool, updateAuthorityIsSigner: bool,
                         newOrder: seq<Pubkey>, oldOrder: seq<Pubkey>) returns (r: Outcome)
    requires IsEnumeration(newOrder, CreatorMap(newArgs.creators).Keys)
    requires IsEnumeration(oldOrder, CreatorMap(oldArgs.creators).Keys)
    ensures r == DataValidity(newArgs, updateAuthority, oldArgs, allowDirectCreatorWrites, updateAuthorityIsSigner, newOrder, oldOrder)
    ensures r.Pass? <==> DataValid(newArgs, updateAuthority, oldArgs, allowDirectCreatorWrites, updateAuthorityIsSigner)
  {
    DataValidityPasses(newArgs, updateAuthority, oldArgs, allowDirectCreatorWrites, updateAuthorityIsSigner, newOrder, oldOrder);
    if |newArgs.name| > MAX_NAME_LENGTH {
      return Fail(MetadataNameTooLong);
    }
    if |newArgs.symbol| > MAX_SYMBOL_LENGTH {
      return Fail(MetadataSymbolTooLong);
    }
    if |newArgs.uri| > MAX_URI_LENGTH {
      return Fail(MetadataUriTooLong);
    }
    if newArgs.sellerFeeBasisPoints > 10000 {
      return Fail(MetadataBasisPointsTooHigh);
    }
    var creators := newArgs.creators;
    if |creators| > MAX_CREATOR_LIMIT {
      return Fail(CreatorsTooLong);
    }
    if |creators| == 0 {
      return Fail(NoCreatorsPresent);
    }
    var newCreatorsMap := CreatorMap(creators);
    if |newCreatorsMap| != |creators| {
      return Fail(DuplicateCreatorAddress);
    }
    var existingCreatorsMap := CreatorMap(oldArgs.creators);
    CreatorMapKeyedByAddress(creators);
    var sum := CheckNewCreators(newOrder, newCreatorsMap, updateAuthority, existingCreatorsMap,
                                allowDirectCreatorWrites, updateAuthorityIsSigner);
    if sum.Err? {
      return Fail(sum.error);
    }
    if sum.value != 100 {
      return Fail(CreatorShareTotalMustBe100);
    }
    if allowDirectCreatorWrites {
      return Pass;
    }
    r := CheckExistingCreators(oldOrder, existingCreatorsMap, newCreatorsMap, updateAuthority, updateAuthorityIsSigner);
  }
}
