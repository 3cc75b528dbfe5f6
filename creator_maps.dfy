/** The creator `HashMap`s of `assert_data_valid`: a map keyed by address,
    built by `collect` from the creator list, and the (unspecified) order in
    which a `for` loop visits its keys. */
module CreatorMaps {
  import opened Types

  /** The addresses of a creator list, in list order. */
  function Addresses(cs: seq<Creator>): seq<Pubkey>
  {
    seq(|cs|, i requires 0 <= i < |cs| => cs[i].address)
  }

  predicate DistinctAddresses(cs: seq<Creator>)
  {
    forall i, j :: 0 <= i < j < |cs| ==> cs[i].address != cs[j].address
  }

  /** The map `collect` builds from the pairs `(address, creator)`: entries
      are inserted left to right, so for a repeated address the later
      creator wins. */
  function CreatorMap(cs: seq<Creator>): map<Pubkey, Creator>
  {
    if cs == [] then map[] else CreatorMap(cs[..|cs| - 1])[cs[|cs| - 1].address := cs[|cs| - 1]]
  }

  /** Each entry is stored under its own address. */
  predicate KeyedByAddress(m: map<Pubkey, Creator>)
  {
    forall k :: k in m ==> m[k].address == k
  }

  lemma {:induction false} CreatorMapKeyedByAddress(cs: seq<Creator>)
    ensures KeyedByAddress(CreatorMap(cs))
  {
    if cs != [] {
      CreatorMapKeyedByAddress(cs[..|cs| - 1]);
    }
  }

  predicate NoRepeats(s: seq<Pubkey>)
  {
    forall i, j :: 0 <= i < j < |s| ==> s[i] != s[j]
  }

  /** An iteration order over a map's keys: each key exactly once. */
  predicate IsEnumeration(order: seq<Pubkey>, keys: set<Pubkey>)
  {
    && NoRepeats(order)
    && (forall k :: k in order ==> k in keys)
    && (forall k :: k in keys ==> k in order)
  }

  /** The keys of the map are exactly the addresses of the list. */
  lemma {:induction false} CreatorMapKeys(cs: seq<Creator>)
    ensures forall a :: a in CreatorMap(cs) <==> a in Addresses(cs)
  {
    if cs != [] {
      var p := cs[..|cs| - 1];
      CreatorMapKeys(p);
      assert Addresses(cs) == Addresses(p) + [cs[|cs| - 1].address];
    }
  }

  /** The entry for an address is the last creator in the list with that
      address. */
  lemma {:induction false} CreatorMapLastWins(cs: seq<Creator>, i: nat)
    requires i < |cs|
    requires forall j :: i < j < |cs| ==> cs[j].address != cs[i].address
    ensures cs[i].address in CreatorMap(cs) && CreatorMap(cs)[cs[i].address] == cs[i]
  {
    var p := cs[..|cs| - 1];
    if i < |cs| - 1 {
      CreatorMapLastWins(p, i);
    }
  }

  /** Without repeated addresses every creator is its own entry. */
  lemma CreatorMapOfDistinct(cs: seq<Creator>)
    requires DistinctAddresses(cs)
    ensures forall i :: 0 <= i < |cs| ==> cs[i].address in CreatorMap(cs) && CreatorMap(cs)[cs[i].address] == cs[i]
  {
    forall i | 0 <= i < |cs|
      ensures cs[i].address in CreatorMap(cs) && CreatorMap(cs)[cs[i].address] == cs[i]
    {
      CreatorMapLastWins(cs, i);
    }
  }

  /** A last creator whose address already occurs earlier is a repeat. */
  lemma RepeatedLast(cs: seq<Creator>)
    requires |cs| > 0 && cs[|cs| - 1].address in Addresses(cs[..|cs| - 1])
    ensures !DistinctAddresses(cs)
  {
    var p := cs[..|cs| - 1];
    var j :| 0 <= j < |p| && Addresses(p)[j] == cs[|cs| - 1].address;
    assert cs[j].address == cs[|cs| - 1].address;
  }

  /** Appending a creator with a new address keeps the addresses distinct,
      and a list with distinct addresses has a prefix with distinct
      addresses. */
  lemma DistinctSnoc(cs: seq<Creator>)
    requires |cs| > 0 && cs[|cs| - 1].address !in Addresses(cs[..|cs| - 1])
    ensures DistinctAddresses(cs) <==> DistinctAddresses(cs[..|cs| - 1])
  {
    var n := |cs|;
    var p := cs[..n - 1];
    if DistinctAddresses(p) {
      forall i, j | 0 <= i < j < n
        ensures cs[i].address != cs[j].address
      {
        if j == n - 1 {
          assert Addresses(p)[i] == cs[i].address;
        } else {
          assert p[i] == cs[i] && p[j] == cs[j];
        }
      }
    }
    if DistinctAddresses(cs) {
      forall i, j | 0 <= i < j < n - 1
        ensures p[i].address != p[j].address
      {
        assert p[i] == cs[i] && p[j] == cs[j];
      }
    }
  }

  /** The duplicate check `map.len() != creators.len()` fires exactly when
      two creators share an address. */
  lemma {:induction false} CreatorMapSize(cs: seq<Creator>)
    ensures |CreatorMap(cs)| <= |cs|
    ensures |CreatorMap(cs)| == |cs| <==> DistinctAddresses(cs)
  {
    if cs != [] {
      var p := cs[..|cs| - 1];
      var c := cs[|cs| - 1];
      CreatorMapSize(p);
      CreatorMapKeys(p);
      assert CreatorMap(cs) == CreatorMap(p)[c.address := c];
      if c.address in CreatorMap(p) {
        RepeatedLast(cs);
      } else {
        DistinctSnoc(cs);
      }
    }
  }

  /** The creators' addresses, in list order, enumerate the map's keys. */
  lemma AddressesEnumerate(cs: seq<Creator>)
    requires DistinctAddresses(cs)
    ensures IsEnumeration(Addresses(cs), CreatorMap(cs).Keys)
  {
    CreatorMapKeys(cs);
  }

  /** The distinct keys of `s`, each at its first occurrence. */
  function Dedup(s: seq<Pubkey>): seq<Pubkey>
  {
    if s == [] then []
    else
      var p := Dedup(s[..|s| - 1]);
      if s[|s| - 1] in p then p else p + [s[|s| - 1]]
  }

  lemma {:induction false} DedupEnumerates(s: seq<Pubkey>)
    ensures NoRepeats(Dedup(s))
    ensures forall k :: k in Dedup(s) <==> k in s
  {
    if s != [] {
      var pre := s[..|s| - 1];
      DedupEnumerates(pre);
      assert s == pre + [s[|s| - 1]];
    }
  }

  /** Every creator list, repeated addresses included, has an iteration
      order over its map: its addresses without repeats. */
  lemma CreatorMapOrder(cs: seq<Creator>)
    ensures IsEnumeration(Dedup(Addresses(cs)), CreatorMap(cs).Keys)
  {
    DedupEnumerates(Addresses(cs));
    CreatorMapKeys(cs);
  }

  /** Sum of the shares of a creator list. */
  function SumShares(cs: seq<Creator>): nat
  {
    if cs == [] then 0 else cs[0].share + SumShares(cs[1..])
  }

  /** Sum of the shares of the entries visited in `order`. */
  function SumOver(order: seq<Pubkey>, m: map<Pubkey, Creator>): nat
    requires forall k :: k in order ==> k in m
  {
    if order == [] then 0 else m[order[0]].share + SumOver(order[1..], m)
  }

  lemma {:induction false} SumOverAppend(s: seq<Pubkey>, t: seq<Pubkey>, m: map<Pubkey, Creator>)
    requires forall k :: k in s + t ==> k in m
    ensures SumOver(s + t, m) == SumOver(s, m) + SumOver(t, m)
  {
    if s != [] {
      assert (s + t)[1..] == s[1..] + t;
      SumOverAppend(s[1..], t, m);
    } else {
      assert s + t == t;
    }
  }

  /** Removing position `j` from a sequence without repeats removes
      exactly the key at `j`. */
  lemma RemoveAtMembers(t: seq<Pubkey>, j: nat)
    requires j < |t| && NoRepeats(t)
    ensures forall k :: k in t[..j] + t[j + 1..] <==> k in t && k != t[j]
  {
    var t' := t[..j] + t[j + 1..];
    forall k | k in t
      ensures k in t' <==> k != t[j]
    {
      var b :| 0 <= b < |t| && t[b] == k;
      if b < j {
        assert t'[b] == k;
      } else if b > j {
        assert t'[b - 1] == k;
      }
    }
    forall k | k in t'
      ensures k in t
    {
      var b :| 0 <= b < |t'| && t'[b] == k;
      var b0 := if b < j then b else b + 1;
      assert t[b0] == k;
    }
  }

  lemma RemoveAtNoRepeats(t: seq<Pubkey>, j: nat)
    requires j < |t| && NoRepeats(t)
    ensures NoRepeats(t[..j] + t[j + 1..])
  {
    var t' := t[..j] + t[j + 1..];
    forall a, b | 0 <= a < b < |t'|
      ensures t'[a] != t'[b]
    {
      var a0 := if a < j then a else a + 1;
      var b0 := if b < j then b else b + 1;
      assert t'[a] == t[a0] && t'[b] == t[b0];
    }
  }

  /** Removing position `j` takes the share at `j` out of the sum. */
  lemma RemoveAtSum(t: seq<Pubkey>, j: nat, m: map<Pubkey, Creator>)
    requires j < |t|
    requires forall k :: k in t ==> k in m
    ensures forall k :: k in t[..j] + t[j + 1..] ==> k in m
    ensures SumOver(t, m) == m[t[j]].share + SumOver(t[..j] + t[j + 1..], m)
  {
    var x := t[j];
    assert t == t[..j] + [x] + t[j + 1..];
    assert forall k :: k in t[..j] ==> k in t;
    assert forall k :: k in t[j + 1..] ==> k in t;
    SumOverAppend(t[..j] + [x], t[j + 1..], m);
    SumOverAppend(t[..j], [x], m);
    SumOverAppend(t[..j], t[j + 1..], m);
    assert SumOver([x], m) == m[x].share;
  }

  /** Removing position `j` from a sequence without repeats removes exactly
      the key at `j` and takes its share out of the sum. */
  lemma RemoveAt(t: seq<Pubkey>, j: nat, m: map<Pubkey, Creator>)
    requires j < |t| && NoRepeats(t)
    requires forall k :: k in t ==> k in m
    ensures var t' := t[..j] + t[j + 1..];
      && NoRepeats(t')
      && (forall k :: k in t' <==> k in t && k != t[j])
      && SumOver(t, m) == m[t[j]].share + SumOver(t', m)
  {
    RemoveAtMembers(t, j);
    RemoveAtNoRepeats(t, j);
    RemoveAtSum(t, j, m);
  }

  /** Two iteration orders over the same keys give the same share sum. */
  lemma {:induction false} SumOverPermutation(s: seq<Pubkey>, t: seq<Pubkey>, m: map<Pubkey, Creator>)
    requires forall k :: k in s ==> k in m
    requires NoRepeats(s) && NoRepeats(t)
    requires forall k :: k in s ==> k in t
    requires forall k :: k in t ==> k in s
    ensures SumOver(s, m) == SumOver(t, m)
    decreases |s|
  {
    if s == [] {
      assert forall k :: k !in t;
    } else {
      var x := s[0];
      assert x in s;
      var j :| 0 <= j < |t| && t[j] == x;
      var t' := t[..j] + t[j + 1..];
      RemoveAt(t, j, m);
      RemoveAt(s, 0, m);
      assert s[..0] + s[1..] == s[1..];
      SumOverPermutation(s[1..], t', m);
    }
  }

  /** Visiting `cs`'s own entries, in list order, sums `cs`'s shares. */
  lemma {:induction false} SumOverEntries(order: seq<Pubkey>, m: map<Pubkey, Creator>, cs: seq<Creator>)
    requires |order| == |cs|
    requires forall i :: 0 <= i < |cs| ==> order[i] in m && m[order[i]] == cs[i]
    ensures forall k :: k in order ==> k in m
    ensures SumOver(order, m) == SumShares(cs)
  {
    if cs != [] {
      SumOverEntries(order[1..], m, cs[1..]);
    }
  }

  /** Any iteration order over the map of a list without repeated addresses
      visits shares summing to the list's share sum. */
  lemma CreatorMapSumShares(cs: seq<Creator>, order: seq<Pubkey>)
    requires DistinctAddresses(cs)
    requires IsEnumeration(order, CreatorMap(cs).Keys)
    ensures forall k :: k in order ==> k in CreatorMap(cs)
    ensures SumOver(order, CreatorMap(cs)) == SumShares(cs)
  {
    var m := CreatorMap(cs);
    var addrs := Addresses(cs);
    CreatorMapKeys(cs);
    CreatorMapOfDistinct(cs);
    SumOverEntries(addrs, m, cs);
    SumOverPermutation(order, addrs, m);
  }
}
