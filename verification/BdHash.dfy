/**
 The set of values a BitDHT node stores under one id: a multimap from keys to
 entries, with rules about who may change what.  Keys are modelled by numbers
 that order as the strings do; the set keeps its entries in key order, equal
 keys in order of insertion.
 */
module BdHash {

  type Key = nat

  datatype Entry = Entry(value: string, storeTS: int, secret: string, lifetime: int) {
    function KillTime(): int { lifetime + storeTS }
  }

  datatype Flag = Add | Delete | OtherFlag

  type Entries = seq<(Key, Entry)>

  predicate Sorted(es: Entries) { forall i, j :: 0 <= i < j < |es| ==> es[i].0 <= es[j].0 }

  function LowerBound(es: Entries, key: Key): (i: nat)
    ensures i <= |es|
    ensures forall j :: 0 <= j < i ==> es[j].0 < key
    ensures i < |es| ==> es[i].0 >= key
  {
    if es == [] || es[0].0 >= key then 0 else 1 + LowerBound(es[1..], key)
  }

  function UpperBound(es: Entries, key: Key): (i: nat)
    ensures i <= |es|
    ensures forall j :: 0 <= j < i ==> es[j].0 <= key
    ensures i < |es| ==> es[i].0 > key
  {
    if es == [] || es[0].0 > key then 0 else 1 + UpperBound(es[1..], key)
  }

  // ------------------------------------------------------------ modify, declaratively

  predicate Same(x: (Key, Entry), key: Key, e: Entry) {
    x.0 == key && x.1.value == e.value && x.1.secret == e.secret
  }

  /** An ADD renews what it matches, a secret-less entry only if that makes it live longer. */
  predicate Renews(x: (Key, Entry), key: Key, e: Entry, now: int) {
    Same(x, key, e) && (e.secret == "" ==> e.lifetime + now > x.1.KillTime())
  }

  function Renewed(x: (Key, Entry), key: Key, e: Entry, now: int): (Key, Entry) {
    if Renews(x, key, e, now) then (x.0, x.1.(storeTS := now, lifetime := e.lifetime)) else x
  }

  function AllRenewed(es: Entries, key: Key, e: Entry, now: int): Entries {
    seq(|es|, i requires 0 <= i < |es| => Renewed(es[i], key, e, now))
  }

  function Inserted(es: Entries, key: Key, e: Entry, now: int): Entries {
    var i := UpperBound(es, key);
    es[..i] + [(key, e.(storeTS := now))] + es[i..]
  }

  predicate AnyRenewed(es: Entries, key: Key, e: Entry, now: int) {
    exists i :: 0 <= i < |es| && Renews(es[i], key, e, now)
  }

  function Added(es: Entries, key: Key, e: Entry, now: int): Entries {
    if AnyRenewed(es, key, e, now) then AllRenewed(es, key, e, now)
    else Inserted(es, key, e, now)
  }

  predicate Deletes(x: (Key, Entry), key: Key, e: Entry) { e.secret != "" && Same(x, key, e) }

  /** The entries without the first one that the DELETE matches. */
  function Deleted(es: Entries, key: Key, e: Entry): Entries {
    if es == [] then []
    else if Deletes(es[0], key, e) then es[1..]
    else [es[0]] + Deleted(es[1..], key, e)
  }

  function Modified(es: Entries, key: Key, e: Entry, flag: Flag, now: int): Entries {
    match flag
    case Add => Added(es, key, e, now)
    case Delete => Deleted(es, key, e)
    case OtherFlag => es
  }

  predicate Changes(es: Entries, key: Key, e: Entry, flag: Flag) {
    flag == Add || (flag == Delete && exists j :: 0 <= j < |es| && Deletes(es[j], key, e))
  }

  // ------------------------------------------------------------ the object

  lemma {:induction false} DeletedAt(es: Entries, key: Key, e: Entry, i: nat)
    requires i < |es| && Deletes(es[i], key, e)
    requires forall j :: 0 <= j < i ==> !Deletes(es[j], key, e)
    ensures Deleted(es, key, e) == es[..i] + es[i + 1..]
  {
    if i > 0 {
      DeletedAt(es[1..], key, e, i - 1);
      assert es[..i] == [es[0]] + es[1..][..i - 1];
    }
  }

  lemma {:induction false} DeletedNothing(es: Entries, key: Key, e: Entry)
    requires forall j :: 0 <= j < |es| ==> !Deletes(es[j], key, e)
    ensures Deleted(es, key, e) == es
  {
    if es != [] {
      DeletedNothing(es[1..], key, e);
    }
  }

  const INT32: int := 0x8000_0000

  /** (int32_t) of a uint32_t. */
  function ToInt32(n: nat): int { if n % (2 * INT32) < INT32 then n % (2 * INT32) else n % (2 * INT32) - 2 * INT32 }

  predicate Stale(x: (Key, Entry), maxAge: nat, now: int) {
    now - x.1.storeTS > ToInt32(maxAge) || now - x.1.storeTS > x.1.lifetime
  }

  function Live(es: Entries, maxAge: nat, now: int): Entries {
    if es == [] then []
    else Live(es[..|es| - 1], maxAge, now) + if Stale(es[|es| - 1], maxAge, now) then [] else [es[|es| - 1]]
  }

  predicate Found(x: (Key, Entry), key: Key, maxAge: nat, now: int) {
    x.0 == key && now - x.1.storeTS < ToInt32(maxAge)
  }

  /** The young entries under the key, in order. */
  function Matches(es: Entries, key: Key, maxAge: nat, now: int): seq<Entry> {
    if es == [] then []
    else
      Matches(es[..|es| - 1], key, maxAge, now) +
      if Found(es[|es| - 1], key, maxAge, now) then [es[|es| - 1].1] else []
  }

  lemma {:induction false} NoMatchBelow(es: Entries, key: Key, maxAge: nat, now: int, i: nat)
    requires i <= |es| && forall m :: 0 <= m < i ==> es[m].0 < key
    ensures Matches(es[..i], key, maxAge, now) == []
  {
    if i > 0 {
      NoMatchBelow(es, key, maxAge, now, i - 1);
      assert es[..i][..i - 1] == es[..i - 1];
    }
  }

  lemma {:induction false} NoMatchAbove(es: Entries, key: Key, maxAge: nat, now: int, i: nat, j: nat)
    requires i <= j <= |es| && forall m :: i <= m < j ==> es[m].0 > key
    ensures Matches(es[..j], key, maxAge, now) == Matches(es[..i], key, maxAge, now)
    decreases j
  {
    if i < j {
      NoMatchAbove(es, key, maxAge, now, i, j - 1);
      assert es[..j][..j - 1] == es[..j - 1];
    }
  }

  /** All that matters is between the bounds. */
  lemma MatchesInRange(es: Entries, key: Key, maxAge: nat, now: int)
    requires Sorted(es)
    ensures var lo, hi := LowerBound(es, key), UpperBound(es, key);
            && lo <= hi <= |es| && (forall j :: lo <= j < hi ==> es[j].0 == key)
            && Matches(es[..lo], key, maxAge, now) == []
            && Matches(es[..hi], key, maxAge, now) == Matches(es, key, maxAge, now)
  {
    RangeIsOrdered(es, key);
    NoMatchBelow(es, key, maxAge, now, LowerBound(es, key));
    NoMatchAbove(es, key, maxAge, now, UpperBound(es, key), |es|);
    assert es[..|es|] == es;
  }

  lemma MatchesNext(es: Entries, key: Key, maxAge: nat, now: int, i: nat, given: seq<Entry>,
                    oldest: int)
    requires i < |es| && es[i].0 == key && oldest == ToInt32(maxAge)
    ensures given + Matches(es[..i + 1], key, maxAge, now) ==
            if now - es[i].1.storeTS < oldest then given + Matches(es[..i], key, maxAge, now) + [es[i].1]
            else given + Matches(es[..i], key, maxAge, now)
  {
    assert es[..i + 1][..i] == es[..i];
  }

  /** The first i entries renewed. */
  function RenewedTo(es: Entries, i: nat, key: Key, e: Entry, now: int): Entries {
    seq(|es|, j requires 0 <= j < |es| => if j < i then Renewed(es[j], key, e, now) else es[j])
  }

  lemma RenewNext(es: Entries, i: nat, key: Key, e: Entry, now: int)
    requires i < |es|
    ensures RenewedTo(es, i, key, e, now)[i] == es[i]
    ensures RenewedTo(es, i + 1, key, e, now) == RenewedTo(es, i, key, e, now)[i := Renewed(es[i], key, e, now)]
  {
  }

  lemma RenewedOutside(es: Entries, lo: nat, hi: nat, key: Key, e: Entry, now: int)
    requires lo <= hi <= |es|
    requires forall j :: 0 <= j < |es| && (j < lo || hi <= j) ==> es[j].0 != key
    ensures RenewedTo(es, lo, key, e, now) == es
    ensures RenewedTo(es, hi, key, e, now) == AllRenewed(es, key, e, now)
  {
  }

  class HashSet {
    var entries: Entries

    constructor ()
      ensures entries == []
    {
      entries := [];
    }

    /** Appends the young entries under the key to the list it is given. */
    method Search(key: Key, maxAge: nat, given: seq<Entry>, now: int) returns (found: seq<Entry>, ok: bool)
      requires Sorted(entries)
      ensures found == given + Matches(entries, key, maxAge, now)
      ensures ok == (found != [])
    {
      var lo, hi := LowerBound(entries, key), UpperBound(entries, key);
      found := given;
      MatchesInRange(entries, key, maxAge, now);
      var i, oldest := lo, ToInt32(maxAge);
      while i < hi
        invariant lo <= i <= hi <= |entries|
        invariant found == given + Matches(entries[..i], key, maxAge, now)
      {
        MatchesNext(entries, key, maxAge, now, i, given, oldest);
        if now - entries[i].1.storeTS < oldest {
          found := found + [entries[i].1];
        }
        i := i + 1;
      }
      ok := 0 < |found|;
    }

    /** The checks modify makes on one entry under the key. */
    method Visit(x: (Key, Entry), key: Key, e: Entry, flag: Flag, now: int) returns (update: bool, erase: bool)
      requires x.0 == key
      ensures update == (flag == Add && Renews(x, key, e, now))
      ensures erase == (flag == Delete && Deletes(x, key, e))
    {
      update, erase := false, false;
      if x.1.value == e.value {
        var noSecret := x.1.secret == "";
        var sameSecret := x.1.secret == e.secret;
        if noSecret && sameSecret {
          if flag == Add {
            var existKillTime := x.1.lifetime + x.1.storeTS;
            var newKillTime := e.lifetime + now;
            if newKillTime > existKillTime {
              update := true;
            }
          }
        } else if sameSecret {
          if flag == Add {
            update := true;
          } else if flag == Delete {
            erase := true;
          }
        }
      }
    }

    /** The loop of modify over the entries under the key. */
    method ModifyRange(lo: nat, hi: nat, key: Key, e: Entry, flag: Flag, now: int) returns (updated: bool, erased: bool)
      requires lo <= hi <= |entries|
      requires forall j :: 0 <= j < |entries| ==> (lo <= j < hi <==> entries[j].0 == key)
      modifies this
      ensures erased ==> flag == Delete && Changes(old(entries), key, e, flag)
                         && entries == Deleted(old(entries), key, e)
      ensures !erased && updated ==> flag == Add && AnyRenewed(old(entries), key, e, now)
                                     && entries == AllRenewed(old(entries), key, e, now)
      ensures !erased && !updated ==> entries == old(entries)
                                      && (flag == Add ==> !AnyRenewed(old(entries), key, e, now))
                                      && (flag == Delete ==> !Changes(old(entries), key, e, flag))
    {
      ghost var es := entries;
      RenewedOutside(es, lo, hi, key, e, now);
      updated, erased := false, false;
      var i := lo;
      while i < hi
        invariant lo <= i <= hi && |entries| == |es|
        invariant entries == if flag == Add then RenewedTo(es, i, key, e, now) else es
        invariant updated ==> flag == Add && AnyRenewed(es, key, e, now)
        invariant flag == Add && !updated ==> entries == es && forall j :: lo <= j < i ==> !Renews(es[j], key, e, now)
        invariant flag == Delete ==> forall j :: lo <= j < i ==> !Deletes(es[j], key, e)
      {
        RenewNext(es, i, key, e, now);
        assert entries[i] == es[i];
        var update, erase := Visit(entries[i], key, e, flag, now);
        if erase {
          DeletedAt(es, key, e, i);
          entries := entries[..i] + entries[i + 1..];
          return false, true;
        }
        if update {
          entries := entries[i := (entries[i].0, entries[i].1.(storeTS := now, lifetime := e.lifetime))];
          updated := true;
        }
        i := i + 1;
      }
    }

    method Modify(key: Key, e: Entry, flag: Flag, now: int) returns (changed: bool)
      requires Sorted(entries)
      modifies this
      ensures entries == Modified(old(entries), key, e, flag, now)
      ensures changed == Changes(old(entries), key, e, flag)
    {
      var lo, hi := LowerBound(entries, key), UpperBound(entries, key);
      RangeIsOrdered(entries, key);
      var updated, erased := ModifyRange(lo, hi, key, e, flag, now);
      if erased {
        return true;
      }
      if !updated && flag == Add {
        entries := entries[..hi] + [(key, Entry(e.value, now, e.secret, e.lifetime))] + entries[hi..];
        updated := true;
      } else if flag == Delete {
        DeletedNothing(entries, key, e);
      }
      return updated;
    }

    /** Starts again from the beginning after each removal. */
    method Cleanup(maxAge: nat, now: int)
      modifies this
      ensures entries == Live(old(entries), maxAge, now)
    {
      var i := 0;
      assert entries[..0] == [];
      while i < |entries|
        invariant 0 <= i <= |entries|
        invariant Live(entries, maxAge, now) == Live(old(entries), maxAge, now)
        invariant forall j :: 0 <= j < i ==> !Stale(entries[j], maxAge, now)
        decreases |entries|, |entries| - i
      {
        if Stale(entries[i], maxAge, now) {
          LiveWithout(entries, maxAge, now, i);
          entries := entries[..i] + entries[i + 1..];
          i := 0;
        } else {
          i := i + 1;
        }
      }
      LiveIsAll(entries, maxAge, now);
    }
  }

  /** One set of entries per id. */
  class HashSpace {
    var table: map<nat, Entries>

    ghost predicate Valid()
      reads this
    {
      forall id :: id in table ==> Sorted(table[id]) && SecretsUnique(table[id])
    }

    method Modify(id: nat, key: Key, e: Entry, flag: Flag, now: int) returns (changed: bool)
      requires Valid()
      modifies this
      ensures Valid()
      ensures id !in old(table) && flag == Delete ==> table == old(table) && changed
      ensures id in old(table) || flag != Delete ==>
                var es := if id in old(table) then old(table)[id] else [];
                table == old(table)[id := Modified(es, key, e, flag, now)] && changed == Changes(es, key, e, flag)
    {
      if id !in table {
        if flag == Delete {
          return true;
        }
        table := table[id := []];
      }
      var entries := new HashSet();
      entries.entries := table[id];
      AddedKeepsUnique(table[id], key, e, now);
      DeletedKeepsUnique(table[id], key, e);
      changed := entries.Modify(key, e, flag, now);
      table := table[id := entries.entries];
    }
  }

  lemma RangeIsOrdered(es: Entries, key: Key)
    requires Sorted(es)
    ensures LowerBound(es, key) <= UpperBound(es, key)
    ensures forall j :: 0 <= j < LowerBound(es, key) ==> es[j].0 < key
    ensures forall j :: UpperBound(es, key) <= j < |es| ==> es[j].0 > key
    ensures forall j :: LowerBound(es, key) <= j < UpperBound(es, key) ==> es[j].0 == key
  {
  }

  lemma {:induction false} LiveAppend(a: Entries, b: Entries, maxAge: nat, now: int)
    ensures Live(a + b, maxAge, now) == Live(a, maxAge, now) + Live(b, maxAge, now)
  {
    if b == [] {
      assert a + b == a;
    } else {
      LiveAppend(a, b[..|b| - 1], maxAge, now);
      assert (a + b)[..|a + b| - 1] == a + b[..|b| - 1];
    }
  }

  lemma LiveWithout(es: Entries, maxAge: nat, now: int, i: nat)
    requires i < |es| && Stale(es[i], maxAge, now)
    ensures Live(es[..i] + es[i + 1..], maxAge, now) == Live(es, maxAge, now)
  {
    var one: Entries := [es[i]];
    assert es == es[..i] + (one + es[i + 1..]) && one[..0] == [];
    LiveAppend(es[..i], one + es[i + 1..], maxAge, now);
    LiveAppend(one, es[i + 1..], maxAge, now);
    LiveAppend(es[..i], es[i + 1..], maxAge, now);
  }

  lemma {:induction false} LiveIsAll(es: Entries, maxAge: nat, now: int)
    requires forall j :: 0 <= j < |es| ==> !Stale(es[j], maxAge, now)
    ensures Live(es, maxAge, now) == es
  {
    if es != [] {
      LiveIsAll(es[..|es| - 1], maxAge, now);
    }
  }

  // ------------------------------------------------------------ what the rules protect

  /** No two entries share key, value and a secret that is not empty. */
  ghost predicate SecretsUnique(es: Entries) {
    forall i, j :: 0 <= i < j < |es| && es[i].1.secret != "" ==> !Same(es[i], es[j].0, es[j].1)
  }

  lemma AddedKeepsUnique(es: Entries, key: Key, e: Entry, now: int)
    requires Sorted(es) && SecretsUnique(es)
    ensures Sorted(Added(es, key, e, now)) && SecretsUnique(Added(es, key, e, now))
  {
    if AnyRenewed(es, key, e, now) {
      RenewedKeepsUnique(es, key, e, now);
    } else {
      InsertedIsSorted(es, key, e, now);
      InsertedIsUnique(es, key, e, now);
    }
  }

  lemma RenewedKeepsUnique(es: Entries, key: Key, e: Entry, now: int)
    requires Sorted(es) && SecretsUnique(es)
    ensures Sorted(AllRenewed(es, key, e, now)) && SecretsUnique(AllRenewed(es, key, e, now))
  {
    var es' := AllRenewed(es, key, e, now);
    forall i, j | 0 <= i < j < |es'|
      ensures es'[i].0 <= es'[j].0 && (es'[i].1.secret != "" ==> !Same(es'[i], es'[j].0, es'[j].1))
    {
      assert es'[i] == Renewed(es[i], key, e, now) && es'[j] == Renewed(es[j], key, e, now);
    }
  }

  lemma InsertedIsSorted(es: Entries, key: Key, e: Entry, now: int)
    requires Sorted(es)
    ensures Sorted(Inserted(es, key, e, now))
  {
    var n := UpperBound(es, key);
    var es' := Inserted(es, key, e, now);
    RangeIsOrdered(es, key);
    forall i, j | 0 <= i < j < |es'|
      ensures es'[i].0 <= es'[j].0
    {
      assert es'[i].0 == if i < n then es[i].0 else if i == n then key else es[i - 1].0;
      assert es'[j].0 == if j < n then es[j].0 else if j == n then key else es[j - 1].0;
    }
  }

  lemma InsertedIsUnique(es: Entries, key: Key, e: Entry, now: int)
    requires SecretsUnique(es)
    requires forall i :: 0 <= i < |es| ==> !Renews(es[i], key, e, now)
    ensures SecretsUnique(Inserted(es, key, e, now))
  {
    var n := UpperBound(es, key);
    var es' := Inserted(es, key, e, now);
    var new' := (key, e.(storeTS := now));
    forall i, j | 0 <= i < j < |es'| && es'[i].1.secret != ""
      ensures !Same(es'[i], es'[j].0, es'[j].1)
    {
      assert es'[i] == if i < n then es[i] else if i == n then new' else es[i - 1];
      assert es'[j] == if j < n then es[j] else if j == n then new' else es[j - 1];
      if i == n {
        assert !Renews(es[j - 1], key, e, now);
      } else if j == n {
        assert !Renews(es[i], key, e, now);
      }
    }
  }

  lemma WithoutOne(es: Entries, k: nat, key: Key, e: Entry)
    requires k < |es| && Same(es[k], key, e)
    requires forall j :: 0 <= j < |es| && j != k ==> !Same(es[j], key, e)
    ensures forall x :: x in es[..k] + es[k + 1..] <==> x in es && !Same(x, key, e)
  {
    var es' := es[..k] + es[k + 1..];
    forall x | x in es && !Same(x, key, e)
      ensures x in es'
    {
      var j :| 0 <= j < |es| && es[j] == x;
      assert x == if j < k then es'[j] else es'[j - 1];
    }
    forall x | x in es'
      ensures x in es && !Same(x, key, e)
    {
      var j :| 0 <= j < |es'| && es'[j] == x;
      assert x == es[if j < k then j else j + 1];
    }
  }

  lemma OnlyFirst(es: Entries, key: Key, e: Entry)
    requires SecretsUnique(es) && exists i :: 0 <= i < |es| && Deletes(es[i], key, e)
    ensures var k := First(es, key, e);
            && k < |es| && Deletes(es[k], key, e)
            && Deleted(es, key, e) == es[..k] + es[k + 1..]
            && forall j :: 0 <= j < |es| && j != k ==> !Same(es[j], key, e)
  {
    FirstDeleted(es, key, e);
    var k := First(es, key, e);
    DeletedAt(es, key, e, k);
    forall j | 0 <= j < |es| && j != k
      ensures !Same(es[j], key, e)
    {
      if j < k {
        assert !Deletes(es[j], key, e);
      } else {
        assert !Same(es[k], es[j].0, es[j].1);
      }
    }
  }

  /** A secret entry is deleted entirely by the DELETE that matches it, and nothing
      else goes. */
  lemma DeleteIsExact(es: Entries, key: Key, e: Entry)
    requires SecretsUnique(es) && e.secret != ""
    ensures var es' := Deleted(es, key, e);
            && (forall x :: x in es' <==> x in es && !Same(x, key, e))
            && multiset(es') <= multiset(es)
            && |es| - 1 <= |es'| <= |es|
            && (|es'| == |es| <==> forall x :: x in es ==> !Same(x, key, e))
  {
    if exists i :: 0 <= i < |es| && Deletes(es[i], key, e) {
      OnlyFirst(es, key, e);
      var k := First(es, key, e);
      WithoutOne(es, k, key, e);
      assert es == es[..k] + [es[k]] + es[k + 1..];
      assert es[k] in es;
    } else {
      DeletedNothing(es, key, e);
    }
  }

  function First(es: Entries, key: Key, e: Entry): nat {
    if es == [] || Deletes(es[0], key, e) then 0 else 1 + First(es[1..], key, e)
  }

  lemma {:induction false} FirstDeleted(es: Entries, key: Key, e: Entry)
    requires exists i :: 0 <= i < |es| && Deletes(es[i], key, e)
    ensures var k := First(es, key, e);
            k < |es| && Deletes(es[k], key, e) && forall j :: 0 <= j < k ==> !Deletes(es[j], key, e)
  {
    if !Deletes(es[0], key, e) {
      var i :| 0 <= i < |es| && Deletes(es[i], key, e);
      assert Deletes(es[1..][i - 1], key, e);
      FirstDeleted(es[1..], key, e);
    }
  }

  lemma WithoutOneKeepsUnique(es: Entries, n: nat)
    requires n < |es| && Sorted(es) && SecretsUnique(es)
    ensures Sorted(es[..n] + es[n + 1..]) && SecretsUnique(es[..n] + es[n + 1..])
  {
    var es' := es[..n] + es[n + 1..];
    forall i, j | 0 <= i < j < |es'|
      ensures es'[i].0 <= es'[j].0 && (es'[i].1.secret != "" ==> !Same(es'[i], es'[j].0, es'[j].1))
    {
      assert es'[i] == es[if i < n then i else i + 1] && es'[j] == es[if j < n then j else j + 1];
    }
  }

  lemma DeletedKeepsUnique(es: Entries, key: Key, e: Entry)
    requires Sorted(es) && SecretsUnique(es)
    ensures Sorted(Deleted(es, key, e)) && SecretsUnique(Deleted(es, key, e))
  {
    if exists i :: 0 <= i < |es| && Deletes(es[i], key, e) {
      FirstDeleted(es, key, e);
      DeletedAt(es, key, e, First(es, key, e));
      WithoutOneKeepsUnique(es, First(es, key, e));
    } else {
      DeletedNothing(es, key, e);
    }
  }

  // ------------------------------------------------------------ open entries

  predicate OpenUntil(x: (Key, Entry), key: Key, value: string, time: int) {
    x.0 == key && x.1.value == value && x.1.secret == "" && x.1.KillTime() >= time
  }

  /** How many secret-less entries for key and value live until the given time. */
  function Opens(es: Entries, key: Key, value: string, time: int): nat {
    if es == [] then 0
    else Opens(es[..|es| - 1], key, value, time) + if OpenUntil(es[|es| - 1], key, value, time) then 1 else 0
  }

  lemma {:induction false} OpensAppend(a: Entries, b: Entries, key: Key, value: string, time: int)
    ensures Opens(a + b, key, value, time) == Opens(a, key, value, time) + Opens(b, key, value, time)
  {
    if b == [] {
      assert a + b == a;
    } else {
      OpensAppend(a, b[..|b| - 1], key, value, time);
      assert (a + b)[..|a + b| - 1] == a + b[..|b| - 1];
    }
  }

  lemma {:induction false} RenewingKeepsOpens(es: Entries, k: Key, e: Entry, now: int,
                                              key: Key, value: string, time: int)
    ensures Opens(es, key, value, time) <= Opens(AllRenewed(es, k, e, now), key, value, time)
  {
    if es != [] {
      RenewingKeepsOpens(es[..|es| - 1], k, e, now, key, value, time);
      assert AllRenewed(es, k, e, now)[..|es| - 1] == AllRenewed(es[..|es| - 1], k, e, now);
    }
  }

  lemma {:induction false} DeletingKeepsOpens(es: Entries, k: Key, e: Entry, key: Key, value: string, time: int)
    ensures Opens(es, key, value, time) == Opens(Deleted(es, k, e), key, value, time)
  {
    if exists i :: 0 <= i < |es| && Deletes(es[i], k, e) {
      FirstDeleted(es, k, e);
      var n := First(es, k, e);
      DeletedAt(es, k, e, n);
      var one: Entries := [es[n]];
      assert es == es[..n] + (one + es[n + 1..]) && one[..0] == [];
      OpensAppend(es[..n], one + es[n + 1..], key, value, time);
      OpensAppend(one, es[n + 1..], key, value, time);
      OpensAppend(es[..n], es[n + 1..], key, value, time);
    } else {
      DeletedNothing(es, k, e);
    }
  }

  lemma ModifyKeepsOpens(es: Entries, k: Key, e: Entry, flag: Flag, now: int, key: Key, value: string, time: int)
    ensures Opens(es, key, value, time) <= Opens(Modified(es, k, e, flag, now), key, value, time)
  {
    match flag
    case Add =>
      RenewingKeepsOpens(es, k, e, now, key, value, time);
      var n := UpperBound(es, k);
      var one := [(k, e.(storeTS := now))];
      assert es == es[..n] + es[n..];
      OpensAppend(es[..n], es[n..], key, value, time);
      OpensAppend(es[..n], one, key, value, time);
      OpensAppend(es[..n] + one, es[n..], key, value, time);
    case Delete => DeletingKeepsOpens(es, k, e, key, value, time);
    case OtherFlag =>
  }

  // ------------------------------------------------------------ runs

  datatype Op = Op(key: Key, e: Entry, flag: Flag, now: int)

  function RunOps(es: Entries, ops: seq<Op>): Entries {
    if ops == [] then es
    else
      var op := ops[|ops| - 1];
      Modified(RunOps(es, ops[..|ops| - 1]), op.key, op.e, op.flag, op.now)
  }

  /** Over every run of modify, from the empty set: a secret protects one entry, so
      the DELETE that knows it removes that entry and no other. */
  lemma {:induction false} RunKeepsSecretsUnique(ops: seq<Op>)
    ensures Sorted(RunOps([], ops)) && SecretsUnique(RunOps([], ops))
  {
    if ops != [] {
      RunKeepsSecretsUnique(ops[..|ops| - 1]);
      var es, op := RunOps([], ops[..|ops| - 1]), ops[|ops| - 1];
      AddedKeepsUnique(es, op.key, op.e, op.now);
      DeletedKeepsUnique(es, op.key, op.e);
    }
  }

  /** And what is stored without a secret is never deleted and never made to expire
      earlier: the number of such entries that live until any given time never falls. */
  lemma {:induction false} RunKeepsOpens(es: Entries, ops: seq<Op>, key: Key, value: string, time: int)
    ensures Opens(es, key, value, time) <= Opens(RunOps(es, ops), key, value, time)
  {
    if ops != [] {
      RunKeepsOpens(es, ops[..|ops| - 1], key, value, time);
      var es', op := RunOps(es, ops[..|ops| - 1]), ops[|ops| - 1];
      ModifyKeepsOpens(es', op.key, op.e, op.flag, op.now, key, value, time);
    }
  }
}
