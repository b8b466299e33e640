/**
 What modify, search and cleanup do to the stored entries, said entry by entry.
 */
module BdHashLaws {
  import opened BdHash

  /** The stored entry has this key, value and secret. */
  predicate Is(x: (Key, Entry), key: Key, value: string, secret: string) {
    x.0 == key && x.1.value == value && x.1.secret == secret
  }

  /** An ADD gives a matching entry new life: always with a secret, and without one if it then lives longer. */
  predicate GetsNewLife(x: (Key, Entry), key: Key, e: Entry, now: int) {
    Is(x, key, e.value, e.secret) && (e.secret == "" ==> now + e.lifetime > x.1.storeTS + x.1.lifetime)
  }

  /** The entry an ADD stores. */
  function Stored(key: Key, e: Entry, now: int): (Key, Entry) { (key, Entry(e.value, now, e.secret, e.lifetime)) }

  /** An ADD always stores: either some matching entries get the new time and lifetime
      and all others stay, or there is exactly one entry more, after those of keys up
      to its own. */
  lemma AddStores(es: Entries, key: Key, e: Entry, now: int)
    requires Sorted(es)
    ensures var es' := Modified(es, key, e, Add, now);
            if exists j :: 0 <= j < |es| && GetsNewLife(es[j], key, e, now) then
              && |es'| == |es|
              && forall j :: 0 <= j < |es| ==>
                   es'[j] == if GetsNewLife(es[j], key, e, now) then Stored(key, e, now) else es[j]
            else
              && multiset(es') == multiset(es) + multiset{Stored(key, e, now)}
              && exists n :: 0 <= n <= |es| && es' == es[..n] + [Stored(key, e, now)] + es[n..]
                             && (forall j :: 0 <= j < n ==> es[j].0 <= key)
                             && forall j :: n <= j < |es| ==> es[j].0 > key
    ensures Stored(key, e, now) in Modified(es, key, e, Add, now)
  {
    var es', new' := Modified(es, key, e, Add, now), Stored(key, e, now);
    if j :| 0 <= j < |es| && GetsNewLife(es[j], key, e, now) {
      assert Renews(es[j], key, e, now);
      assert es'[j] == new';
    } else {
      assert !AnyRenewed(es, key, e, now);
      var n := UpperBound(es, key);
      RangeIsOrdered(es, key);
      assert es == es[..n] + es[n..];
      assert es' == es[..n] + [new'] + es[n..];
      assert es'[n] == new';
    }
  }

  /** A DELETE that knows the secret takes the first entry with it; one without a secret,
      with a wrong one, or another command changes nothing. */
  lemma DeleteTakes(es: Entries, key: Key, e: Entry, flag: Flag, now: int)
    requires flag != Add
    ensures var es' := Modified(es, key, e, flag, now);
            if flag == Delete && e.secret != "" && exists j :: 0 <= j < |es| && Is(es[j], key, e.value, e.secret) then
              exists n :: 0 <= n < |es| && Is(es[n], key, e.value, e.secret) && es' == es[..n] + es[n + 1..]
                          && forall j :: 0 <= j < n ==> !Is(es[j], key, e.value, e.secret)
            else es' == es
  {
    if flag == Delete {
      if e.secret != "" && exists j :: 0 <= j < |es| && Is(es[j], key, e.value, e.secret) {
        var j :| 0 <= j < |es| && Is(es[j], key, e.value, e.secret);
        assert Deletes(es[j], key, e);
        FirstDeleted(es, key, e);
        DeletedAt(es, key, e, First(es, key, e));
      } else {
        forall j | 0 <= j < |es|
          ensures !Deletes(es[j], key, e)
        {
          assert !(e.secret != "" && Is(es[j], key, e.value, e.secret));
        }
        DeletedNothing(es, key, e);
      }
    }
  }

  /** modify reports a change for every ADD, and for a DELETE that takes something. */
  lemma ChangeIsReported(es: Entries, key: Key, e: Entry, flag: Flag, now: int)
    ensures Changes(es, key, e, flag) <==> flag == Add || Modified(es, key, e, flag, now) != es
  {
    if flag != Add {
      DeleteTakes(es, key, e, flag, now);
      if flag == Delete && exists j :: 0 <= j < |es| && Deletes(es[j], key, e) {
        var j :| 0 <= j < |es| && Deletes(es[j], key, e);
        assert Is(es[j], key, e.value, e.secret);
      }
      if Modified(es, key, e, flag, now) != es {
        var j :| 0 <= j < |es| && Is(es[j], key, e.value, e.secret);
        assert Deletes(es[j], key, e);
      }
    }
  }

  // ------------------------------------------------------------ searching

  /** A 32-bit number read as signed. */
  lemma AgeIsSigned(n: nat)
    ensures -0x8000_0000 <= ToInt32(n) < 0x8000_0000 && (n - ToInt32(n)) % 0x1_0000_0000 == 0
    ensures n < 0x8000_0000 ==> ToInt32(n) == n
  {
  }

  /** Searching goes through the entries in order, and finds those of the key that are young enough. */
  lemma {:induction false} SearchFinds(a: Entries, b: Entries, x: (Key, Entry), key: Key, maxAge: nat, now: int)
    ensures Matches(a + b, key, maxAge, now) == Matches(a, key, maxAge, now) + Matches(b, key, maxAge, now)
    ensures Matches([x], key, maxAge, now) ==
            if x.0 == key && now - x.1.storeTS < ToInt32(maxAge) then [x.1] else []
    ensures Matches([], key, maxAge, now) == []
  {
    assert [x][..0] == [];
    if b == [] {
      assert a + b == a;
    } else {
      SearchFinds(a, b[..|b| - 1], x, key, maxAge, now);
      assert (a + b)[..|a + b| - 1] == a + b[..|b| - 1];
    }
  }

  lemma {:induction false} FoundIfThere(es: Entries, x: (Key, Entry), maxAge: nat, now: int)
    requires x in es && now - x.1.storeTS < ToInt32(maxAge)
    ensures x.1 in Matches(es, x.0, maxAge, now)
  {
    if es[|es| - 1] != x {
      assert es == es[..|es| - 1] + [es[|es| - 1]];
      FoundIfThere(es[..|es| - 1], x, maxAge, now);
    }
  }

  /** What is added can be found, as long as it is younger than asked for. */
  lemma AddedIsFound(es: Entries, key: Key, e: Entry, now: int, maxAge: nat, later: int)
    requires Sorted(es) && later - now < ToInt32(maxAge)
    ensures Entry(e.value, now, e.secret, e.lifetime) in Matches(Modified(es, key, e, Add, now), key, maxAge, later)
  {
    AddStores(es, key, e, now);
    FoundIfThere(Modified(es, key, e, Add, now), Stored(key, e, now), maxAge, later);
  }

  // ------------------------------------------------------------ cleaning

  /** Cleaning goes through the entries in order, and keeps those that are neither older
      than asked for nor past their lifetime. */
  lemma CleanupKeeps(a: Entries, b: Entries, x: (Key, Entry), maxAge: nat, now: int)
    ensures Live(a + b, maxAge, now) == Live(a, maxAge, now) + Live(b, maxAge, now)
    ensures Live([x], maxAge, now) ==
            if now - x.1.storeTS <= ToInt32(maxAge) && now <= x.1.storeTS + x.1.lifetime then [x] else []
    ensures Live([], maxAge, now) == []
  {
    assert [x][..0] == [];
    LiveAppend(a, b, maxAge, now);
  }
}
