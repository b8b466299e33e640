/**
 The message history of a BitDHT node: a list per peer, and one timeline of all
 messages that serves as the index for cleaning the lists.
 */
module BdHistory {
  import opened ConnectNode
  import opened BdPeer
  import opened BdTable

  /** A message without the peer it went to or came from. */
  datatype Item = Item(msgType: nat, incoming: bool, about: NodeId)

  datatype Register = Register(id: PeerId, item: Item)

  type Items = seq<(int, Item)>
  type Timeline = seq<(int, Register)>

  // ------------------------------------------------------------ sequences in order of time

  predicate InTime<T>(xs: seq<(int, T)>) { forall i, j :: 0 <= i < j < |xs| ==> xs[i].0 <= xs[j].0 }

  /** multimap::insert: after the last of the equal times. */
  function Inserted<T>(xs: seq<(int, T)>, x: (int, T)): seq<(int, T)> {
    if xs == [] || xs[|xs| - 1].0 <= x.0 then xs + [x]
    else Inserted(xs[..|xs| - 1], x) + [xs[|xs| - 1]]
  }

  lemma InTimeThen<T>(xs: seq<(int, T)>, last: (int, T))
    requires InTime(xs) && forall y :: y in xs ==> y.0 <= last.0
    ensures InTime(xs + [last])
  {
  }

  lemma {:induction false} InsertedMeans<T>(xs: seq<(int, T)>, x: (int, T))
    requires InTime(xs)
    ensures InTime(Inserted(xs, x))
    ensures multiset(Inserted(xs, x)) == multiset(xs) + multiset{x}
    ensures |Inserted(xs, x)| == |xs| + 1
  {
    if xs != [] && xs[|xs| - 1].0 > x.0 {
      var init, last := xs[..|xs| - 1], xs[|xs| - 1];
      InsertedMeans(init, x);
      assert xs == init + [last];
      var r := Inserted(init, x);
      forall y | y in r
        ensures y.0 <= last.0
      {
        assert y in multiset(r);
        assert y in multiset(init) + multiset{x};
      }
      InTimeThen(r, last);
      assert multiset(r + [last]) == multiset(init) + multiset{x} + multiset{last};
    }
  }

  /** The part that is not before the given time. */
  function Kept<T>(xs: seq<(int, T)>, before: int): seq<(int, T)> {
    if xs == [] then []
    else Kept(xs[..|xs| - 1], before) + if xs[|xs| - 1].0 < before then [] else [xs[|xs| - 1]]
  }

  lemma {:induction false} KeptAppend<T>(a: seq<(int, T)>, b: seq<(int, T)>, before: int)
    ensures Kept(a + b, before) == Kept(a, before) + Kept(b, before)
  {
    if b == [] {
      assert a + b == a;
    } else {
      KeptAppend(a, b[..|b| - 1], before);
      assert (a + b)[..|a + b| - 1] == a + b[..|b| - 1];
    }
  }

  lemma {:induction false} KeptAll<T>(xs: seq<(int, T)>, before: int)
    requires forall x :: x in xs ==> x.0 >= before
    ensures Kept(xs, before) == xs
  {
    if xs != [] {
      KeptAll(xs[..|xs| - 1], before);
    }
  }

  lemma {:induction false} KeptNone<T>(xs: seq<(int, T)>, before: int)
    requires forall x :: x in xs ==> x.0 < before
    ensures Kept(xs, before) == []
  {
    if xs != [] {
      KeptNone(xs[..|xs| - 1], before);
    }
  }

  lemma {:induction false} KeptMembers<T>(xs: seq<(int, T)>, before: int, x: (int, T))
    ensures multiset(Kept(xs, before))[x] == if x.0 < before then 0 else multiset(xs)[x]
  {
    if xs != [] {
      var init, last := xs[..|xs| - 1], xs[|xs| - 1];
      KeptMembers(init, before, x);
      assert xs == init + [last];
      assert multiset(xs) == multiset(init) + multiset{last};
      if last.0 >= before {
        assert multiset(Kept(xs, before)) == multiset(Kept(init, before)) + multiset{last};
      } else {
        assert Kept(xs, before) == Kept(init, before);
      }
    }
  }

  lemma {:induction false} KeptInTime<T>(xs: seq<(int, T)>, before: int)
    requires InTime(xs)
    ensures InTime(Kept(xs, before))
    ensures forall x :: x in Kept(xs, before) ==> x in xs && x.0 >= before
  {
    if xs != [] {
      KeptInTime(xs[..|xs| - 1], before);
    }
  }

  /** Erasing from the front while the front is old keeps exactly what is not old. */
  lemma DroppingFrontKeeps<T>(xs: seq<(int, T)>, i: nat, before: int)
    requires InTime(xs) && i <= |xs|
    requires forall j :: 0 <= j < i ==> xs[j].0 < before
    requires i < |xs| ==> xs[i].0 >= before
    ensures Kept(xs, before) == xs[i..]
  {
    assert xs == xs[..i] + xs[i..];
    KeptAppend(xs[..i], xs[i..], before);
    KeptNone(xs[..i], before);
    KeptAll(xs[i..], before);
  }

  // ------------------------------------------------------------ the timeline as an index

  /** The timeline's messages of one peer. */
  function Of(timeline: Timeline, p: PeerId): multiset<(int, Item)> {
    if timeline == [] then multiset{}
    else
      var last := timeline[|timeline| - 1];
      Of(timeline[..|timeline| - 1], p) + if last.1.id == p then multiset{(last.0, last.1.item)} else multiset{}
  }

  function OfOne(x: (int, Register), p: PeerId): multiset<(int, Item)> {
    if x.1.id == p then multiset{(x.0, x.1.item)} else multiset{}
  }

  lemma OfThen(a: Timeline, x: (int, Register), p: PeerId)
    ensures Of(a + [x], p) == Of(a, p) + OfOne(x, p)
  {
    assert (a + [x])[..|a|] == a;
  }

  lemma {:induction false} OfAppend(a: Timeline, b: Timeline, p: PeerId)
    ensures Of(a + b, p) == Of(a, p) + Of(b, p)
  {
    if b == [] {
      assert a + b == a;
    } else {
      var init, last := b[..|b| - 1], b[|b| - 1];
      calc {
        Of(a + b, p);
        { assert a + b == a + init + [last]; }
        Of(a + init + [last], p);
        { OfThen(a + init, last, p); }
        Of(a + init, p) + OfOne(last, p);
        { OfAppend(a, init, p); }
        Of(a, p) + Of(init, p) + OfOne(last, p);
        { assert Of(b, p) == Of(init, p) + OfOne(last, p); }
        Of(a, p) + Of(b, p);
      }
    }
  }

  lemma {:induction false} OfInserted(timeline: Timeline, x: (int, Register), p: PeerId)
    ensures Of(Inserted(timeline, x), p) ==
            Of(timeline, p) + if x.1.id == p then multiset{(x.0, x.1.item)} else multiset{}
  {
    if timeline == [] || timeline[|timeline| - 1].0 <= x.0 {
      assert (timeline + [x])[..|timeline|] == timeline;
    } else {
      var init, last := timeline[..|timeline| - 1], timeline[|timeline| - 1];
      OfInserted(init, x, p);
      var r := Inserted(timeline, x);
      assert r[..|r| - 1] == Inserted(init, x);
    }
  }

  lemma {:induction false} OfKept(timeline: Timeline, before: int, p: PeerId, x: (int, Item))
    ensures Of(Kept(timeline, before), p)[x] == if x.0 < before then 0 else Of(timeline, p)[x]
  {
    if timeline != [] {
      var init, last := timeline[..|timeline| - 1], timeline[|timeline| - 1];
      OfKept(init, before, p, x);
      var r := Kept(timeline, before);
      if last.0 >= before {
        assert r[..|r| - 1] == Kept(init, before) && r[|r| - 1] == last;
      } else {
        assert r == Kept(init, before);
      }
    }
  }

  lemma {:induction false} OfHasWitness(timeline: Timeline, p: PeerId, x: (int, Item))
    requires x in Of(timeline, p)
    ensures exists y :: y in timeline && y.1.id == p && y.0 == x.0
  {
    var init, last := timeline[..|timeline| - 1], timeline[|timeline| - 1];
    if x in Of(init, p) {
      OfHasWitness(init, p, x);
      var y :| y in init && y.1.id == p && y.0 == x.0;
      assert y in timeline;
    } else {
      assert last in timeline;
    }
  }

  /** The peers that have a message older than the given time in the timeline. */
  function Touched(timeline: Timeline, before: int): set<PeerId> {
    set x | x in timeline && x.0 < before :: x.1.id
  }

  // ------------------------------------------------------------ the state

  type Lists = seq<(PeerId, Items)>

  /** history is in the order of its search tree. */
  datatype State = State(history: Lists, timeline: Timeline)

  /** mHistory[id]: the table with a list for the peer, and where it is. */
  function Entered(es: Lists, id: PeerId, t: Tree): (r: (Lists, nat))
    requires Size(t) == |es|
    ensures r.1 < |r.0| && r.0[r.1].0 == id
  {
    FoundIsEqual(KeysOf(es), id, t);
    var found := Find(KeysOf(es), id, t);
    var j := LowerBound(KeysOf(es), id, t, 0);
    if found.Some? then (es, found.value) else (es[..j] + [(id, [])] + es[j..], j)
  }

  function Added(es: Lists, i: nat, x: (int, Item)): Lists
    requires i < |es|
  {
    es[i := (es[i].0, Inserted(es[i].1, x))]
  }

  function Recorded(s: State, id: PeerId, item: Item, now: int, t: Tree): State
    requires Size(t) == |s.history|
  {
    var (es, i) := Entered(s.history, id, t);
    State(Added(es, i, (now, item)), Inserted(s.timeline, (now, Register(id, item))))
  }

  /** setPeerType, as far as the lists go. */
  function Met(s: State, id: PeerId, t: Tree): State
    requires Size(t) == |s.history|
  {
    s.(history := Entered(s.history, id, t).0)
  }

  /** msgClear; a time of zero means everything. */
  function Cleared(xs: Items, before: int): Items { if before == 0 then [] else Kept(xs, before) }

  /** Looking up one of the peers finds list i. */
  predicate Reached(keys: Keys, i: nat, ids: set<PeerId>, t: Tree)
    requires Size(t) == |keys| && i < |keys|
  {
    keys[i] in ids && Find(keys, keys[i], t) == Some(i)
  }

  function ClearedLists(es: Lists, ids: set<PeerId>, before: int, t: Tree): Lists
    requires Size(t) == |es|
  {
    seq(|es|, i requires 0 <= i < |es| =>
      if Reached(KeysOf(es), i, ids, t) then (es[i].0, Cleared(es[i].1, before)) else es[i])
  }

  /** cleanupOldMsgs visits only the peers the timeline says have old messages. */
  function Cleaned(s: State, period: int, now: int, t: Tree): State
    requires Size(t) == |s.history|
  {
    if period == 0 then s
    else
      var before := now - period;
      State(ClearedLists(s.history, Touched(s.timeline, before), before, t), Kept(s.timeline, before))
  }

  function Emptied(es: Lists): Lists { seq(|es|, i requires 0 <= i < |es| => (es[i].0, [])) }

  function Forgotten(s: State): State { s.(history := Emptied(s.history)) }

  // ------------------------------------------------------------ the index

  ghost predicate IsPart(x: (PeerId, Items), timeline: Timeline) {
    InTime(x.1) && multiset(x.1) <= Of(timeline, x.0)
  }

  /** Multimaps are in the order of their keys. */
  ghost predicate Timed(s: State) {
    InTime(s.timeline) && forall i :: 0 <= i < |s.history| ==> InTime(s.history[i].1)
  }

  /** Each peer's list is part of what the timeline has of it. */
  ghost predicate Indexed(s: State) {
    && InTime(s.timeline)
    && (forall x :: x in s.timeline ==> x.0 >= 0)
    && forall i :: 0 <= i < |s.history| ==> IsPart(s.history[i], s.timeline)
  }

  /** And all of it. */
  ghost predicate Complete(s: State) {
    && (forall i :: 0 <= i < |s.history| ==> multiset(s.history[i].1) == Of(s.timeline, s.history[i].0))
    && (forall x :: x in s.timeline ==> x.1.id in KeysOf(s.history))
  }

  /** A table that looking up by the broken order still works on. */
  ghost predicate InOrder(s: State, peers: set<PeerId>) {
    Ordered(KeysOf(s.history)) && Drawn(KeysOf(s.history), peers)
  }

  lemma {:induction false} OfNone(timeline: Timeline, p: PeerId)
    requires forall x :: x in timeline ==> x.1.id != p
    ensures Of(timeline, p) == multiset{}
  {
    if timeline != [] {
      OfNone(timeline[..|timeline| - 1], p);
    }
  }

  lemma EnteredNew(s: State, id: PeerId, t: Tree, peers: set<PeerId>)
    requires Size(t) == |s.history| && InOrder(s, peers) && id in peers && Uncrossed(peers)
    requires Find(KeysOf(s.history), id, t).None?
    ensures InOrder(Met(s, id, t), peers) && id !in KeysOf(s.history)
  {
    var keys := KeysOf(s.history);
    var j := LowerBound(keys, id, t, 0);
    InsertKeepsOrder(keys, id, t, peers);
    FindsStored(keys, id, t, peers);
    assert KeysOf(Met(s, id, t).history) == keys[..j] + [id] + keys[j..];
  }

  lemma EmptyListIsIndexed(s: State, id: PeerId, j: nat)
    requires j <= |s.history| && Indexed(s)
    ensures var s' := s.(history := s.history[..j] + [(id, [])] + s.history[j..]);
            Indexed(s') && (Complete(s) && id !in KeysOf(s.history) ==> Complete(s'))
  {
    var es := s.history;
    var s' := s.(history := es[..j] + [(id, [])] + es[j..]);
    if Complete(s) && id !in KeysOf(es) {
      OfNone(s.timeline, id);
    }
    EnteredKeys(es, id, j);
    forall i | 0 <= i < |s'.history|
      ensures IsPart(s'.history[i], s.timeline)
      ensures Complete(s) && id !in KeysOf(es) ==> multiset(s'.history[i].1) == Of(s.timeline, s'.history[i].0)
    {
      if i != j {
        assert s'.history[i] == es[if i < j then i else i - 1];
        assert IsPart(es[if i < j then i else i - 1], s.timeline);
      }
    }
  }

  lemma MetIsIndexed(s: State, id: PeerId, t: Tree, peers: set<PeerId>)
    requires Size(t) == |s.history| && Indexed(s) && InOrder(s, peers) && id in peers && Uncrossed(peers)
    ensures Indexed(Met(s, id, t)) && InOrder(Met(s, id, t), peers)
    ensures Complete(s) ==> Complete(Met(s, id, t))
  {
    if Find(KeysOf(s.history), id, t).None? {
      EnteredNew(s, id, t, peers);
      EmptyListIsIndexed(s, id, LowerBound(KeysOf(s.history), id, t, 0));
    }
  }

  lemma EnteredKeys(es: Lists, id: PeerId, j: nat)
    requires j <= |es|
    ensures forall k :: k in KeysOf(es) ==> k in KeysOf(es[..j] + [(id, [])] + es[j..])
  {
    var es' := es[..j] + [(id, [])] + es[j..];
    forall k | k in KeysOf(es)
      ensures k in KeysOf(es')
    {
      var i :| 0 <= i < |es| && es[i].0 == k;
      assert es'[if i < j then i else i + 1].0 == k;
    }
  }

  lemma RecordedTimeline(timeline: Timeline, id: PeerId, item: Item, now: nat)
    requires InTime(timeline) && forall x :: x in timeline ==> x.0 >= 0
    ensures var t := Inserted(timeline, (now, Register(id, item)));
            InTime(t) && forall x :: x in t <==> x in timeline || x == (now, Register(id, item))
  {
    var x := (now, Register(id, item));
    var t := Inserted(timeline, x);
    InsertedMeans(timeline, x);
    forall y
      ensures y in t <==> y in timeline || y == x
    {
      assert y in t <==> y in multiset(t);
      assert y in multiset(t) <==> y in multiset(timeline) + multiset{x};
    }
  }

  /** One more message of the peer whose list is at i. */
  lemma AddedIsIndexed(s: State, i: nat, item: Item, now: nat, peers: set<PeerId>)
    requires i < |s.history| && Indexed(s) && InOrder(s, peers)
    ensures var id := s.history[i].0;
            var s' := State(Added(s.history, i, (now, item)), Inserted(s.timeline, (now, Register(id, item))));
            Indexed(s') && InOrder(s', peers) && (Complete(s) ==> Complete(s'))
  {
    var id, x := s.history[i].0, (now as int, item);
    var s' := State(Added(s.history, i, x), Inserted(s.timeline, (now, Register(id, item))));
    RecordedTimeline(s.timeline, id, item, now);
    assert KeysOf(s'.history) == KeysOf(s.history);
    forall j | 0 <= j < |s'.history|
      ensures IsPart(s'.history[j], s'.timeline)
      ensures Complete(s) ==> multiset(s'.history[j].1) == Of(s'.timeline, s'.history[j].0)
    {
      assert IsPart(s.history[j], s.timeline);
      assert KeysOf(s.history)[j] == id <==> j == i;
      OfInserted(s.timeline, (now, Register(id, item)), s.history[j].0);
      InsertedMeans(s.history[i].1, x);
    }
  }

  lemma RecordedIsIndexed(s: State, id: PeerId, item: Item, now: nat, t: Tree, peers: set<PeerId>)
    requires Size(t) == |s.history| && Indexed(s) && InOrder(s, peers) && id in peers && Uncrossed(peers)
    ensures Indexed(Recorded(s, id, item, now, t)) && InOrder(Recorded(s, id, item, now, t), peers)
    ensures Complete(s) ==> Complete(Recorded(s, id, item, now, t))
  {
    MetIsIndexed(s, id, t, peers);
    AddedIsIndexed(Met(s, id, t), Entered(s.history, id, t).1, item, now, peers);
  }

  // ------------------------------------------------------------ cleaning

  /** What cleaning is for: every list without its old messages, and with all others. */
  function AllKept(es: Lists, before: int): Lists {
    seq(|es|, i requires 0 <= i < |es| => (es[i].0, Kept(es[i].1, before)))
  }

  lemma UntouchedIsFresh(s: State, i: nat, before: int)
    requires Indexed(s) && i < |s.history| && s.history[i].0 !in Touched(s.timeline, before)
    ensures Kept(s.history[i].1, before) == s.history[i].1
  {
    var xs, p := s.history[i].1, s.history[i].0;
    assert IsPart(s.history[i], s.timeline);
    forall x | x in xs
      ensures x.0 >= before
    {
      assert x in multiset(xs);
      OfHasWitness(s.timeline, p, x);
    }
    KeptAll(xs, before);
  }

  /** Cleaning through the index is as good as cleaning every list, if no two of the
      peers are crossed: no list keeps an expired message and none loses a fresh one. */
  lemma CleaningIsExact(s: State, period: int, now: int, t: Tree, peers: set<PeerId>)
    requires Size(t) == |s.history| && Indexed(s) && InOrder(s, peers) && Uncrossed(peers) && period != 0
    ensures Cleaned(s, period, now, t).history == AllKept(s.history, now - period)
  {
    var before, keys := now - period, KeysOf(s.history);
    var touched := Touched(s.timeline, before);
    forall i | 0 <= i < |s.history|
      ensures ClearedLists(s.history, touched, before, t)[i] == AllKept(s.history, before)[i]
    {
      if keys[i] in touched {
        assert keys[i] in peers;
        FindsStored(keys, keys[i], t, peers);
        var y :| y in s.timeline && y.0 < before && y.1.id == keys[i];
        assert before != 0;
      } else {
        UntouchedIsFresh(s, i, before);
      }
    }
  }

  lemma {:induction false} KeptStaysPart(xs: Items, timeline: Timeline, before: int, p: PeerId)
    requires multiset(xs) <= Of(timeline, p)
    ensures multiset(Kept(xs, before)) <= Of(Kept(timeline, before), p)
    ensures multiset(xs) == Of(timeline, p) ==> multiset(Kept(xs, before)) == Of(Kept(timeline, before), p)
  {
    forall x
      ensures multiset(Kept(xs, before))[x] <= Of(Kept(timeline, before), p)[x]
      ensures multiset(xs) == Of(timeline, p) ==> multiset(Kept(xs, before))[x] == Of(Kept(timeline, before), p)[x]
    {
      KeptMembers(xs, before, x);
      OfKept(timeline, before, p, x);
    }
  }

  lemma AllKeptIsIndexed(s: State, before: int)
    requires Indexed(s)
    ensures var s' := State(AllKept(s.history, before), Kept(s.timeline, before));
            Indexed(s') && (Complete(s) ==> Complete(s'))
  {
    var s' := State(AllKept(s.history, before), Kept(s.timeline, before));
    KeptInTime(s.timeline, before);
    assert KeysOf(s'.history) == KeysOf(s.history);
    forall i | 0 <= i < |s'.history|
      ensures IsPart(s'.history[i], s'.timeline)
      ensures Complete(s) ==> multiset(s'.history[i].1) == Of(s'.timeline, s'.history[i].0)
    {
      assert IsPart(s.history[i], s.timeline);
      KeptStaysPart(s.history[i].1, s.timeline, before, s.history[i].0);
      KeptInTime(s.history[i].1, before);
    }
  }

  lemma CleanedIsIndexed(s: State, period: int, now: int, t: Tree, peers: set<PeerId>)
    requires Size(t) == |s.history| && Indexed(s) && InOrder(s, peers) && Uncrossed(peers)
    ensures Indexed(Cleaned(s, period, now, t)) && InOrder(Cleaned(s, period, now, t), peers)
    ensures Complete(s) ==> Complete(Cleaned(s, period, now, t))
  {
    if period != 0 {
      CleaningIsExact(s, period, now, t, peers);
      AllKeptIsIndexed(s, now - period);
      assert KeysOf(AllKept(s.history, now - period)) == KeysOf(s.history);
    }
  }

  lemma ForgottenIsIndexed(s: State, peers: set<PeerId>)
    requires Indexed(s) && InOrder(s, peers)
    ensures Indexed(Forgotten(s)) && InOrder(Forgotten(s), peers)
  {
    assert KeysOf(Emptied(s.history)) == KeysOf(s.history);
  }

  // ------------------------------------------------------------ runs

  /** Each operation comes with the shape the tree then has. */
  datatype Op =
    | Record(id: PeerId, item: Item, now: nat, t: Tree)
    | Meet(id: PeerId, t: Tree)
    | Clean(now: nat, t: Tree)
    | Forget

  predicate Fits(s: State, op: Op) { op.Forget? || Size(op.t) == |s.history| }

  /** An operation with a tree of another size than the table does not occur. */
  function Apply(s: State, period: int, op: Op): State {
    if !Fits(s, op) then s
    else
      match op
      case Record(id, item, now, t) => Recorded(s, id, item, now, t)
      case Meet(id, t) => Met(s, id, t)
      case Clean(now, t) => Cleaned(s, period, now, t)
      case Forget => Forgotten(s)
  }

  function RunOps(period: int, ops: seq<Op>): State {
    if ops == [] then State([], []) else Apply(RunOps(period, ops[..|ops| - 1]), period, ops[|ops| - 1])
  }

  /** The operations speak of these peers only. */
  predicate Among(op: Op, peers: set<PeerId>) {
    match op
    case Record(id, _, _, _) => id in peers
    case Meet(id, _) => id in peers
    case _ => true
  }

  ghost predicate AllAmong(ops: seq<Op>, peers: set<PeerId>) { forall j :: 0 <= j < |ops| ==> Among(ops[j], peers) }

  lemma ApplyIsIndexed(s: State, period: int, op: Op, peers: set<PeerId>)
    requires Indexed(s) && InOrder(s, peers) && Uncrossed(peers) && Among(op, peers)
    ensures Indexed(Apply(s, period, op)) && InOrder(Apply(s, period, op), peers)
    ensures Complete(s) && !op.Forget? ==> Complete(Apply(s, period, op))
  {
    if Fits(s, op) {
      match op {
        case Record(id, item, now, t) => RecordedIsIndexed(s, id, item, now, t, peers);
        case Meet(id, t) => MetIsIndexed(s, id, t, peers);
        case Clean(now, t) => CleanedIsIndexed(s, period, now, t, peers);
        case Forget => ForgottenIsIndexed(s, peers);
      }
    }
  }

  /** In every run over peers of which no two are crossed the timeline indexes every
      list, completely if the lists are never cleared as a whole. */
  lemma {:induction false} RunIsIndexed(period: int, ops: seq<Op>, peers: set<PeerId>)
    requires AllAmong(ops, peers) && Uncrossed(peers)
    ensures Indexed(RunOps(period, ops)) && InOrder(RunOps(period, ops), peers)
    ensures (forall j :: 0 <= j < |ops| ==> !ops[j].Forget?) ==> Complete(RunOps(period, ops))
  {
    if ops != [] {
      RunIsIndexed(period, ops[..|ops| - 1], peers);
      ApplyIsIndexed(RunOps(period, ops[..|ops| - 1]), period, ops[|ops| - 1], peers);
    }
  }

  /** A cleanup after these operations leaves no expired message and drops no fresh one. */
  ghost predicate CleansUp(period: int, ops: seq<Op>, now: nat, t: Tree) {
    var s := RunOps(period, ops);
    Size(t) == |s.history| && period != 0 ==> Cleaned(s, period, now, t).history == AllKept(s.history, now - period)
  }

  lemma CleanupIsSound(period: int, ops: seq<Op>, now: nat, t: Tree, peers: set<PeerId>)
    requires AllAmong(ops, peers) && Uncrossed(peers)
    ensures CleansUp(period, ops, now, t)
  {
    var s := RunOps(period, ops);
    RunIsIndexed(period, ops, peers);
    if Size(t) == |s.history| && period != 0 {
      CleaningIsExact(s, period, now, t, peers);
    }
  }

  const ONE := Fork(Empty, Empty)

  lemma RecordedLast(s: State, id: PeerId, item: Item, now: int, t: Tree)
    requires Size(t) == |s.history| == LowerBound(KeysOf(s.history), id, t, 0)
    requires forall y :: y in s.timeline ==> y.0 <= now
    ensures Recorded(s, id, item, now, t) ==
            State(s.history + [(id, [(now, item)])], s.timeline + [(now, Register(id, item))])
  {
    assert s.timeline != [] ==> s.timeline[|s.timeline| - 1] in s.timeline;
    assert Inserted([], (now, item)) == [(now, item)];
    assert s.history[..|s.history|] == s.history;
  }

  lemma RunOne(period: int, ops: seq<Op>, op: Op)
    ensures RunOps(period, ops + [op]) == Apply(RunOps(period, ops), period, op)
  {
    assert (ops + [op])[..|ops|] == ops;
  }

  lemma FirstTwo(a: PeerId, b: PeerId, item: Item)
    requires PeerLess(a, b)
    ensures var s := RunOps(1, [Record(a, item, 0, Empty), Record(b, item, 0, ONE)]);
            s.history == [(a, [(0, item)]), (b, [(0, item)])]
            && s.timeline == [(0, Register(a, item)), (0, Register(b, item))]
  {
    var first, second := Record(a, item, 0, Empty), Record(b, item, 0, ONE);
    RecordedLast(State([], []), a, item, 0, Empty);
    RunOne(1, [], first);
    assert [] + [first] == [first] && RunOps(1, []) == State([], []);
    var s := RunOps(1, [first]);
    assert s == State([(a, [(0, item)])], [(0, Register(a, item))]) && KeysOf(s.history) == [a];
    RecordedLast(s, b, item, 0, ONE);
    RunOne(1, [first], second);
    assert [first] + [second] == [first, second];
    assert RunOps(1, [first, second]) == Recorded(s, b, item, 0, ONE);
    assert s.timeline + [(0, Register(b, item))] == [(0, Register(a, item)), (0, Register(b, item))];
  }

  lemma OldIsDropped(item: Item)
    ensures Kept([(0, item)], 1) == []
  {
    assert [(0, item)][..0] == [];
  }

  /** Two crossed peers in a tree whose root is the second: the first is no longer found, and not cleaned. */
  lemma CrossedPeersMiss(a: PeerId, b: PeerId, item: Item)
    requires PeerLess(a, b) && PeerLess(b, a)
    ensures !CleansUp(1, [Record(a, item, 0, Empty), Record(b, item, 0, ONE)], 2, Fork(ONE, Empty))
  {
    var s := RunOps(1, [Record(a, item, 0, Empty), Record(b, item, 0, ONE)]);
    FirstTwo(a, b, item);
    assert KeysOf(s.history) == [a, b];
    assert Find([a, b], a, Fork(ONE, Empty)) == None;
    assert Cleaned(s, 1, 2, Fork(ONE, Empty)).history[0] == s.history[0];
    OldIsDropped(item);
  }

  ghost predicate AlwaysCleansUp(peers: set<PeerId>) {
    forall period, ops, now, t :: AllAmong(ops, peers) ==> CleansUp(period, ops, now, t)
  }

  /** Cleaning through the index is right in every run, however the tree is kept, if
      and only if no two of the peers that are recorded are crossed. */
  lemma CleanupIsSoundIff(peers: set<PeerId>)
    ensures AlwaysCleansUp(peers) <==> Uncrossed(peers)
  {
    if Uncrossed(peers) {
      forall period, ops, now, t | AllAmong(ops, peers)
        ensures CleansUp(period, ops, now, t)
      {
        CleanupIsSound(period, ops, now, t, peers);
      }
    } else {
      var a, b :| a in peers && b in peers && Crossed(a, b);
      var item := Item(0, false, 0);
      CrossedPeersMiss(a, b, item);
      assert AllAmong([Record(a, item, 0, Empty), Record(b, item, 0, ONE)], peers);
    }
  }

  /** The same with the trees that a red-black tree really has: one node recorded at
      three addresses, the first two crossed.  The third insertion makes the second
      peer the root, and an expired message of the first stays in its list. */
  lemma RedBlackTreeMisses(item: Item)
    ensures var a, b, c := PeerId(1, Addr(1, 2)), PeerId(1, Addr(2, 1)), PeerId(1, Addr(3, 3));
            var two := [Record(a, item, 0, Empty), Record(b, item, 0, ONE)];
            var s := RunOps(1, two + [Record(c, item, 0, Fork(Empty, ONE))]);
            && Size(Fork(ONE, ONE)) == |s.history|
            && Cleaned(s, 1, 2, Fork(ONE, ONE)).history == [(a, [(0, item)]), (b, []), (c, [])]
  {
    var a, b, c := PeerId(1, Addr(1, 2)), PeerId(1, Addr(2, 1)), PeerId(1, Addr(3, 3));
    var ops, third := [Record(a, item, 0, Empty), Record(b, item, 0, ONE)], Record(c, item, 0, Fork(Empty, ONE));
    FirstTwo(a, b, item);
    var s2 := RunOps(1, ops);
    assert KeysOf(s2.history) == [a, b];
    RecordedLast(s2, c, item, 0, Fork(Empty, ONE));
    RunOne(1, ops, third);
    ThreeCleaned(RunOps(1, ops + [third]), a, b, c, item);
  }

  lemma ThreeCleaned(s: State, a: PeerId, b: PeerId, c: PeerId, item: Item)
    requires s.history == [(a, [(0, item)]), (b, [(0, item)]), (c, [(0, item)])]
    requires s.timeline == [(0, Register(a, item)), (0, Register(b, item)), (0, Register(c, item))]
    requires PeerLess(b, a) && PeerLess(a, c) && PeerLess(b, c) && !PeerLess(c, a)
    requires !PeerLess(a, a) && !PeerLess(b, b) && !PeerLess(c, c) && PeerLess(a, b)
    ensures Size(Fork(ONE, ONE)) == |s.history|
    ensures Cleaned(s, 1, 2, Fork(ONE, ONE)).history == [(a, [(0, item)]), (b, []), (c, [])]
  {
    var keys := KeysOf(s.history);
    assert keys == [a, b, c];
    ThreeFound(keys, a, b, c);
    ThreeOld(s, a, b, c, item);
    OldIsDropped(item);
  }

  lemma ThreeFound(keys: Keys, a: PeerId, b: PeerId, c: PeerId)
    requires keys == [a, b, c] && PeerLess(b, a) && PeerLess(a, c) && PeerLess(b, c) && !PeerLess(c, a)
    requires !PeerLess(a, a) && !PeerLess(b, b) && !PeerLess(c, c) && PeerLess(a, b)
    ensures Size(Fork(ONE, ONE)) == 3
    ensures Find(keys, a, Fork(ONE, ONE)) == None
    ensures Find(keys, b, Fork(ONE, ONE)) == Some(1)
    ensures Find(keys, c, Fork(ONE, ONE)) == Some(2)
  {
    assert Size(ONE) == 1;
    assert LowerBound(keys, a, ONE, 2) == 2;
    assert LowerBound(keys, b, ONE, 0) == 1;
    assert LowerBound(keys, c, ONE, 2) == 2;
  }

  lemma ThreeOld(s: State, a: PeerId, b: PeerId, c: PeerId, item: Item)
    requires multiset(s.timeline) == multiset{(0, Register(a, item)), (0, Register(b, item)), (0, Register(c, item))}
    ensures Touched(s.timeline, 1) == {a, b, c}
  {
    forall x
      ensures x in s.timeline <==> x in multiset(s.timeline)
    {
    }
  }

  // ------------------------------------------------------------ the object

  function Between(xs: Items, from: int, to: int): nat {
    if xs == [] then 0
    else Between(xs[..|xs| - 1], from, to) + if from <= xs[|xs| - 1].0 <= to then 1 else 0
  }

  class History {
    var history: Lists
    var timeline: Timeline
    const storePeriod: int

    constructor (period: int)
      ensures View() == State([], []) && storePeriod == period
    {
      history, timeline, storePeriod := [], [], period;
    }

    ghost function View(): State
      reads this
    {
      State(history, timeline)
    }

    /** operator[] of the table, whose tree now has shape t. */
    method Enter(id: PeerId, t: Tree) returns (i: nat)
      requires Size(t) == |history|
      modifies this`history
      ensures history == Entered(old(history), id, t).0 && i == Entered(old(history), id, t).1 && i < |history|
      ensures history[i].0 == id
    {
      var keys := KeysOf(history);
      i := LowerBound(keys, id, t, 0);
      FoundIsEqual(keys, id, t);
      if i == |history| || PeerLess(id, history[i].0) {
        history := history[..i] + [(id, [])] + history[i..];
      }
    }

    method AddMsg(id: PeerId, item: Item, now: int, t: Tree)
      requires Size(t) == |history|
      modifies this
      ensures View() == Recorded(old(View()), id, item, now, t)
    {
      var i := Enter(id, t);
      history := history[i := (id, Inserted(history[i].1, (now, item)))];
      timeline := Inserted(timeline, (now, Register(id, item)));
    }

    method SetPeerType(id: PeerId, t: Tree)
      requires Size(t) == |history|
      modifies this
      ensures View() == Met(old(View()), id, t)
    {
      var i := Enter(id, t);
    }

    /** msgClear on one peer's list; true if nothing is left. */
    method MsgClear(xs: Items, before: int) returns (left: Items, empty: bool)
      requires InTime(xs)
      ensures left == Cleared(xs, before) && empty == (left == [])
    {
      if before == 0 {
        return [], true;
      }
      left := xs;
      ghost var i := 0;
      while left != [] && left[0].0 < before
        invariant 0 <= i <= |xs| && left == xs[i..]
        invariant forall j :: 0 <= j < i ==> xs[j].0 < before
        decreases |left|
      {
        left := left[1..];
        i := i + 1;
      }
      DroppingFrontKeeps(xs, i, before);
      empty := left == [];
    }

    /** The loop from lower_bound(from) to upper_bound(to) ends if the one is not behind the other. */
    method MsgCount(xs: Items, from: int, to: int) returns (count: int)
      requires InTime(xs) && forall x :: x in xs ==> from <= x.0 || x.0 <= to
      ensures count == Between(xs, from, to)
    {
      var i := 0;
      while i < |xs| && xs[i].0 < from
        invariant 0 <= i <= |xs| && Between(xs[..i], from, to) == 0
        invariant forall j :: 0 <= j < i ==> xs[j].0 < from
      {
        assert xs[..i + 1][..i] == xs[..i];
        i := i + 1;
      }
      ghost var lo := i;
      count := 0;
      while i < |xs| && xs[i].0 <= to
        invariant lo <= i <= |xs| && count == Between(xs[..i], from, to)
      {
        assert xs[..i + 1][..i] == xs[..i];
        i := i + 1;
        count := count + 1;
      }
      NoneAfter(xs, from, to, i);
    }

    /** The first loop of cleanupOldMsgs.  Its ordered set never loses a peer, so a set it is. */
    method CleanTimeline(before: int) returns (toCleanup: set<PeerId>)
      requires InTime(timeline)
      modifies this`timeline
      ensures timeline == Kept(old(timeline), before) && toCleanup == Touched(old(timeline), before)
    {
      toCleanup := {};
      ghost var i := 0;
      while timeline != [] && timeline[0].0 < before
        invariant 0 <= i <= |old(timeline)| && timeline == old(timeline)[i..]
        invariant forall j :: 0 <= j < i ==> old(timeline)[j].0 < before && old(timeline)[j].1.id in toCleanup
        invariant toCleanup <= Touched(old(timeline), before)
        decreases |timeline|
      {
        assert timeline[0] == old(timeline)[i];
        toCleanup := toCleanup + {timeline[0].1.id};
        timeline := timeline[1..];
        i := i + 1;
      }
      DroppingFrontKeeps(old(timeline), i, before);
      TouchedIsFront(old(timeline), i, before, toCleanup);
    }

    /** The second loop of cleanupOldMsgs. */
    method CleanPeers(toCleanup: set<PeerId>, before: int, t: Tree)
      requires Size(t) == |history| && forall i :: 0 <= i < |history| ==> InTime(history[i].1)
      modifies this`history
      ensures history == ClearedLists(old(history), toCleanup, before, t)
    {
      ghost var was := history;
      var rest := toCleanup;
      ClearedNothing(was, before, t);
      while rest != {}
        invariant rest <= toCleanup && |history| == |was|
        invariant history == ClearedLists(was, toCleanup - rest, before, t)
        decreases |rest|
      {
        var p :| p in rest;
        var keys := KeysOf(history);
        assert keys == KeysOf(was);
        var found := Find(keys, p, t);
        ClearedOneMore(was, toCleanup - rest, p, before, t);
        FoundIsEqual(keys, p, t);
        if found.Some? {
          assert history[found.value] == was[found.value];
          var left, _ := MsgClear(history[found.value].1, before);
          history := history[found.value := (history[found.value].0, left)];
        }
        assert toCleanup - (rest - {p}) == toCleanup - rest + {p};
        rest := rest - {p};
      }
      assert toCleanup - rest == toCleanup;
    }

    method CleanupOldMsgs(now: int, t: Tree)
      requires Size(t) == |history| && Timed(View())
      modifies this
      ensures View() == Cleaned(old(View()), storePeriod, now, t)
    {
      if storePeriod == 0 {
        return;
      }
      var before := now - storePeriod;
      var toCleanup := CleanTimeline(before);
      CleanPeers(toCleanup, before, t);
    }

    method ClearHistory()
      modifies this
      ensures View() == Forgotten(old(View()))
    {
      var i := 0;
      while i < |history|
        invariant 0 <= i <= |history| == |old(history)| && timeline == old(timeline)
        invariant forall j :: 0 <= j < |history| ==>
                    history[j] == if j < i then (old(history)[j].0, []) else old(history)[j]
      {
        history := history[i := (history[i].0, [])];
        i := i + 1;
      }
    }
  }

  lemma ClearedNothing(es: Lists, before: int, t: Tree)
    requires Size(t) == |es|
    ensures ClearedLists(es, {}, before, t) == es
  {
  }

  lemma ClearedOneMore(es: Lists, ids: set<PeerId>, p: PeerId, before: int, t: Tree)
    requires Size(t) == |es| && p !in ids
    ensures var found := Find(KeysOf(es), p, t);
            var es', es'' := ClearedLists(es, ids, before, t), ClearedLists(es, ids + {p}, before, t);
            if found.None? then es'' == es'
            else es'[found.value] == es[found.value]
                 && es'' == es'[found.value := (es[found.value].0, Cleared(es[found.value].1, before))]
  {
    var keys := KeysOf(es);
    FoundIsEqual(keys, p, t);
    forall i | 0 <= i < |es|
      ensures Reached(keys, i, ids + {p}, t) <==> Reached(keys, i, ids, t) || Find(keys, p, t) == Some(i)
      ensures Find(keys, p, t) == Some(i) ==> !Reached(keys, i, ids, t)
    {
    }
  }

  lemma TouchedIsFront(timeline: Timeline, i: nat, before: int, ids: set<PeerId>)
    requires InTime(timeline) && i <= |timeline| && (i < |timeline| ==> timeline[i].0 >= before)
    requires forall j :: 0 <= j < i ==> timeline[j].1.id in ids
    requires ids <= Touched(timeline, before)
    ensures ids == Touched(timeline, before)
  {
    forall p | p in Touched(timeline, before)
      ensures p in ids
    {
      var x :| x in timeline && x.0 < before && x.1.id == p;
      var j :| 0 <= j < |timeline| && timeline[j] == x;
      assert j < i;
    }
  }

  lemma {:induction false} NoneAfter(xs: Items, from: int, to: int, i: nat)
    requires InTime(xs) && i <= |xs| && (i < |xs| ==> xs[i].0 > to)
    ensures Between(xs, from, to) == Between(xs[..i], from, to)
  {
    if i < |xs| {
      var init := xs[..|xs| - 1];
      NoneAfter(init, from, to, i);
      assert init[..i] == xs[..i];
    } else {
      assert xs[..i] == xs;
    }
  }
}
