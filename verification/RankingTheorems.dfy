/**
 What the ranking service keeps over every run: its index lists every link once
 by rank, its own-comment tags are right, and its two published streams share
 out the commented links and name no friend.
 */
module RankingTheorems {
  import opened Ranking

  // ------------------------------------------------------------ index and store

  /** One pair per link, with the link's rank. */
  function Pairs(data: map<Id, Group>): (r: multiset<(real, Id)>)
    ensures forall x :: r[x] == if x.1 in data && data[x.1].rank == x.0 then 1 else 0
  {
    multiset(set rid | rid in data :: (data[rid].rank, rid))
  }

  ghost predicate Agrees(s: Store) { Ascending(s.index) && multiset(s.index) == Pairs(s.data) }

  /** The index is that of the links but rid, once the pair of rid is out of it. */
  ghost predicate AgreesBut(ix: Index, data: map<Id, Group>, rid: Id) {
    && Ascending(ix) && rid in data
    && multiset(ix) - multiset{(data[rid].rank, rid)} == Pairs(data - {rid})
  }

  lemma PairsWith(data: map<Id, Group>, rid: Id, g: Group)
    ensures Pairs(data[rid := g]) == Pairs(data - {rid}) + multiset{(g.rank, rid)}
  {
    forall z
      ensures Pairs(data[rid := g])[z] == (Pairs(data - {rid}) + multiset{(g.rank, rid)})[z]
    {
    }
  }

  lemma MovedPair(ix: Index, x: (real, Id), y: (real, Id))
    requires Ascending(ix)
    ensures Ascending(Inserted(Removed(ix, x), y))
    ensures multiset(Inserted(Removed(ix, x), y)) == multiset(ix) - multiset{x} + multiset{y}
  {
    RemovedMeans(ix, x);
    InsertedMeans(Removed(ix, x), y);
  }

  lemma ResortedAgrees(s: Store, rid: Id, now: int)
    requires AgreesBut(s.index, s.data, rid)
    ensures Agrees(Resorted(s, rid, now))
  {
    var g := s.data[rid];
    var rank := Rank(g.comments, s.params, now);
    MovedPair(s.index, (g.rank, rid), (rank, rid));
    PairsWith(s.data, rid, g.(rank := rank));
  }

  lemma AgreesButKnown(s: Store, rid: Id, g: Group)
    requires Agrees(s) && rid in s.data && g.rank == s.data[rid].rank
    ensures AgreesBut(s.index, s.data[rid := g], rid)
  {
    var data := s.data[rid := g];
    forall z
      ensures (multiset(s.index) - multiset{(g.rank, rid)})[z] == Pairs(data - {rid})[z]
    {
    }
  }

  lemma AgreesButNew(s: Store, rid: Id, g: Group)
    requires Agrees(s) && rid !in s.data
    ensures AgreesBut(s.index, s.data[rid := g], rid)
  {
    var data := s.data[rid := g];
    assert data - {rid} == s.data;
    forall z
      ensures (multiset(s.index) - multiset{(g.rank, rid)})[z] == Pairs(s.data)[z]
    {
    }
  }

  lemma LinkedAgreesBut(s: Store, m: Msg, g: Group)
    requires Agrees(s) && g.rank == WithLink(s, m).data[m.rid].rank
    ensures AgreesBut(s.index, WithLink(s, m).data[m.rid := g], m.rid)
  {
    assert WithLink(s, m).data[m.rid := g] == s.data[m.rid := g];
    if m.rid in s.data { AgreesButKnown(s, m.rid, g); } else { AgreesButNew(s, m.rid, g); }
  }

  lemma WithMsgAgrees(s: Store, m: Msg, now: int)
    requires Agrees(s)
    ensures Agrees(WithMsg(s, m, now))
  {
    var s1 := WithLink(s, m);
    var g := s1.data[m.rid];
    if m.peer == NOBODY {
      if m.rid !in s.data {
        AgreesButNew(s, m.rid, g);
        ResortedAgrees(s1, m.rid, now);
      }
    } else if IsNews(g, m) {
      var g' := Commented(g, m, s.own);
      LinkedAgreesBut(s, m, g');
      var mine := m.peer == s.own;
      ResortedAgrees(s1.(data := s1.data[m.rid := g'], republish := s.republish || mine,
                         republishFriends := s.republishFriends || !mine), m.rid, now);
    } else {
      assert s1 == s;
    }
  }

  lemma {:induction false} RefilledAgrees(ix: Index, todo: set<Id>, data: map<Id, Group>)
    requires todo <= data.Keys && Ascending(ix) && multiset(ix) == Pairs(data - todo)
    ensures Ascending(Refilled(ix, todo, data)) && multiset(Refilled(ix, todo, data)) == Pairs(data)
    decreases |todo|
  {
    if todo == {} {
      assert data - todo == data;
    } else {
      var rid := First(todo);
      var x := (data[rid].rank, rid);
      InsertedMeans(ix, x);
      forall z
        ensures (Pairs(data - todo) + multiset{x})[z] == Pairs(data - (todo - {rid}))[z]
      {
      }
      RefilledAgrees(Inserted(ix, x), todo - {rid}, data);
    }
  }

  lemma SortedAllAgrees(s: Store, now: int)
    ensures Agrees(SortedAll(s, now))
  {
    var data := Reranked(s.data, s.params, now);
    assert data - data.Keys == map[];
    RefilledAgrees([], data.Keys, data);
  }

  // ------------------------------------------------------------ the groups

  predicate HasComment(g: Group, p: Id) { exists x :: x in g.comments && x.0 == p }

  ghost predicate ByPeer(cs: seq<(Id, Msg)>) { forall i, j :: 0 <= i < j < |cs| ==> cs[i].0 < cs[j].0 }

  ghost predicate GroupOk(own: Id, rid: Id, g: Group) {
    && g.rid == rid && g.rank >= 0.0
    && (g.ownTag <==> HasComment(g, own))
    && ByPeer(g.comments)
    && (forall x :: x in g.comments ==> x.1.rid == rid && x.0 != NOBODY)
  }

  predicate Anonymous(m: Msg) { m.peer == NOBODY && m.pid == NOBODY && m.comment == "" && m.score == 0 }

  ghost predicate GroupsOk(s: Store) { forall rid :: rid in s.data ==> GroupOk(s.own, rid, s.data[rid]) }

  ghost predicate StoreOk(s: Store) {
    && s.own != NOBODY
    && Agrees(s)
    && GroupsOk(s)
    && (forall m :: m in s.anon ==> Anonymous(m))
  }

  lemma {:induction false} WithCommentMeans(cs: seq<(Id, Msg)>, id: Id, m: Msg)
    requires ByPeer(cs)
    ensures ByPeer(WithComment(cs, id, m))
    ensures forall x :: x in WithComment(cs, id, m) <==> x == (id, m) || (x in cs && x.0 != id)
  {
    if cs == [] || id <= cs[0].0 {
      assert cs != [] ==> cs == [cs[0]] + cs[1..];
    } else {
      WithCommentMeans(cs[1..], id, m);
      assert cs == [cs[0]] + cs[1..];
    }
  }

  /** addRankMsg touches one group; that one is as it was, or freshly ranked. */
  lemma WithMsgChanges(s: Store, m: Msg, now: int)
    ensures var s' := WithMsg(s, m, now);
            && s'.own == s.own && s'.params == s.params && s'.anon == s.anon
            && s'.data.Keys == s.data.Keys + {m.rid}
            && (forall rid :: rid in s.data && rid != m.rid ==> s'.data[rid] == s.data[rid])
            && var g' := s'.data[m.rid];
               (m.rid in s.data && g' == s.data[m.rid]) || g'.rank == Rank(g'.comments, s.params, now)
  {
  }

  lemma CommentedOk(own: Id, g: Group, m: Msg)
    requires GroupOk(own, m.rid, g) && m.peer != NOBODY
    ensures GroupOk(own, m.rid, Commented(g, m, own))
  {
    WithCommentMeans(g.comments, m.peer, m);
    assert (m.peer, m) in WithComment(g.comments, m.peer, m);
    if HasComment(g, own) && m.peer != own {
      var x :| x in g.comments && x.0 == own;
      assert x in WithComment(g.comments, m.peer, m);
    }
  }

  lemma RankedOk(own: Id, rid: Id, g: Group, rank: real)
    requires GroupOk(own, rid, g) && rank >= 0.0
    ensures GroupOk(own, rid, g.(rank := rank))
  {
  }

  lemma WithMsgGroup(s: Store, m: Msg, now: int)
    requires s.own != NOBODY && GroupsOk(s)
    ensures GroupOk(s.own, m.rid, WithMsg(s, m, now).data[m.rid])
  {
    var g := WithLink(s, m).data[m.rid];
    assert GroupOk(s.own, m.rid, g);
    if m.peer == NOBODY {
      RankedOk(s.own, m.rid, g, Rank(g.comments, s.params, now));
    } else {
      var g' := Commented(g, m, s.own);
      CommentedOk(s.own, g, m);
      RankedOk(s.own, m.rid, g', Rank(g'.comments, s.params, now));
    }
  }

  lemma WithMsgGroups(s: Store, m: Msg, now: int)
    requires s.own != NOBODY && GroupsOk(s)
    ensures GroupsOk(WithMsg(s, m, now))
  {
    WithMsgGroup(s, m, now);
    WithMsgChanges(s, m, now);
  }

  lemma WithMsgOk(s: Store, m: Msg, now: int)
    requires StoreOk(s)
    ensures StoreOk(WithMsg(s, m, now))
  {
    WithMsgAgrees(s, m, now);
    WithMsgGroups(s, m, now);
    WithMsgChanges(s, m, now);
  }

  lemma SortedAllOk(s: Store, now: int)
    requires s.own != NOBODY && GroupsOk(s) && forall m :: m in s.anon ==> Anonymous(m)
    ensures StoreOk(SortedAll(s, now))
  {
    SortedAllAgrees(s, now);
  }

  lemma {:induction false} FromFileOk(s: Store, ms: seq<Msg>, period: int, now: int)
    requires StoreOk(s)
    ensures StoreOk(FromFile(s, ms, period, now))
  {
    if ms != [] {
      var m := ms[|ms| - 1];
      FromFileOk(s, ms[..|ms| - 1], period, now);
      WithMsgOk(FromFile(s, ms[..|ms| - 1], period, now), m.(peer := m.pid), now);
    }
  }

  lemma {:induction false} LoadedOk(s: Store, ms: seq<Msg>, period: int, now: int)
    requires StoreOk(s)
    ensures StoreOk(Loaded(s, ms, period, now))
  {
    if ms != [] {
      var m := ms[|ms| - 1];
      LoadedOk(s, ms[..|ms| - 1], period, now);
      WithMsgOk(Loaded(s, ms[..|ms| - 1], period, now), m.(peer := NOBODY, pid := NOBODY), now);
    }
  }

  lemma AppliedOwn(s: Store, op: Op, now: nat)
    ensures Applied(s, op, now).own == s.own
  {
    match op
    case File(msgs, period) => FromFileOwn(s, msgs, period, now);
    case Config(msgs, period) => LoadedOwn(s, msgs, period, now);
    case _ =>
  }

  lemma WithAnonOk(s: Store, m: Msg)
    requires StoreOk(s) && Anonymous(m)
    ensures StoreOk(WithAnon(s, m))
  {
  }

  lemma SettingsOk(s: Store, p: Params, now: int)
    requires StoreOk(s)
    ensures StoreOk(SortedAll(s.(params := p), now))
  {
    SortedAllOk(s.(params := p), now);
  }

  lemma AppliedOk(s: Store, op: Op, now: nat)
    requires StoreOk(s)
    ensures StoreOk(Applied(s, op, now))
  {
    match op
    case Tick =>
    case NewLink(rid, link, title, comment, score) =>
      WithMsgOk(s, OwnMsg(s.own, rid, link, title, comment, score, now), now);
    case Comment(rid, comment, score) =>
      if rid in s.data {
        WithMsgOk(s, OwnMsg(s.own, rid, s.data[rid].link, s.data[rid].title, comment, score, now), now);
      }
    case Anon(rid, random, link, title) =>
      var m := AnonMsg(if rid == NOBODY then random else rid, link, title, now, LINK_TYPE_WEB);
      WithMsgOk(s, m, now);
      WithAnonOk(if rid == NOBODY then WithMsg(s, m, now) else s, m);
    case File(msgs, period) => FromFileOk(s, msgs, period, now);
    case Config(msgs, period) => LoadedOk(s, msgs, period, now);
    case Period(period) => SettingsOk(s, s.params.(period := period), now);
    case Method(sortType) => SettingsOk(s, s.params.(sortType := sortType), now);
    case Filter(peers) => SettingsOk(s, s.params.(filter := peers), now);
    case NoFilter => SettingsOk(s, s.params.(filter := []), now);
  }

  lemma {:induction false} FromFileOwn(s: Store, ms: seq<Msg>, period: int, now: int)
    ensures FromFile(s, ms, period, now).own == s.own && FromFile(s, ms, period, now).params == s.params
  {
    if ms != [] {
      var m := ms[|ms| - 1];
      FromFileOwn(s, ms[..|ms| - 1], period, now);
      WithMsgChanges(FromFile(s, ms[..|ms| - 1], period, now), m.(peer := m.pid), now);
    }
  }

  lemma {:induction false} LoadedOwn(s: Store, ms: seq<Msg>, period: int, now: int)
    ensures Loaded(s, ms, period, now).own == s.own && Loaded(s, ms, period, now).params == s.params
  {
    if ms != [] {
      var m := ms[|ms| - 1];
      LoadedOwn(s, ms[..|ms| - 1], period, now);
      WithMsgChanges(Loaded(s, ms[..|ms| - 1], period, now), m.(peer := NOBODY, pid := NOBODY), now);
    }
  }

  /** In every run the index holds exactly one pair per link, with its rank, in
      order; no rank is negative; ownTag says whether we commented; and the
      anonymous list is anonymous. */
  lemma {:induction false} RunOk(own: Id, ops: seq<(Op, nat)>)
    requires own != NOBODY
    ensures StoreOk(RunOps(own, ops)) && RunOps(own, ops).own == own
  {
    if ops != [] {
      RunOk(own, ops[..|ops| - 1]);
      AppliedOk(RunOps(own, ops[..|ops| - 1]), ops[|ops| - 1].0, ops[|ops| - 1].1);
      AppliedOwn(RunOps(own, ops[..|ops| - 1]), ops[|ops| - 1].0, ops[|ops| - 1].1);
    }
  }

  // ------------------------------------------------------------ how old a rank can be

  predicate RankedAt(g: Group, p: Params, t: int) { g.rank == Rank(g.comments, p, t) }

  ghost predicate RankedIn(s: Store, times: set<int>) {
    forall rid :: rid in s.data ==> exists t :: t in times && RankedAt(s.data[rid], s.params, t)
  }

  lemma WithMsgRanked(s: Store, m: Msg, now: int, times: set<int>)
    requires RankedIn(s, times) && now in times
    ensures RankedIn(WithMsg(s, m, now), times)
  {
    WithMsgChanges(s, m, now);
    var s' := WithMsg(s, m, now);
    forall rid | rid in s'.data
      ensures exists t :: t in times && RankedAt(s'.data[rid], s.params, t)
    {
      if rid != m.rid || (m.rid in s.data && s'.data[rid] == s.data[rid]) {
        assert s'.data[rid] == s.data[rid];
      } else {
        assert RankedAt(s'.data[rid], s.params, now);
      }
    }
  }

  lemma SortedAllRanked(s: Store, now: int, times: set<int>)
    requires now in times
    ensures RankedIn(SortedAll(s, now), times)
  {
    forall rid | rid in s.data
      ensures RankedAt(SortedAll(s, now).data[rid], s.params, now)
    {
    }
  }

  lemma {:induction false} FromFileRanked(s: Store, ms: seq<Msg>, period: int, now: int, times: set<int>)
    requires RankedIn(s, times) && now in times
    ensures RankedIn(FromFile(s, ms, period, now), times)
  {
    if ms != [] {
      var m := ms[|ms| - 1];
      FromFileRanked(s, ms[..|ms| - 1], period, now, times);
      WithMsgRanked(FromFile(s, ms[..|ms| - 1], period, now), m.(peer := m.pid), now, times);
    }
  }

  lemma {:induction false} LoadedRanked(s: Store, ms: seq<Msg>, period: int, now: int, times: set<int>)
    requires RankedIn(s, times) && now in times
    ensures RankedIn(Loaded(s, ms, period, now), times)
  {
    if ms != [] {
      var m := ms[|ms| - 1];
      LoadedRanked(s, ms[..|ms| - 1], period, now, times);
      WithMsgRanked(Loaded(s, ms[..|ms| - 1], period, now), m.(peer := NOBODY, pid := NOBODY), now, times);
    }
  }

  lemma AppliedRanked(s: Store, op: Op, now: nat, times: set<int>)
    requires RankedIn(s, times) && now in times
    ensures RankedIn(Applied(s, op, now), times)
  {
    match op
    case Tick =>
    case NewLink(rid, link, title, comment, score) =>
      WithMsgRanked(s, OwnMsg(s.own, rid, link, title, comment, score, now), now, times);
    case Comment(rid, comment, score) =>
      if rid in s.data {
        WithMsgRanked(s, OwnMsg(s.own, rid, s.data[rid].link, s.data[rid].title, comment, score, now), now, times);
      }
    case Anon(rid, random, link, title) =>
      WithMsgRanked(s, AnonMsg(if rid == NOBODY then random else rid, link, title, now, LINK_TYPE_WEB), now, times);
    case File(msgs, period) => FromFileRanked(s, msgs, period, now, times);
    case Config(msgs, period) => LoadedRanked(s, msgs, period, now, times);
    case Period(period) => SortedAllRanked(s.(params := s.params.(period := period)), now, times);
    case Method(sortType) => SortedAllRanked(s.(params := s.params.(sortType := sortType)), now, times);
    case Filter(peers) => SortedAllRanked(s.(params := s.params.(filter := peers)), now, times);
    case NoFilter => SortedAllRanked(s.(params := s.params.(filter := [])), now, times);
  }

  function Times(ops: seq<(Op, nat)>): set<int> { set i | 0 <= i < |ops| :: ops[i].1 }

  /** Only the clock can make a rank out of date: in every run each stored rank is
      that of the link's present comments under the present sort settings, as
      of the time of some operation of the run. */
  lemma {:induction false} RanksAreOnlyStale(own: Id, ops: seq<(Op, nat)>)
    ensures RankedIn(RunOps(own, ops), Times(ops))
  {
    if ops != [] {
      var before := ops[..|ops| - 1];
      RanksAreOnlyStale(own, before);
      var s := RunOps(own, before);
      assert forall i :: 0 <= i < |before| ==> before[i] == ops[i];
      assert Times(before) <= Times(ops);
      assert RankedIn(s, Times(ops));
      AppliedRanked(s, ops[|ops| - 1].0, ops[|ops| - 1].1, Times(ops));
    }
  }

  // ------------------------------------------------------------ what a rank is

  /** The comments that count. */
  function Counted(cs: seq<(Id, Msg)>, p: Params, now: int): (r: seq<(Id, Msg)>)
    ensures forall c :: c in r ==> c in cs && Counts(c, p, now)
  {
    if cs == [] then []
    else
      var c := cs[|cs| - 1];
      Counted(cs[..|cs| - 1], p, now) + if Counts(c, p, now) then [c] else []
  }

  lemma SummedThen(cs: seq<(Id, Msg)>, c: (Id, Msg), p: Params, now: int)
    ensures Summed(cs + [c], p, now) ==
            if Counts(c, p, now) then Plus(Summed(cs, p, now), c, p, now) else Summed(cs, p, now)
  {
    assert (cs + [c])[..|cs|] == cs;
  }

  lemma {:induction false} SummedCounted(cs: seq<(Id, Msg)>, p: Params, now: int)
    ensures Summed(Counted(cs, p, now), p, now) == Summed(cs, p, now)
  {
    if cs != [] {
      var init, c := cs[..|cs| - 1], cs[|cs| - 1];
      SummedCounted(init, p, now);
      if Counts(c, p, now) {
        assert Counted(cs, p, now) == Counted(init, p, now) + [c];
        SummedThen(Counted(init, p, now), c, p, now);
      } else {
        assert Counted(cs, p, now) == Counted(init, p, now);
      }
    }
  }

  /** Comments of other peers than the filter's, and with scores those before the
      view period, make no difference whatever they say. */
  lemma RankIgnoresOthers(cs: seq<(Id, Msg)>, cs': seq<(Id, Msg)>, p: Params, now: int)
    requires Counted(cs, p, now) == Counted(cs', p, now)
    ensures Rank(cs, p, now) == Rank(cs', p, now)
  {
    SummedCounted(cs, p, now);
    SummedCounted(cs', p, now);
  }

  lemma MulOrder(a: real, b: real, n: real)
    requires n > 0.0
    ensures a <= b <==> a * n <= b * n
  {
    assert (b - a) * n == b * n - a * n;
  }

  predicate Around(lo: real, sum: real, n: nat, hi: real) { lo * n as real <= sum <= hi * n as real }

  lemma AroundNext(lo: real, sum: real, n: nat, hi: real, t: real)
    requires Around(lo, sum, n, hi)
    ensures Around(if t < lo then t else lo, sum + t, n + 1, if t > hi then t else hi)
  {
    if n > 0 {
      MulOrder(t, lo, n as real);
      MulOrder(hi, t, n as real);
    }
  }

  lemma MeanIsAround(lo: real, sum: real, n: nat, hi: real)
    requires n > 0 && Around(lo, sum, n, hi)
    ensures lo <= sum / n as real <= hi
  {
    var mean := sum / n as real;
    assert mean * n as real == sum;
    MulOrder(lo, mean, n as real);
    MulOrder(mean, hi, n as real);
  }

  lemma TimeScoreBelowOne(timestamp: nat, p: Params, now: int)
    ensures TimeScore(timestamp, p, now) < 1.0
  {
    var delta := if timestamp > now then timestamp - now else now - timestamp;
    var x, y := p.period as real - delta as real, p.period as real + 0.01;
    assert x / y * y == x;
    MulOrder(1.0, x / y, y);
  }

  lemma {:induction false} SummedIsAround(cs: seq<(Id, Msg)>, p: Params, now: int) returns (a: int, b: int)
    requires Summed(cs, p, now).count > 0
    ensures 0 <= a < |cs| && Counts(cs[a], p, now) && 0 <= b < |cs| && Counts(cs[b], p, now)
    ensures var s := Summed(cs, p, now);
            Around(TimeScore(cs[a].1.timestamp, p, now), s.alg, s.count, TimeScore(cs[b].1.timestamp, p, now))
  {
    var k := |cs| - 1;
    var init, s := cs[..k], Summed(cs[..k], p, now);
    var t := TimeScore(cs[k].1.timestamp, p, now);
    if s.count == 0 {
      NothingSummed(init, p, now);
      a, b := k, k;
    } else {
      a, b := SummedIsAround(init, p, now);
      if Counts(cs[k], p, now) {
        var lo, hi := TimeScore(cs[a].1.timestamp, p, now), TimeScore(cs[b].1.timestamp, p, now);
        AroundNext(lo, s.alg, s.count, hi, t);
        a, b := if t < lo then k else a, if t > hi then k else b;
      }
    }
  }

  lemma {:induction false} NothingSummed(cs: seq<(Id, Msg)>, p: Params, now: int)
    requires Summed(cs, p, now).count == 0
    ensures Summed(cs, p, now).alg == 0.0
  {
    if cs != [] {
      NothingSummed(cs[..|cs| - 1], p, now);
    }
  }

  /** Sorted by time alone, a rank is below one, and if it is not zero it lies
      between the time scores of two comments that count. */
  lemma TimeRankIsMean(cs: seq<(Id, Msg)>, p: Params, now: int)
    requires p.ByTime() && !p.ByScore()
    ensures var r := Rank(cs, p, now);
            && r < 1.0
            && (r > 0.0 ==> exists c, d :: c in cs && d in cs && Counts(c, p, now) && Counts(d, p, now)
                                           && TimeScore(c.1.timestamp, p, now) <= r <= TimeScore(d.1.timestamp, p, now))
  {
    var s := Summed(cs, p, now);
    if s.count > 0 && s.alg > 0.0 {
      var a, b := SummedIsAround(cs, p, now);
      MeanIsAround(TimeScore(cs[a].1.timestamp, p, now), s.alg, s.count, TimeScore(cs[b].1.timestamp, p, now));
      TimeScoreBelowOne(cs[b].1.timestamp, p, now);
      assert cs[a] in cs && cs[b] in cs;
    }
  }

  // ------------------------------------------------------------ reading the index

  function MaxRank(ix: Index): real { if ix == [] then 0.0 else ix[|ix| - 1].0 }

  function Backwards(ix: Index): (r: seq<Id>)
    ensures |r| == |ix| && forall i :: 0 <= i < |ix| ==> r[i] == ix[|ix| - 1 - i].1
  {
    if ix == [] then [] else [ix[|ix| - 1].1] + Backwards(ix[..|ix| - 1])
  }

  function Least(a: int, b: int): int { if a <= b then a else b }

  /** What getRankings answers. */
  function Page(ix: Index, first: nat, count: nat): seq<Id> {
    Backwards(ix)[Least(first, |ix|)..Least(first + count, |ix|)]
  }

  /** Page after page until the list is over. */
  function Pages(ix: Index, first: nat, count: nat): seq<Id>
    requires count > 0
    decreases |ix| - first
  {
    if first >= |ix| then [] else Page(ix, first, count) + Pages(ix, first + count, count)
  }

  lemma SlicesJoin(s: seq<Id>, a: nat, b: nat)
    requires a <= b <= |s|
    ensures s[a..b] + s[b..] == s[a..]
  {
  }

  lemma {:induction false} PagesAreAll(ix: Index, first: nat, count: nat)
    requires count > 0 && first <= |ix|
    ensures Pages(ix, first, count) == Backwards(ix)[first..]
    decreases |ix| - first
  {
    var ids, next := Backwards(ix), first + count;
    if first < |ix| {
      SlicesJoin(ids, first, Least(next, |ix|));
      if next <= |ix| {
        PagesAreAll(ix, next, count);
      } else {
        assert Pages(ix, next, count) == [];
      }
    }
  }

  lemma {:induction false} BackwardsHas(ix: Index, rid: Id)
    ensures multiset(Backwards(ix))[rid] == |Only(ix, rid)|
  {
    if ix != [] {
      BackwardsHas(ix[..|ix| - 1], rid);
    }
  }

  /** The pairs of one link. */
  function Only(ix: Index, rid: Id): Index {
    if ix == [] then []
    else Only(ix[..|ix| - 1], rid) + if ix[|ix| - 1].1 == rid then [ix[|ix| - 1]] else []
  }

  lemma {:induction false} OnlyHas(ix: Index, rid: Id, x: (real, Id))
    ensures multiset(Only(ix, rid))[x] == if x.1 == rid then multiset(ix)[x] else 0
  {
    if ix != [] {
      OnlyHas(ix[..|ix| - 1], rid, x);
      assert ix == ix[..|ix| - 1] + [ix[|ix| - 1]];
    }
  }

  /** Reading page by page, with any page size, gives every link of the store
      once, and never a link after one of lower rank. */
  lemma PagesListEveryLinkOnce(s: Store, count: nat)
    requires Agrees(s) && count > 0
    ensures forall rid :: multiset(Pages(s.index, 0, count))[rid] == if rid in s.data then 1 else 0
    ensures RankOrder(s, Pages(s.index, 0, count))
  {
    PagesAreAll(s.index, 0, count);
    assert Pages(s.index, 0, count) == Backwards(s.index);
    forall rid
      ensures multiset(Backwards(s.index))[rid] == if rid in s.data then 1 else 0
    {
      BackwardsHas(s.index, rid);
      OnlyCount(s, rid);
    }
    BackwardsInOrder(s);
  }

  ghost predicate RankOrder(s: Store, ids: seq<Id>) {
    && (forall i :: 0 <= i < |ids| ==> ids[i] in s.data)
    && (forall i, j :: 0 <= i < j < |ids| ==> s.data[ids[i]].rank >= s.data[ids[j]].rank)
  }

  lemma IndexedAt(s: Store, i: nat)
    requires Agrees(s) && i < |s.index|
    ensures s.index[i].1 in s.data && s.data[s.index[i].1].rank == s.index[i].0
  {
    assert s.index[i] in multiset(s.index);
  }

  lemma BackwardsInOrder(s: Store)
    requires Agrees(s)
    ensures RankOrder(s, Backwards(s.index))
  {
    var ids := Backwards(s.index);
    forall i | 0 <= i < |ids|
      ensures ids[i] in s.data
    {
      IndexedAt(s, |ids| - 1 - i);
    }
    forall i, j | 0 <= i < j < |ids|
      ensures s.data[ids[i]].rank >= s.data[ids[j]].rank
    {
      IndexedAt(s, |ids| - 1 - i);
      IndexedAt(s, |ids| - 1 - j);
    }
  }

  lemma OnlyCount(s: Store, rid: Id)
    requires Agrees(s)
    ensures |Only(s.index, rid)| == if rid in s.data then 1 else 0
  {
    var o := Only(s.index, rid);
    forall x: (real, Id)
      ensures multiset(o)[x] == if x.1 == rid then multiset(s.index)[x] else 0
    {
      OnlyHas(s.index, rid, x);
    }
    var want := if rid in s.data then multiset{(s.data[rid].rank, rid)} else multiset{};
    assert multiset(o) == want;
    assert |multiset(o)| == |o|;
  }

  /** getMaxRank is the greatest rank of the store. */
  lemma MaxRankIsGreatest(s: Store, rid: Id)
    requires Agrees(s) && rid in s.data
    ensures s.data[rid].rank <= MaxRank(s.index)
    ensures exists top :: top in s.data && s.data[top].rank == MaxRank(s.index)
  {
    assert (s.data[rid].rank, rid) in multiset(s.index);
    assert s.index != [];
    var last := s.index[|s.index| - 1];
    assert last in multiset(s.index);
    assert last.1 in s.data;
  }

  ghost predicate TiesById(ix: Index) {
    forall i, j :: 0 <= i < j < |ix| ==> ix[i].0 < ix[j].0 || (ix[i].0 == ix[j].0 && ix[i].1 < ix[j].1)
  }

  lemma TiesThen(ix: Index, x: (real, Id))
    requires TiesById(ix) && forall y :: y in ix ==> y.0 < x.0 || (y.0 == x.0 && y.1 < x.1)
    ensures TiesById(ix + [x])
  {
  }

  lemma {:induction false} InsertedTies(ix: Index, x: (real, Id))
    requires TiesById(ix) && forall y :: y in ix ==> y.1 < x.1
    ensures TiesById(Inserted(ix, x))
    ensures forall y :: y in Inserted(ix, x) ==> y == x || y in ix
  {
    if ix == [] || ix[|ix| - 1].0 <= x.0 {
      TiesThen(ix, x);
    } else {
      InsertedTies(ix[..|ix| - 1], x);
      TiesThen(Inserted(ix[..|ix| - 1], x), ix[|ix| - 1]);
    }
  }

  lemma {:induction false} RefilledTies(ix: Index, todo: set<Id>, data: map<Id, Group>)
    requires todo <= data.Keys && TiesById(ix) && forall y, rid :: y in ix && rid in todo ==> y.1 < rid
    ensures TiesById(Refilled(ix, todo, data))
    decreases |todo|
  {
    if todo != {} {
      var rid := First(todo);
      InsertedTies(ix, (data[rid].rank, rid));
      RefilledTies(Inserted(ix, (data[rid].rank, rid)), todo - {rid}, data);
    }
  }

  lemma SameTop(a: Index, b: Index)
    requires TiesById(a) && TiesById(b) && a != [] && b != []
    requires a[|a| - 1] in b && b[|b| - 1] in a
    ensures a[|a| - 1] == b[|b| - 1]
  {
    var i :| 0 <= i < |a| && a[i] == b[|b| - 1];
    var j :| 0 <= j < |b| && b[j] == a[|a| - 1];
  }

  lemma WithoutTop(a: Index)
    requires a != []
    ensures multiset(a[..|a| - 1]) == multiset(a) - multiset{a[|a| - 1]}
  {
    assert a == a[..|a| - 1] + [a[|a| - 1]];
  }

  lemma {:induction false} TiesDetermine(a: Index, b: Index)
    requires TiesById(a) && TiesById(b) && multiset(a) == multiset(b)
    ensures a == b
  {
    assert |multiset(a)| == |a| && |multiset(b)| == |b|;
    if a != [] {
      assert a[|a| - 1] in multiset(b) && b[|b| - 1] in multiset(a);
      SameTop(a, b);
      WithoutTop(a);
      WithoutTop(b);
      TiesDetermine(a[..|a| - 1], b[..|b| - 1]);
    }
  }

  /** A full sort ranks every link as of now and puts equal ranks in the order of
      their ids; no other index does. */
  lemma SortedAllDetermined(s: Store, now: int, ix: Index)
    ensures var s' := SortedAll(s, now);
            && Agrees(s') && RankedIn(s', {now})
            && (TiesById(ix) && multiset(ix) == Pairs(s'.data) <==> ix == s'.index)
  {
    SortedAllAgrees(s, now);
    SortedAllRanked(s, now, {now});
    SortedAllTies(s, now);
    if TiesById(ix) && multiset(ix) == Pairs(SortedAll(s, now).data) {
      TiesDetermine(ix, SortedAll(s, now).index);
    }
  }

  lemma SortedAllTies(s: Store, now: int)
    ensures TiesById(SortedAll(s, now).index)
  {
    var data := Reranked(s.data, s.params, now);
    assert TiesById([]);
    RefilledTies([], data.Keys, data);
  }
}
