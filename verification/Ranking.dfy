/**
 The link ranking service: a store of links with the comments peers made, an
 index of the links by rank, and the two streams it publishes.  Peer and link
 ids are modelled by numbers that order as the strings do; 0 is the empty
 string.  Ranks are real numbers.
 */
module Ranking {

  type Id = nat

  const NOBODY: Id := 0
  const LINK_TYPE_WEB := 1
  const MAX_FWD_OFFSET := 172800
  const FRIENDS_PERIOD := 60

  datatype Msg = Msg(peer: Id, pid: Id, rid: Id, timestamp: nat, title: string, comment: string, score: int,
                     link: string, linktype: nat)

  /** comments is in the order of the peer ids. */
  datatype Group = Group(rid: Id, link: string, title: string, rank: real, ownTag: bool,
                         comments: seq<(Id, Msg)>)

  type Index = seq<(real, Id)>

  datatype Params = Params(filter: seq<Id>, period: nat, sortType: nat)
  {
    predicate ByScore() { sortType % 2 == 1 }

    predicate ByTime() { sortType / 2 % 2 == 1 }
  }

  // ------------------------------------------------------------ the rank of one link

  function TimeScore(timestamp: nat, p: Params, now: int): real {
    var delta := if timestamp > now then timestamp - now else now - timestamp;
    (p.period as real - delta as real) / (p.period as real + 0.01)
  }

  function Worth(value: real, timeScore: real): real { value * timeScore }

  predicate Counts(c: (Id, Msg), p: Params, now: int) {
    && (p.filter != [] ==> c.0 in p.filter)
    && (p.ByScore() ==> c.1.timestamp as int >= now - p.period)
  }

  datatype Sums = Sums(count: nat, alg: real, combo: real, pop: real)

  /** What the comments that count add up to. */
  function Summed(cs: seq<(Id, Msg)>, p: Params, now: int): Sums {
    if cs == [] then Sums(0, 0.0, 0.0, 0.0)
    else
      var s := Summed(cs[..|cs| - 1], p, now);
      var c := cs[|cs| - 1];
      if Counts(c, p, now) then Plus(s, c, p, now) else s
  }

  function Plus(s: Sums, c: (Id, Msg), p: Params, now: int): Sums {
    var t := TimeScore(c.1.timestamp, p, now);
    Sums(s.count + 1, s.alg + t, s.combo + Worth(c.1.score as real, t), s.pop + c.1.score as real)
  }

  function AtLeastZero(r: real): real { if r < 0.0 then 0.0 else r }

  function Rank(cs: seq<(Id, Msg)>, p: Params, now: int): (r: real)
    ensures r >= 0.0
  {
    var s := Summed(cs, p, now);
    if s.count == 0 || s.alg <= 0.0 then 0.0
    else if p.ByScore() && p.ByTime() then AtLeastZero(s.combo)
    else if p.ByScore() then AtLeastZero(s.pop)
    else if p.ByTime() then s.alg / s.count as real
    else 0.0
  }

  // ------------------------------------------------------------ the index

  ghost predicate Ascending(ix: Index) { forall i, j :: 0 <= i < j < |ix| ==> ix[i].0 <= ix[j].0 }

  /** multimap::insert: after the last of the equal ranks. */
  function Inserted(ix: Index, x: (real, Id)): Index {
    if ix == [] || ix[|ix| - 1].0 <= x.0 then ix + [x]
    else Inserted(ix[..|ix| - 1], x) + [ix[|ix| - 1]]
  }

  /** The index without the first pair x. */
  function Removed(ix: Index, x: (real, Id)): Index {
    if ix == [] then []
    else if ix[0] == x then ix[1..]
    else [ix[0]] + Removed(ix[1..], x)
  }

  lemma AscendingThen(ix: Index, x: (real, Id))
    requires Ascending(ix) && forall y :: y in ix ==> y.0 <= x.0
    ensures Ascending(ix + [x])
  {
  }

  lemma {:induction false} InsertedMeans(ix: Index, x: (real, Id))
    requires Ascending(ix)
    ensures Ascending(Inserted(ix, x)) && multiset(Inserted(ix, x)) == multiset(ix) + multiset{x}
  {
    if ix == [] || ix[|ix| - 1].0 <= x.0 {
      AscendingThen(ix, x);
    } else {
      var init, last := ix[..|ix| - 1], ix[|ix| - 1];
      InsertedMeans(init, x);
      assert ix == init + [last];
      var r := Inserted(init, x);
      forall y | y in r
        ensures y.0 <= last.0
      {
        assert y in multiset(r);
        assert y in multiset(init) + multiset{x};
      }
      AscendingThen(r, last);
      assert multiset(r + [last]) == multiset(init) + multiset{x} + multiset{last};
    }
  }

  lemma AscendingFront(x: (real, Id), ix: Index)
    requires Ascending(ix) && forall y :: y in ix ==> x.0 <= y.0
    ensures Ascending([x] + ix)
  {
  }

  lemma {:induction false} RemovedMeans(ix: Index, x: (real, Id))
    requires Ascending(ix)
    ensures Ascending(Removed(ix, x)) && multiset(Removed(ix, x)) == multiset(ix) - multiset{x}
  {
    if ix != [] {
      var rest, r := ix[1..], Removed(ix[1..], x);
      assert ix == [ix[0]] + rest;
      assert Ascending(rest);
      if ix[0] != x {
        RemovedMeans(rest, x);
        assert multiset([ix[0]] + r) == multiset{ix[0]} + multiset(r);
        forall y | y in r
          ensures ix[0].0 <= y.0
        {
          assert y in multiset(r);
          assert y in multiset(rest);
        }
        AscendingFront(ix[0], r);
      }
    }
  }

  // ------------------------------------------------------------ the service's state

  /** republish, republishFriends: what tick is to publish again, the friends' file not before friendsTS. */
  datatype Store = Store(own: Id, params: Params, data: map<Id, Group>, index: Index, anon: seq<Msg>,
                         republish: bool, republishFriends: bool, friendsTS: int)

  /** comments[id] = msg, keeping the order. */
  function WithComment(cs: seq<(Id, Msg)>, id: Id, m: Msg): seq<(Id, Msg)> {
    if cs == [] || id < cs[0].0 then [(id, m)] + cs
    else if cs[0].0 == id then [(id, m)] + cs[1..]
    else [cs[0]] + WithComment(cs[1..], id, m)
  }

  /** comments.find(id): the comment, if there is one. */
  function CommentOf(cs: seq<(Id, Msg)>, id: Id): (r: seq<Msg>)
    ensures |r| <= 1
    ensures forall m :: m in r ==> (id, m) in cs
    ensures r == [] <==> forall x :: x in cs ==> x.0 != id
  {
    if cs == [] then [] else if cs[0].0 == id then [cs[0].1] else CommentOf(cs[1..], id)
  }

  /** locked_reSortGroup on the group stored under rid, whose pair may be missing. */
  function Resorted(s: Store, rid: Id, now: int): Store
    requires rid in s.data
  {
    var g := s.data[rid];
    var rank := Rank(g.comments, s.params, now);
    s.(index := Inserted(Removed(s.index, (g.rank, rid)), (rank, rid)), data := s.data[rid := g.(rank := rank)])
  }

  function NewGroup(m: Msg): Group { Group(m.rid, m.link, m.title, 0.0, false, []) }

  predicate IsNews(g: Group, m: Msg) {
    var known := CommentOf(g.comments, m.peer);
    known == [] || known[0].timestamp != m.timestamp || known[0].comment != m.comment
  }

  function Commented(g: Group, m: Msg, own: Id): Group {
    g.(comments := WithComment(g.comments, m.peer, m), ownTag := g.ownTag || m.peer == own)
  }

  /** The first half of addRankMsg: the link is known. */
  function WithLink(s: Store, m: Msg): Store {
    if m.rid in s.data then s else s.(data := s.data[m.rid := NewGroup(m)])
  }

  /** addRankMsg. */
  function WithMsg(s: Store, m: Msg, now: int): Store {
    var s1 := WithLink(s, m);
    var g := s1.data[m.rid];
    if m.peer == NOBODY then
      if m.rid in s.data then s else Resorted(s1, m.rid, now)
    else if !IsNews(g, m) then s1
    else
      var mine := m.peer == s.own;
      Resorted(s1.(data := s1.data[m.rid := Commented(g, m, s.own)],
                   republish := s.republish || mine, republishFriends := s.republishFriends || !mine),
               m.rid, now)
  }

  function Reranked(data: map<Id, Group>, p: Params, now: int): map<Id, Group> {
    map rid | rid in data :: data[rid].(rank := Rank(data[rid].comments, p, now))
  }

  /** The key an iteration over a map with these keys visits first. */
  function First(s: set<Id>): (r: Id)
    requires s != {}
    ensures r in s && forall x :: x in s ==> r <= x
  {
    HasFirst(s);
    var r :| r in s && forall x :: x in s ==> r <= x;
    r
  }

  lemma HasFirst(s: set<Id>)
    requires s != {}
    ensures exists r :: r in s && forall x :: x in s ==> r <= x
  {
    var r :| r in s;
    while exists x :: x in s && x < r
      invariant r in s
      decreases r
    {
      var x :| x in s && x < r;
      r := x;
    }
  }

  /** ix with the pairs of the links in todo inserted in the order of the ids. */
  function Refilled(ix: Index, todo: set<Id>, data: map<Id, Group>): Index
    requires todo <= data.Keys
    decreases |todo|
  {
    if todo == {} then ix
    else
      var rid := First(todo);
      Refilled(Inserted(ix, (data[rid].rank, rid)), todo - {rid}, data)
  }

  /** sortAllMsgs. */
  function SortedAll(s: Store, now: int): Store {
    var data := Reranked(s.data, s.params, now);
    s.(data := data, index := Refilled([], data.Keys, data))
  }

  function WithPeriod(s: Store, period: nat, now: int): Store {
    if s.params.period == period then s else SortedAll(s.(params := s.params.(period := period)), now)
  }

  function WithMethod(s: Store, sortType: nat, now: int): Store {
    if s.params.sortType == sortType then s else SortedAll(s.(params := s.params.(sortType := sortType)), now)
  }

  function WithFilter(s: Store, peers: seq<Id>, now: int): Store {
    SortedAll(s.(params := s.params.(filter := peers)), now)
  }

  function WithoutFilter(s: Store, now: int): Store {
    if s.params.filter == [] then s else WithFilter(s, [], now)
  }

  function AnonMsg(rid: Id, link: string, title: string, timestamp: nat, linktype: nat): Msg {
    Msg(NOBODY, NOBODY, rid, timestamp, title, "", 0, link, linktype)
  }

  /** addAnonToList. */
  function WithAnon(s: Store, m: Msg): Store {
    if exists i :: 0 <= i < |s.anon| && s.anon[i].rid == m.rid then s
    else s.(anon := s.anon + [m], republishFriends := true)
  }

  /** anonRankMsg: a blank id stands for a new link. */
  function WithAnonLink(s: Store, rid: Id, random: Id, link: string, title: string, now: nat): Store {
    var m := AnonMsg(if rid == NOBODY then random else rid, link, title, now, LINK_TYPE_WEB);
    WithAnon(if rid == NOBODY then WithMsg(s, m, now) else s, m)
  }

  predicate InRange(m: Msg, period: int, now: int) { now - period <= m.timestamp <= now + MAX_FWD_OFFSET }

  /** loadRankFile: the messages of a friend's file, or of one's own. */
  function FromFile(s: Store, ms: seq<Msg>, period: int, now: int): Store {
    if ms == [] then s
    else
      var s1 := FromFile(s, ms[..|ms| - 1], period, now);
      var m := ms[|ms| - 1];
      if InRange(m, period, now) then WithMsg(s1, m.(peer := m.pid), now) else s1
  }

  /** loadList: the anonymous links of the saved configuration. */
  function Loaded(s: Store, ms: seq<Msg>, period: int, now: int): Store {
    if ms == [] then s
    else
      var s1 := Loaded(s, ms[..|ms| - 1], period, now);
      var m := ms[|ms| - 1];
      if !InRange(m, period, now) then s1
      else
        var s2 := WithMsg(s1, m.(peer := NOBODY, pid := NOBODY), now);
        s2.(anon := s2.anon + [AnonMsg(m.rid, m.link, m.title, m.timestamp, m.linktype)])
  }

  predicate FriendsDue(s: Store, now: int) { s.republishFriends && now > s.friendsTS }

  /** tick, as one step. */
  function Ticked(s: Store, now: int): Store {
    var s1 := s.(republish := false);
    if FriendsDue(s, now) then s1.(republishFriends := false, friendsTS := now + FRIENDS_PERIOD) else s1
  }

  datatype Op =
    | Tick
    | NewLink(rid: Id, link: string, title: string, comment: string, score: int)
    | Comment(rid: Id, comment: string, score: int)
    | Anon(rid: Id, random: Id, link: string, title: string)
    | File(msgs: seq<Msg>, period: nat)
    | Config(msgs: seq<Msg>, period: nat)
    | Period(period: nat) | Method(sortType: nat) | Filter(peers: seq<Id>) | NoFilter

  function OwnMsg(own: Id, rid: Id, link: string, title: string, comment: string, score: int, now: nat): Msg {
    Msg(own, own, rid, now, title, comment, score, link, LINK_TYPE_WEB)
  }

  function Applied(s: Store, op: Op, now: nat): Store {
    match op
    case Tick => Ticked(s, now)
    case NewLink(rid, link, title, comment, score) =>
      WithMsg(s, OwnMsg(s.own, rid, link, title, comment, score, now), now)
    case Comment(rid, comment, score) =>
      if rid !in s.data then s
      else WithMsg(s, OwnMsg(s.own, rid, s.data[rid].link, s.data[rid].title, comment, score, now), now)
    case Anon(rid, random, link, title) => WithAnonLink(s, rid, random, link, title, now)
    case File(msgs, period) => FromFile(s, msgs, period, now)
    case Config(msgs, period) => Loaded(s, msgs, period, now)
    case Period(period) => WithPeriod(s, period, now)
    case Method(sortType) => WithMethod(s, sortType, now)
    case Filter(peers) => WithFilter(s, peers, now)
    case NoFilter => WithoutFilter(s, now)
  }

  function Fresh(own: Id): Store { Store(own, Params([], 2592000, 3), map[], [], [], false, false, 0) }

  function RunOps(own: Id, ops: seq<(Op, nat)>): Store {
    if ops == [] then Fresh(own)
    else Applied(RunOps(own, ops[..|ops| - 1]), ops[|ops| - 1].0, ops[|ops| - 1].1)
  }
}
