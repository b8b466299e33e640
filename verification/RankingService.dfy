/**
 The ranking service as an object that updates its store and index in place.
 Each method is proved to do what the functions of Ranking and RankingStreams
 say, and to keep the store in order.
 */
module RankingService {
  import opened Ranking
  import opened RankingTheorems
  import opened RankingStreams

  class Service {
    const own: Id
    const storePeriod: nat
    var peerFilter: seq<Id>
    var viewPeriod: nat
    var sortType: nat
    var data: map<Id, Group>
    var rankings: Index
    var anon: seq<Msg>
    var republish: bool
    var republishFriends: bool
    var friendsTS: int

    constructor (own: Id, storePeriod: nat)
      ensures View() == Fresh(own)
      ensures own != NOBODY ==> StoreOk(View())
    {
      this.own, this.storePeriod := own, storePeriod;
      peerFilter, viewPeriod, sortType := [], 2592000, 3;
      data, rankings, anon, republish, republishFriends, friendsTS := map[], [], [], false, false, 0;
    }

    ghost function View(): Store
      reads this
    {
      Store(own, Settings(), data, rankings, anon, republish, republishFriends, friendsTS)
    }

    function Settings(): Params
      reads this`peerFilter, this`viewPeriod, this`sortType
    {
      Params(peerFilter, viewPeriod, sortType)
    }

    // ---------------------------------------------------------- ranks

    method CalcRank(g: Group, now: int) returns (rank: real)
      ensures rank == Rank(g.comments, Settings(), now)
    {
      var cs := g.comments;
      var minTime := now - viewPeriod;
      var doFilter := |peerFilter| > 0;
      var doScore, doTime := sortType % 2 == 1, sortType / 2 % 2 == 1;
      var count, algScore, comboScore, popScore := 0, 0.0, 0.0, 0.0;
      var i := 0;
      while i < |cs|
        invariant 0 <= i <= |cs|
        invariant Sums(count, algScore, comboScore, popScore) == Summed(cs[..i], Settings(), now)
      {
        var c := cs[i];
        SummedStep(cs, i, Settings(), now);
        i := i + 1;
        if doFilter && c.0 !in peerFilter {
          continue;
        }
        if doScore && c.1.timestamp < minTime {
          continue;
        }
        var timeScore := TimeScore(c.1.timestamp, Settings(), now);
        algScore := algScore + timeScore;
        count := count + 1;
        var value := c.1.score as real;
        comboScore := comboScore + Worth(value, timeScore);
        popScore := popScore + value;
      }
      assert cs[..i] == cs;
      if count == 0 || algScore <= 0.0 {
        return 0.0;
      }
      if doScore && doTime {
        return if comboScore < 0.0 then 0.0 else comboScore;
      } else if doScore {
        return if popScore < 0.0 then 0.0 else popScore;
      } else if doTime {
        return algScore / count as real;
      }
      return 0.0;
    }

    /** multimap::lower_bound. */
    method LowerBound(rank: real) returns (i: nat)
      requires Ascending(rankings)
      ensures i <= |rankings|
      ensures forall j :: 0 <= j < i ==> rankings[j].0 < rank
      ensures forall j :: i <= j < |rankings| ==> rankings[j].0 >= rank
    {
      i := 0;
      while i < |rankings| && rankings[i].0 < rank
        invariant i <= |rankings|
        invariant forall j :: 0 <= j < i ==> rankings[j].0 < rank
      {
        i := i + 1;
      }
    }

    /** Takes the pair of a group out of the index, looking among those of its rank. */
    method RemovePair(rank: real, rid: Id)
      requires Ascending(rankings)
      modifies this`rankings
      ensures rankings == Removed(old(rankings), (rank, rid))
    {
      var i := LowerBound(rank);
      while i < |rankings| && rankings[i].0 == rank && rankings[i].1 != rid
        invariant i <= |rankings|
        invariant forall j :: 0 <= j < i ==> rankings[j] != (rank, rid)
        invariant forall j :: i <= j < |rankings| ==> rankings[j].0 >= rank
      {
        i := i + 1;
      }
      if i < |rankings| && rankings[i].0 == rank {
        RemovedAt(rankings, (rank, rid), i);
        rankings := rankings[..i] + rankings[i + 1..];
      } else {
        AfterEqual(rankings, rank, rid, i);
        NotRemoved(rankings, (rank, rid));
      }
    }

    method ReSortGroup(rid: Id, now: int)
      requires rid in data && data[rid].rid == rid && Ascending(rankings)
      modifies this`data, this`rankings
      ensures View() == Resorted(old(View()), rid, now)
    {
      var g := data[rid];
      RemovePair(g.rank, g.rid);
      var rank := CalcRank(g, now);
      data := data[rid := g.(rank := rank)];
      rankings := Inserted(rankings, (rank, g.rid));
    }

    method SortAllMsgs(now: int)
      modifies this`data, this`rankings
      ensures View() == SortedAll(old(View()), now)
    {
      ghost var was, p := data, Settings();
      ghost var ranked := Reranked(was, p, now);
      ghost var index := Refilled([], ranked.Keys, ranked);
      var todo := data.Keys;
      assert ranked.Keys == todo;
      rankings := [];
      while todo != {}
        invariant todo <= was.Keys && Settings() == p
        invariant data == PartlyRanked(was, todo, p, now)
        invariant Refilled(rankings, todo, ranked) == index
        decreases |todo|
      {
        var rid := First(todo);
        var g := data[rid];
        var rank := CalcRank(g, now);
        if rank < 0.0 {
          rank := 0.0;
        }
        PartlyRankedStep(was, todo, rid, p, now);
        RefilledStep(rankings, todo, ranked);
        data := data[rid := g.(rank := rank)];
        rankings := Inserted(rankings, (rank, rid));
        todo := todo - {rid};
      }
      assert data == ranked;
    }

    method SetSortPeriod(period: nat, now: int)
      requires StoreOk(View())
      modifies this
      ensures View() == WithPeriod(old(View()), period, now) && StoreOk(View())
    {
      SettingsOk(View(), Settings().(period := period), now);
      var reSort := viewPeriod != period;
      viewPeriod := period;
      if reSort {
        SortAllMsgs(now);
      }
    }

    method SetSortMethod(kind: nat, now: int)
      requires StoreOk(View())
      modifies this
      ensures View() == WithMethod(old(View()), kind, now) && StoreOk(View())
    {
      SettingsOk(View(), Settings().(sortType := kind), now);
      var reSort := sortType != kind;
      sortType := kind;
      if reSort {
        SortAllMsgs(now);
      }
    }

    method ClearPeerFilter(now: int)
      requires StoreOk(View())
      modifies this
      ensures View() == WithoutFilter(old(View()), now) && StoreOk(View())
    {
      SettingsOk(View(), Settings().(filter := []), now);
      var reSort := |peerFilter| > 0;
      peerFilter := [];
      if reSort {
        SortAllMsgs(now);
      }
    }

    method SetPeerFilter(peers: seq<Id>, now: int)
      requires StoreOk(View())
      modifies this
      ensures View() == WithFilter(old(View()), peers, now) && StoreOk(View())
    {
      SettingsOk(View(), Settings().(filter := peers), now);
      peerFilter := peers;
      SortAllMsgs(now);
    }

    // ---------------------------------------------------------- reading

    method GetMaxRank() returns (rank: real)
      requires StoreOk(View())
      ensures rank == MaxRank(rankings)
      ensures forall rid :: rid in data ==> data[rid].rank <= rank
    {
      rank := if |rankings| == 0 then 0.0 else rankings[|rankings| - 1].0;
      forall rid | rid in data
        ensures data[rid].rank <= rank
      {
        MaxRankIsGreatest(View(), rid);
      }
    }

    method GetRankings(first: nat, count: nat) returns (rids: seq<Id>)
      ensures rids == Page(rankings, first, count)
    {
      var n := |rankings|;
      var at, i := 0, 0;
      while i < first && at < n
        invariant at == i == Least(i, n) <= first
      {
        at, i := at + 1, i + 1;
      }
      ghost var from := at;
      i, rids := 0, [];
      while i < count && at < n
        invariant at == from + i && i <= count && at <= n
        invariant rids == Backwards(rankings)[from..at]
      {
        assert Backwards(rankings)[from..at + 1] == Backwards(rankings)[from..at] + [rankings[n - 1 - at].1];
        rids := rids + [rankings[n - 1 - at].1];
        at, i := at + 1, i + 1;
      }
    }

    // ---------------------------------------------------------- messages

    method AddRankMsg(m: Msg, now: int)
      requires Ascending(rankings) && forall rid :: rid in data ==> data[rid].rid == rid
      modifies this`data, this`rankings, this`republish, this`republishFriends
      ensures View() == WithMsg(old(View()), m, now)
    {
      if m.rid !in data {
        data := data[m.rid := NewGroup(m)];
        if m.peer == NOBODY {
          ReSortGroup(m.rid, now);
        }
      }
      if m.peer == NOBODY {
        return;
      }
      var g := data[m.rid];
      var found := CommentOf(g.comments, m.peer);
      var newComment := true;
      if found != [] {
        newComment := m.timestamp != found[0].timestamp || m.comment != found[0].comment;
      }
      if newComment {
        g := g.(comments := WithComment(g.comments, m.peer, m));
        if m.peer == own {
          g := g.(ownTag := true);
          republish := true;
        } else {
          republishFriends := true;
        }
        data := data[m.rid := g];
        ReSortGroup(m.rid, now);
      }
    }

    method NewRankMsg(rid: Id, link: string, title: string, comment: string, score: int, now: nat)
      requires StoreOk(View())
      modifies this
      ensures View() == Applied(old(View()), NewLink(rid, link, title, comment, score), now) && StoreOk(View())
    {
      AppliedOk(View(), NewLink(rid, link, title, comment, score), now);
      AddRankMsg(OwnMsg(own, rid, link, title, comment, score, now), now);
    }

    method UpdateComment(rid: Id, comment: string, score: int, now: nat) returns (ok: bool)
      requires StoreOk(View())
      modifies this
      ensures ok == (rid in old(data))
      ensures View() == Applied(old(View()), Comment(rid, comment, score), now) && StoreOk(View())
    {
      if rid !in data {
        return false;
      }
      AppliedOk(View(), Comment(rid, comment, score), now);
      AddRankMsg(OwnMsg(own, rid, data[rid].link, data[rid].title, comment, score, now), now);
      return true;
    }

    method AddAnonToList(m: Msg) returns (ok: bool)
      modifies this
      ensures ok == forall x :: x in old(anon) ==> x.rid != m.rid
      ensures View() == WithAnon(old(View()), m)
      ensures old(StoreOk(View())) && Anonymous(m) ==> StoreOk(View())
    {
      if StoreOk(View()) && Anonymous(m) {
        WithAnonOk(View(), m);
      }
      var i := 0;
      while i < |anon| && anon[i].rid != m.rid
        invariant i <= |anon|
        invariant forall j :: 0 <= j < i ==> anon[j].rid != m.rid
      {
        i := i + 1;
      }
      if i != |anon| {
        return false;
      }
      anon := anon + [m];
      republishFriends := true;
      return true;
    }

    method AnonRankMsg(rid: Id, random: Id, link: string, title: string, now: nat) returns (id: Id)
      requires StoreOk(View())
      modifies this
      ensures id == if rid == NOBODY then random else rid
      ensures View() == WithAnonLink(old(View()), rid, random, link, title, now) && StoreOk(View())
    {
      ghost var was := View();
      id := if rid == NOBODY then random else rid;
      var m := AnonMsg(id, link, title, now, LINK_TYPE_WEB);
      if rid == NOBODY {
        WithMsgOk(was, m, now);
        AddRankMsg(m, now);
      }
      var added := AddAnonToList(m);
    }

    method LoadRankFile(msgs: seq<Msg>, now: int)
      requires StoreOk(View())
      modifies this
      ensures View() == FromFile(old(View()), msgs, storePeriod, now) && StoreOk(View())
    {
      ghost var was := View();
      var i := 0;
      while i < |msgs|
        invariant 0 <= i <= |msgs|
        invariant View() == FromFile(was, msgs[..i], storePeriod, now)
      {
        FromFileOk(was, msgs[..i], storePeriod, now);
        var m := msgs[i];
        FromFileNext(was, msgs, i, storePeriod, now);
        i := i + 1;
        if m.timestamp < now - storePeriod || m.timestamp > now + MAX_FWD_OFFSET {
          continue;
        }
        AddRankMsg(m.(peer := m.pid), now);
      }
      assert msgs[..i] == msgs;
      FromFileOk(was, msgs, storePeriod, now);
    }

    method LoadList(load: seq<Msg>, now: int)
      requires StoreOk(View())
      modifies this
      ensures View() == Loaded(old(View()), load, storePeriod, now) && StoreOk(View())
    {
      ghost var was := View();
      var i := 0;
      while i < |load|
        invariant 0 <= i <= |load|
        invariant View() == Loaded(was, load[..i], storePeriod, now)
      {
        LoadedOk(was, load[..i], storePeriod, now);
        var m := load[i];
        LoadedNext(was, load, i, storePeriod, now);
        i := i + 1;
        if m.timestamp < now - storePeriod || m.timestamp > now + MAX_FWD_OFFSET {
          continue;
        }
        AddRankMsg(m.(peer := NOBODY, pid := NOBODY), now);
        anon := anon + [AnonMsg(m.rid, m.link, m.title, m.timestamp, m.linktype)];
      }
      assert load[..i] == load;
      LoadedOk(was, load, storePeriod, now);
    }

    // ---------------------------------------------------------- publication

    /** What goes out about one link. */
    method PublishGroup(mine: bool, rid: Id) returns (items: seq<Msg>)
      requires rid in data && GroupOk(own, rid, data[rid])
      ensures items == Part(mine, data[rid], own)
    {
      var g := data[rid];
      if mine {
        if g.ownTag {
          OwnComment(own, rid, g);
          var item := CommentOf(g.comments, own);
          return [item[0]];
        }
      } else if !g.ownTag && |g.comments| > 0 {
        return [Sanitised(g.comments[0].1)];
      }
      return [];
    }

    method PublishMsgs(mine: bool) returns (sent: seq<Msg>)
      requires forall rid :: rid in data ==> GroupOk(own, rid, data[rid])
      ensures sent == if mine then OwnFile(View()) else FriendsFile(View())
    {
      sent := [];
      var todo := data.Keys;
      while todo != {}
        invariant todo <= data.Keys
        invariant sent + Stream(mine, data, own, todo) == Stream(mine, data, own, data.Keys)
        decreases |todo|
      {
        var rid := First(todo);
        StreamStep(mine, data, own, todo, sent);
        var items := PublishGroup(mine, rid);
        sent := sent + items;
        todo := todo - {rid};
      }
      assert Stream(mine, data, own, todo) == [];
      assert sent == Stream(mine, data, own, data.Keys);
      if !mine {
        sent := sent + anon;
      }
    }

    /** tick, with both its locked parts in one step. */
    method Tick(now: int) returns (published: seq<Publication>)
      requires forall rid :: rid in data ==> GroupOk(own, rid, data[rid])
      modifies this`republish, this`republishFriends, this`friendsTS
      ensures View() == Ticked(old(View()), now) && published == Publications(old(View()), now)
    {
      var repub, repubFriends := republish, republishFriends && now > friendsTS;
      published := [];
      if repub {
        var msgs := PublishMsgs(true);
        published := published + Refresh(true, msgs);
        republish := false;
      }
      if repubFriends {
        var msgs := PublishMsgs(false);
        published := published + Refresh(false, msgs);
        republishFriends, friendsTS := false, now + FRIENDS_PERIOD;
      }
    }
  }

  lemma SummedStep(cs: seq<(Id, Msg)>, i: nat, p: Params, now: int)
    requires i < |cs|
    ensures var s, c := Summed(cs[..i], p, now), cs[i];
            var t := TimeScore(c.1.timestamp, p, now);
            Summed(cs[..i + 1], p, now)
            == if !Counts(c, p, now) then s
               else Sums(s.count + 1, s.alg + t, s.combo + Worth(c.1.score as real, t), s.pop + c.1.score as real)
  {
    assert cs[..i + 1][..i] == cs[..i];
  }

  /** data when only the links in todo are left to be ranked. */
  ghost function PartlyRanked(data: map<Id, Group>, todo: set<Id>, p: Params, now: int): map<Id, Group> {
    map rid | rid in data :: if rid in todo then data[rid] else data[rid].(rank := Rank(data[rid].comments, p, now))
  }

  lemma PartlyRankedStep(data: map<Id, Group>, todo: set<Id>, rid: Id, p: Params, now: int)
    requires rid in todo && rid in data
    ensures PartlyRanked(data, todo, p, now)[rid] == data[rid]
    ensures var g := data[rid].(rank := Rank(data[rid].comments, p, now));
            PartlyRanked(data, todo, p, now)[rid := g] == PartlyRanked(data, todo - {rid}, p, now)
            && Reranked(data, p, now)[rid] == g
  {
  }

  lemma RefilledStep(ix: Index, todo: set<Id>, data: map<Id, Group>)
    requires todo != {} && todo <= data.Keys
    ensures var rid := First(todo);
            Refilled(ix, todo, data) == Refilled(Inserted(ix, (data[rid].rank, rid)), todo - {rid}, data)
  {
  }

  ghost function Part(mine: bool, g: Group, own: Id): seq<Msg> { if mine then OwnPart(g, own) else FriendPart(g) }

  ghost function Stream(mine: bool, data: map<Id, Group>, own: Id, todo: set<Id>): seq<Msg>
    requires todo <= data.Keys
  {
    if mine then OwnStream(data, own, todo) else FriendStream(data, todo)
  }

  lemma StreamStep(mine: bool, data: map<Id, Group>, own: Id, todo: set<Id>, sent: seq<Msg>)
    requires todo != {} && todo <= data.Keys
    ensures sent + Stream(mine, data, own, todo)
            == sent + Part(mine, data[First(todo)], own) + Stream(mine, data, own, todo - {First(todo)})
  {
  }

  lemma FromFileNext(s: Store, ms: seq<Msg>, i: nat, period: int, now: int)
    requires i < |ms|
    ensures FromFile(s, ms[..i + 1], period, now) ==
            var s1 := FromFile(s, ms[..i], period, now);
            if InRange(ms[i], period, now) then WithMsg(s1, ms[i].(peer := ms[i].pid), now) else s1
  {
    assert ms[..i + 1][..i] == ms[..i];
  }

  lemma LoadedNext(s: Store, ms: seq<Msg>, i: nat, period: int, now: int)
    requires i < |ms|
    ensures Loaded(s, ms[..i + 1], period, now) ==
            var s1, m := Loaded(s, ms[..i], period, now), ms[i];
            if !InRange(m, period, now) then s1
            else
              var s2 := WithMsg(s1, m.(peer := NOBODY, pid := NOBODY), now);
              s2.(anon := s2.anon + [AnonMsg(m.rid, m.link, m.title, m.timestamp, m.linktype)])
  {
    assert ms[..i + 1][..i] == ms[..i];
  }

  lemma AfterEqual(ix: Index, rank: real, rid: Id, k: nat)
    requires Ascending(ix) && k <= |ix| && (k < |ix| ==> ix[k].0 > rank)
    ensures forall j :: k <= j < |ix| ==> ix[j] != (rank, rid)
  {
  }

  lemma {:induction false} RemovedAt(ix: Index, x: (real, Id), k: nat)
    requires k < |ix| && ix[k] == x && forall j :: 0 <= j < k ==> ix[j] != x
    ensures Removed(ix, x) == ix[..k] + ix[k + 1..]
  {
    if k > 0 {
      RemovedAt(ix[1..], x, k - 1);
      assert [ix[0]] + ix[1..][..k - 1] == ix[..k];
      assert ix[1..][k..] == ix[k + 1..];
    }
  }

  lemma {:induction false} NotRemoved(ix: Index, x: (real, Id))
    requires forall j :: 0 <= j < |ix| ==> ix[j] != x
    ensures Removed(ix, x) == ix
  {
    if ix != [] {
      NotRemoved(ix[1..], x);
    }
  }
}
