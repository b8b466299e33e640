/**
 What a rank is, and what each operation of the ranking service stores, said
 without the functions that compute it.
 */
module RankingLaws {
  import opened Ranking
  import opened RankingTheorems
  import opened RankingStreams

  // ------------------------------------------------------------ which comments count, and how much

  function Age(timestamp: nat, now: int): int { if timestamp >= now then timestamp - now else now - timestamp }

  /** The weight of a comment falls with its age, on either side of now, from just below one to zero at the period. */
  lemma TimeScoreMeans(timestamp: nat, p: Params, now: int)
    ensures TimeScore(timestamp, p, now) * (p.period as real + 0.01) == (p.period - Age(timestamp, now)) as real
    ensures Age(timestamp, now) == p.period ==> TimeScore(timestamp, p, now) == 0.0
    ensures Age(timestamp, now) < p.period <==> TimeScore(timestamp, p, now) > 0.0
  {
    var y := p.period as real + 0.01;
    var x := (p.period - Age(timestamp, now)) as real;
    assert TimeScore(timestamp, p, now) == x / y;
    assert x / y * y == x;
    MulOrder(0.0, x / y, y);
    MulOrder(x / y, 0.0, y);
  }

  predicate IsCounted(c: (Id, Msg), p: Params, now: int) {
    && (p.filter == [] || c.0 in p.filter)
    && (p.sortType % 2 == 1 ==> c.1.timestamp as int >= now - p.period)
  }

  /** The comments that count, in order: those of the filter's peers, if there is one,
      and with scores those inside the view period. */
  lemma {:induction false} CountedMeans(a: seq<(Id, Msg)>, b: seq<(Id, Msg)>, c: (Id, Msg), p: Params, now: int)
    ensures Counted(a + b, p, now) == Counted(a, p, now) + Counted(b, p, now)
    ensures Counted([c], p, now) == (if IsCounted(c, p, now) then [c] else []) && Counted([], p, now) == []
  {
    assert [c][..0] == [];
    if b == [] {
      assert a + b == a;
    } else {
      CountedMeans(a, b[..|b| - 1], c, p, now);
      assert (a + b)[..|a + b| - 1] == a + b[..|b| - 1];
    }
  }

  // ------------------------------------------------------------ ranks

  function TimeSum(cs: seq<(Id, Msg)>, p: Params, now: int): real {
    if cs == [] then 0.0 else TimeSum(cs[..|cs| - 1], p, now) + TimeScore(cs[|cs| - 1].1.timestamp, p, now)
  }

  function ScoreSum(cs: seq<(Id, Msg)>): int {
    if cs == [] then 0 else ScoreSum(cs[..|cs| - 1]) + cs[|cs| - 1].1.score
  }

  function WeightedSum(cs: seq<(Id, Msg)>, p: Params, now: int): real {
    if cs == [] then 0.0
    else
      var c := cs[|cs| - 1].1;
      WeightedSum(cs[..|cs| - 1], p, now) + c.score as real * TimeScore(c.timestamp, p, now)
  }

  lemma SumsThen(cs: seq<(Id, Msg)>, c: (Id, Msg), p: Params, now: int)
    ensures var t := TimeScore(c.1.timestamp, p, now);
            && TimeSum(cs + [c], p, now) == TimeSum(cs, p, now) + t
            && ScoreSum(cs + [c]) == ScoreSum(cs) + c.1.score
            && WeightedSum(cs + [c], p, now) == WeightedSum(cs, p, now) + c.1.score as real * t
  {
    assert (cs + [c])[..|cs|] == cs;
  }

  lemma CountedThen(cs: seq<(Id, Msg)>, p: Params, now: int)
    requires cs != []
    ensures var init, c := cs[..|cs| - 1], cs[|cs| - 1];
            Counted(cs, p, now) == if Counts(c, p, now) then Counted(init, p, now) + [c] else Counted(init, p, now)
  {
  }

  /** The sums are those of these comments. */
  ghost predicate SumsOf(s: Sums, counted: seq<(Id, Msg)>, p: Params, now: int) {
    && s.count == |counted| && s.alg == TimeSum(counted, p, now)
    && s.pop == ScoreSum(counted) as real && s.combo == WeightedSum(counted, p, now)
  }

  lemma SumsOfThen(s: Sums, counted: seq<(Id, Msg)>, c: (Id, Msg), p: Params, now: int)
    requires SumsOf(s, counted, p, now)
    ensures SumsOf(Plus(s, c, p, now), counted + [c], p, now)
  {
    SumsThen(counted, c, p, now);
  }

  lemma {:induction false} SumsAre(cs: seq<(Id, Msg)>, p: Params, now: int)
    ensures SumsOf(Summed(cs, p, now), Counted(cs, p, now), p, now)
  {
    if cs != [] {
      var init, c := cs[..|cs| - 1], cs[|cs| - 1];
      SumsAre(init, p, now);
      CountedThen(cs, p, now);
      SumsOfThen(Summed(init, p, now), Counted(init, p, now), c, p, now);
    }
  }

  function AtLeast0(r: real): real { if r >= 0.0 then r else 0.0 }

  /** The rank by each of the sort methods: with score and time the weighted scores,
      with score alone the plain ones whatever their times, with time alone the mean
      weight, and never below zero; zero if nothing counts or the weights do not add
      up to more than zero. */
  lemma RankMeans(cs: seq<(Id, Msg)>, p: Params, now: int)
    ensures Rank(cs, p, now) == RankOf(Counted(cs, p, now), p, now)
  {
    SumsAre(cs, p, now);
    RankOfSums(Summed(cs, p, now), Counted(cs, p, now), p, now);
  }

  ghost function RankOf(counted: seq<(Id, Msg)>, p: Params, now: int): real {
    if counted == [] || TimeSum(counted, p, now) <= 0.0 then 0.0
    else match p.sortType % 4
         case 3 => AtLeast0(WeightedSum(counted, p, now))
         case 1 => AtLeast0(ScoreSum(counted) as real)
         case 2 => TimeSum(counted, p, now) / |counted| as real
         case _ => 0.0
  }

  lemma RankOfSums(s: Sums, counted: seq<(Id, Msg)>, p: Params, now: int)
    requires SumsOf(s, counted, p, now)
    ensures RankOf(counted, p, now) ==
            if s.count == 0 || s.alg <= 0.0 then 0.0
            else if p.ByScore() && p.ByTime() then AtLeastZero(s.combo)
            else if p.ByScore() then AtLeastZero(s.pop)
            else if p.ByTime() then s.alg / s.count as real
            else 0.0
  {
    assert p.ByScore() <==> p.sortType % 4 == 1 || p.sortType % 4 == 3;
    assert p.ByTime() <==> p.sortType % 4 == 2 || p.sortType % 4 == 3;
  }

  /** By default, at time 1000 and with a view period of 100, a score of 2 given 50
      seconds ago counts a little less than half. */
  lemma RankExample(m: Msg)
    requires m.timestamp == 950 && m.score == 2
    ensures Rank([(1, m)], Params([], 100, 3), 1000) * 100.01 == 100.0
    ensures Rank([(1, m)], Params([], 100, 1), 1000) == 2.0
  {
    var p, cs := Params([], 100, 3), [(1, m)];
    CountedMeans([], cs, cs[0], p, 1000);
    CountedMeans([], cs, cs[0], p.(sortType := 1), 1000);
    SumsThen([], cs[0], p, 1000);
    SumsThen([], cs[0], p.(sortType := 1), 1000);
    assert [] + cs == cs;
    RankMeans(cs, p, 1000);
    RankMeans(cs, p.(sortType := 1), 1000);
    TimeScoreMeans(950, p, 1000);
    TimeScoreMeans(950, p.(sortType := 1), 1000);
    var t := TimeScore(950, p, 1000);
    assert 2.0 * t * 100.01 == 2.0 * (t * 100.01);
  }

  function WithScore(cs: seq<(Id, Msg)>, j: nat, score: int): seq<(Id, Msg)>
    requires j < |cs|
  {
    cs[j := (cs[j].0, cs[j].1.(score := score))]
  }

  /** Raising the score of one comment that counts raises the plain sum by the
      difference, and the weighted one by the difference times its weight. */
  lemma {:induction false} ScoreRaisesSums(cs: seq<(Id, Msg)>, j: nat, score: int, p: Params, now: int)
    requires j < |cs|
    ensures var cs', more := WithScore(cs, j, score), score - cs[j].1.score;
            && ScoreSum(cs') == ScoreSum(cs) + more && TimeSum(cs', p, now) == TimeSum(cs, p, now)
            && WeightedSum(cs', p, now) == WeightedSum(cs, p, now) + more as real * TimeScore(cs[j].1.timestamp, p, now)
  {
    var last, cs' := |cs| - 1, WithScore(cs, j, score);
    if j == last {
      assert cs'[..last] == cs[..last];
    } else {
      ScoreRaisesSums(cs[..last], j, score, p, now);
      assert cs'[..last] == WithScore(cs[..last], j, score);
    }
  }

  lemma CountedSplit(a: seq<(Id, Msg)>, c: (Id, Msg), b: seq<(Id, Msg)>, p: Params, now: int)
    ensures Counted(a + [c] + b, p, now) ==
            Counted(a, p, now) + (if IsCounted(c, p, now) then [c] else []) + Counted(b, p, now)
  {
    CountedMeans(a, [c], c, p, now);
    CountedMeans(a + [c], b, c, p, now);
  }

  function Scored(c: (Id, Msg), score: int): (Id, Msg) { (c.0, c.1.(score := score)) }

  lemma WithScoreInside(a: seq<(Id, Msg)>, c: (Id, Msg), b: seq<(Id, Msg)>, score: int)
    ensures WithScore(a + [c] + b, |a|, score) == a + [Scored(c, score)] + b && (a + [c] + b)[|a|] == c
  {
  }

  /** Among those that count, the comment has its new score, too. */
  lemma CountedWithScore(a: seq<(Id, Msg)>, c: (Id, Msg), b: seq<(Id, Msg)>, score: int, p: Params, now: int)
    ensures var counted, counted' := Counted(a + [c] + b, p, now), Counted(a + [Scored(c, score)] + b, p, now);
            var k := |Counted(a, p, now)|;
            if IsCounted(c, p, now) then
              k < |counted| && counted[k] == c && counted' == WithScore(counted, k, score)
            else counted' == counted
  {
    CountedSplit(a, c, b, p, now);
    CountedSplit(a, Scored(c, score), b, p, now);
    WithScoreInside(Counted(a, p, now), c, Counted(b, p, now), score);
  }

  lemma ProductIsPositive(a: real, b: real)
    requires a >= 0.0 && b >= 0.0
    ensures a * b >= 0.0
  {
  }

  lemma RankOfMonotone(counted: seq<(Id, Msg)>, k: nat, score: int, p: Params, now: int)
    requires k < |counted| && score >= counted[k].1.score && TimeScore(counted[k].1.timestamp, p, now) >= 0.0
    ensures RankOf(WithScore(counted, k, score), p, now) >= RankOf(counted, p, now)
  {
    var more := score - counted[k].1.score;
    ScoreRaisesSums(counted, k, score, p, now);
    ProductIsPositive(more as real, TimeScore(counted[k].1.timestamp, p, now));
  }

  /** A better score never lowers the rank of a link, unless the weight of the comment is negative. */
  lemma RankIsMonotone(cs: seq<(Id, Msg)>, j: nat, score: int, p: Params, now: int)
    requires j < |cs| && score >= cs[j].1.score && TimeScore(cs[j].1.timestamp, p, now) >= 0.0
    ensures Rank(WithScore(cs, j, score), p, now) >= Rank(cs, p, now)
  {
    var a, c, b := cs[..j], cs[j], cs[j + 1..];
    assert cs == a + [c] + b;
    WithScoreInside(a, c, b, score);
    RankIsMonotoneInside(a, c, b, score, p, now);
  }

  lemma RankIsMonotoneInside(a: seq<(Id, Msg)>, c: (Id, Msg), b: seq<(Id, Msg)>, score: int, p: Params, now: int)
    requires score >= c.1.score && TimeScore(c.1.timestamp, p, now) >= 0.0
    ensures Rank(a + [Scored(c, score)] + b, p, now) >= Rank(a + [c] + b, p, now)
  {
    RankMeans(a + [c] + b, p, now);
    RankMeans(a + [Scored(c, score)] + b, p, now);
    CountedWithScore(a, c, b, score, p, now);
    if IsCounted(c, p, now) {
      RankOfMonotone(Counted(a + [c] + b, p, now), |Counted(a, p, now)|, score, p, now);
    }
  }

  // ------------------------------------------------------------ settings

  /** Each setting is in force afterwards and alone; if it is a change, or a filter, all
      links are ranked anew, as of now. */
  lemma SettingsAreSet(s: Store, period: nat, sortType: nat, peers: seq<Id>, now: int)
    ensures var s' := WithPeriod(s, period, now);
            s'.params == s.params.(period := period)
            && (period != s.params.period ==> RankedIn(s', {now}) && Agrees(s'))
            && (period == s.params.period ==> s' == s)
    ensures var s' := WithMethod(s, sortType, now);
            s'.params == s.params.(sortType := sortType)
            && (sortType != s.params.sortType ==> RankedIn(s', {now}) && Agrees(s'))
            && (sortType == s.params.sortType ==> s' == s)
    ensures var s' := WithFilter(s, peers, now);
            s'.params == s.params.(filter := peers) && RankedIn(s', {now}) && Agrees(s')
    ensures var s' := WithoutFilter(s, now);
            s'.params == s.params.(filter := []) && (s.params.filter != [] ==> RankedIn(s', {now}) && Agrees(s'))
            && (s.params.filter == [] ==> s' == s)
  {
    Resorts(s.(params := s.params.(period := period)), now);
    Resorts(s.(params := s.params.(sortType := sortType)), now);
    Resorts(s.(params := s.params.(filter := peers)), now);
    Resorts(s.(params := s.params.(filter := [])), now);
  }

  lemma Resorts(s: Store, now: int)
    ensures Agrees(SortedAll(s, now)) && RankedIn(SortedAll(s, now), {now})
  {
    SortedAllAgrees(s, now);
    SortedAllRanked(s, now, {now});
  }

  /** A sort changes ranks and index only. */
  lemma SortingChangesRanks(s: Store, now: int)
    ensures var s' := SortedAll(s, now);
            && s' == s.(data := s'.data, index := s'.index) && s'.data.Keys == s.data.Keys
            && forall rid :: rid in s.data ==> s'.data[rid] == s.data[rid].(rank := s'.data[rid].rank)
  {
  }

  // ------------------------------------------------------------ messages

  predicate News(s: Store, m: Msg) {
    var known := CommentsOn(s, m.rid, m.peer);
    known == [] || known[0].timestamp != m.timestamp || known[0].comment != m.comment
  }

  /** A message makes its link known under its own title and address, which are never
      changed by later ones. */
  lemma LinkIsKept(s: Store, m: Msg, now: int)
    ensures var s' := WithMsg(s, m, now);
            && s'.data.Keys == s.data.Keys + {m.rid}
            && (m.rid !in s.data ==> s'.data[m.rid].link == m.link && s'.data[m.rid].title == m.title)
            && forall rid :: rid in s.data ==>
                 s'.data[rid].link == s.data[rid].link && s'.data[rid].title == s.data[rid].title
  {
  }

  /** It asks for publication exactly if it is news of a peer, and changes nothing but links, index and that. */
  lemma MessageIsFlagged(s: Store, m: Msg, now: int)
    ensures var s' := WithMsg(s, m, now);
            && s'.republish == (s.republish || (m.peer != NOBODY && m.peer == s.own && News(s, m)))
            && s'.republishFriends == (s.republishFriends || (m.peer != NOBODY && m.peer != s.own && News(s, m)))
            && s' == s.(data := s'.data, index := s'.index, republish := s'.republish,
                        republishFriends := s'.republishFriends)
  {
    assert m.rid !in s.data ==> CommentsOn(s, m.rid, m.peer) == [];
    assert News(s, m) <==> IsNews(WithLink(s, m).data[m.rid], m);
  }

  /** Our comment on a known link is stored as ours, as of now, with its text and score,
      unless we said the same in the same second. */
  lemma OurCommentIsStored(s: Store, rid: Id, comment: string, score: int, now: nat)
    requires GroupsOk(s) && s.own != NOBODY && rid in s.data
    ensures var known, s' := CommentsOn(s, rid, s.own), Applied(s, Comment(rid, comment, score), now);
            CommentsOn(s', rid, s.own) ==
            if known == [] || known[0].timestamp != now || known[0].comment != comment then
              [Msg(s.own, s.own, rid, now, s.data[rid].title, comment, score, s.data[rid].link, 1)]
            else known
  {
    var m := Msg(s.own, s.own, rid, now, s.data[rid].title, comment, score, s.data[rid].link, 1);
    WithMsgComments(s, m, now, rid, s.own);
  }

  /** A new link is stored with our comment. */
  lemma OurLinkIsStored(s: Store, rid: Id, link: string, title: string, comment: string, score: int, now: nat)
    requires GroupsOk(s) && s.own != NOBODY && rid !in s.data
    ensures var s' := Applied(s, NewLink(rid, link, title, comment, score), now);
            && rid in s'.data && s'.data[rid].link == link && s'.data[rid].title == title
            && CommentsOn(s', rid, s.own) == [Msg(s.own, s.own, rid, now, title, comment, score, link, 1)]
            && s'.republish
  {
    var m := Msg(s.own, s.own, rid, now, title, comment, score, link, 1);
    WithMsgComments(s, m, now, rid, s.own);
    LinkIsKept(s, m, now);
    MessageIsFlagged(s, m, now);
  }

  /** The messages of a file are taken in order, those in the time range as their
      signer's, and the others not at all. */
  lemma {:induction false} FileIsTaken(s: Store, a: seq<Msg>, b: seq<Msg>, m: Msg, period: int, now: int)
    ensures FromFile(s, a + b, period, now) == FromFile(FromFile(s, a, period, now), b, period, now)
    ensures FromFile(s, [], period, now) == s
    ensures FromFile(s, [m], period, now) ==
            if now - period <= m.timestamp <= now + 2 * 24 * 60 * 60 then WithMsg(s, m.(peer := m.pid), now) else s
  {
    assert [m][..0] == [];
    if b == [] {
      assert a + b == a;
    } else {
      FileIsTaken(s, a, b[..|b| - 1], m, period, now);
      assert (a + b)[..|a + b| - 1] == a + b[..|b| - 1];
    }
  }

  /** So are the links of the saved configuration, each for the store, without naming
      anybody, and for the anonymous list, stripped to what it is about. */
  lemma {:induction false} ConfigIsTaken(s: Store, a: seq<Msg>, b: seq<Msg>, m: Msg, period: int, now: int)
    ensures Loaded(s, a + b, period, now) == Loaded(Loaded(s, a, period, now), b, period, now)
    ensures Loaded(s, [], period, now) == s
    ensures var s' := WithMsg(s, m.(peer := NOBODY, pid := NOBODY), now);
            Loaded(s, [m], period, now) ==
            if now - period <= m.timestamp <= now + 2 * 24 * 60 * 60 then
              s'.(anon := s'.anon + [Msg(NOBODY, NOBODY, m.rid, m.timestamp, m.title, "", 0, m.link, m.linktype)])
            else s
  {
    assert [m][..0] == [];
    if b == [] {
      assert a + b == a;
    } else {
      ConfigIsTaken(s, a, b[..|b| - 1], m, period, now);
      assert (a + b)[..|a + b| - 1] == a + b[..|b| - 1];
    }
  }

  /** A link recommended anonymously is in the anonymous list afterwards, added at its
      end if it was not there, and a new one is in the store, without a comment. */
  lemma AnonymousLinkIsListed(s: Store, rid: Id, random: Id, link: string, title: string, now: nat)
    requires GroupsOk(s)
    ensures var id, s' := if rid == NOBODY then random else rid, WithAnonLink(s, rid, random, link, title, now);
            && (exists m :: m in s'.anon && m.rid == id)
            && s'.anon == (if exists m :: m in s.anon && m.rid == id then s.anon
                           else s.anon + [Msg(NOBODY, NOBODY, id, now, title, "", 0, link, 1)])
            && (rid != NOBODY ==> s'.data == s.data)
            && (rid == NOBODY ==>
                  && s'.data.Keys == s.data.Keys + {random}
                  && (random !in s.data ==> s'.data[random].comments == [] && s'.data[random].link == link)
                  && (random in s.data ==> s'.data == s.data))
            && (s'.anon != s.anon ==> s'.republishFriends)
  {
    var id := if rid == NOBODY then random else rid;
    var m := Msg(NOBODY, NOBODY, id, now, title, "", 0, link, 1);
    var s1, s' := if rid == NOBODY then WithMsg(s, m, now) else s, WithAnonLink(s, rid, random, link, title, now);
    assert s' == WithAnon(s1, m) && s1.anon == s.anon;
    if exists x :: x in s.anon && x.rid == id {
      var x :| x in s.anon && x.rid == id;
      var i :| 0 <= i < |s.anon| && s.anon[i] == x;
    } else {
      assert m in s'.anon;
    }
  }

  // ------------------------------------------------------------ reading and publishing

  /** A new service knows no link, and ranks by score and time over thirty days, without a filter. */
  lemma FreshIsEmpty(own: Id)
    ensures var s := Fresh(own);
            && s.own == own && s.data == map[] && s.index == [] && s.anon == []
            && s.params.filter == [] && s.params.period == 30 * 24 * 60 * 60 && s.params.sortType == 3
            && !s.republish && !s.republishFriends && s.friendsTS == 0 && MaxRank(s.index) == 0.0
  {
  }

  /** A page has the links from the one asked for on, by falling rank, as many as asked for or there are. */
  lemma PageMeans(ix: Index, first: nat, count: nat)
    ensures var page := Page(ix, first, count);
            && |page| == (if first >= |ix| then 0 else if first + count <= |ix| then count else |ix| - first)
            && forall i :: 0 <= i < |page| ==> page[i] == ix[|ix| - 1 - (first + i)].1
  {
  }

  /** A friend's recommendation is passed on with its link, title and time, and nothing else. */
  lemma SanitisedKeeps(m: Msg)
    ensures Sanitised(m) == Msg(0, 0, m.rid, m.timestamp, m.title, "", 0, m.link, 0)
  {
  }

  /** A tick publishes what is marked, the friends' file only after its minute, and clears those marks. */
  lemma TickPublishes(s: Store, now: int)
    ensures var s', ps := Ticked(s, now), Publications(s, now);
            var due := s.republishFriends && now > s.friendsTS;
            && !s'.republish && s'.republishFriends == (s.republishFriends && !due)
            && s'.friendsTS == (if due then now + 60 else s.friendsTS)
            && s' == s.(republish := false, republishFriends := s'.republishFriends, friendsTS := s'.friendsTS)
            && (Publication(true, OwnFile(s)) in ps <==> s.republish && OwnFile(s) != [])
            && (Publication(false, FriendsFile(s)) in ps <==> due && FriendsFile(s) != [])
            && (forall p :: p in ps ==> p.msgs == if p.mine then OwnFile(s) else FriendsFile(s))
  {
  }
}
