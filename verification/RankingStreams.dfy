/**
 The two streams the ranking service publishes: our own comments, and for our
 friends the links that only others commented on, without saying who did.
 */
module RankingStreams {
  import opened Ranking
  import opened RankingTheorems

  function Sanitised(m: Msg): Msg { Msg(NOBODY, NOBODY, m.rid, m.timestamp, m.title, "", 0, m.link, 0) }

  /** What the own file says about one link. */
  function OwnPart(g: Group, own: Id): seq<Msg> { if g.ownTag then CommentOf(g.comments, own) else [] }

  /** What the friends' file says about one link. */
  function FriendPart(g: Group): seq<Msg> {
    if g.ownTag || g.comments == [] then [] else [Sanitised(g.comments[0].1)]
  }

  function OwnStream(data: map<Id, Group>, own: Id, todo: set<Id>): seq<Msg>
    requires todo <= data.Keys
    decreases |todo|
  {
    if todo == {} then [] else var rid := First(todo); OwnPart(data[rid], own) + OwnStream(data, own, todo - {rid})
  }

  function FriendStream(data: map<Id, Group>, todo: set<Id>): seq<Msg>
    requires todo <= data.Keys
    decreases |todo|
  {
    if todo == {} then [] else var rid := First(todo); FriendPart(data[rid]) + FriendStream(data, todo - {rid})
  }

  /** publishMsgs(true) and publishMsgs(false). */
  function OwnFile(s: Store): seq<Msg> { OwnStream(s.data, s.own, s.data.Keys) }

  function FriendsFile(s: Store): seq<Msg> { FriendStream(s.data, s.data.Keys) + s.anon }

  /** The messages about one link. */
  function About(ms: seq<Msg>, rid: Id): seq<Msg> {
    if ms == [] then [] else (if ms[0].rid == rid then [ms[0]] else []) + About(ms[1..], rid)
  }

  lemma {:induction false} AboutConcat(a: seq<Msg>, b: seq<Msg>, rid: Id)
    ensures About(a + b, rid) == About(a, rid) + About(b, rid)
  {
    if a == [] {
      assert a + b == b;
    } else {
      assert (a + b)[0] == a[0] && (a + b)[1..] == a[1..] + b;
      AboutConcat(a[1..], b, rid);
    }
  }

  lemma AboutParts(own: Id, at: Id, g: Group, rid: Id)
    requires GroupOk(own, at, g)
    ensures About(OwnPart(g, own), rid) == if at == rid then OwnPart(g, own) else []
    ensures About(FriendPart(g), rid) == if at == rid then FriendPart(g) else []
  {
    var o := OwnPart(g, own);
    assert |o| <= 1 && forall m :: m in o ==> m.rid == at;
    if o != [] {
      assert o[0] in o;
      assert o == [o[0]] && About(o[1..], rid) == [];
    }
    if FriendPart(g) != [] {
      assert g.comments[0] in g.comments;
    }
  }

  lemma {:induction false} AboutStreams(s: Store, todo: set<Id>, rid: Id)
    requires GroupsOk(s) && todo <= s.data.Keys
    ensures About(OwnStream(s.data, s.own, todo), rid) == if rid in todo then OwnPart(s.data[rid], s.own) else []
    ensures About(FriendStream(s.data, todo), rid) == if rid in todo then FriendPart(s.data[rid]) else []
    decreases |todo|
  {
    if todo != {} {
      var at := First(todo);
      var rest := todo - {at};
      AboutStreams(s, rest, rid);
      AboutParts(s.own, at, s.data[at], rid);
      AboutConcat(OwnPart(s.data[at], s.own), OwnStream(s.data, s.own, rest), rid);
      AboutConcat(FriendPart(s.data[at]), FriendStream(s.data, rest), rid);
    }
  }

  lemma OwnComment(own: Id, rid: Id, g: Group)
    requires GroupOk(own, rid, g)
    ensures g.ownTag <==> CommentOf(g.comments, own) != []
  {
  }

  ghost predicate IsCommented(s: Store, rid: Id) { rid in s.data && s.data[rid].comments != [] }

  ghost predicate IsOwn(s: Store, rid: Id) { rid in s.data && HasComment(s.data[rid], s.own) }

  /** In every run each commented link, and no other, is put out once: our own
      comment by the own loop if we made one, and otherwise a sanitised copy of
      the first comment by the friends' loop. */
  lemma PublicationSplits(own: Id, ops: seq<(Op, nat)>, rid: Id)
    requires own != NOBODY
    ensures var s := RunOps(own, ops);
            var mine, theirs := About(OwnFile(s), rid), About(FriendStream(s.data, s.data.Keys), rid);
            && |mine| + |theirs| == (if IsCommented(s, rid) then 1 else 0)
            && (mine != [] <==> IsOwn(s, rid))
            && (IsOwn(s, rid) ==> mine == CommentOf(s.data[rid].comments, own))
            && (theirs != [] ==> theirs == [Sanitised(s.data[rid].comments[0].1)])
  {
    var s := RunOps(own, ops);
    RunOk(own, ops);
    AboutStreams(s, s.data.Keys, rid);
    if rid in s.data {
      OwnComment(own, rid, s.data[rid]);
    }
  }

  lemma {:induction false} FriendStreamAnonymous(data: map<Id, Group>, todo: set<Id>)
    requires todo <= data.Keys
    ensures forall m :: m in FriendStream(data, todo) ==> Anonymous(m)
    decreases |todo|
  {
    if todo != {} {
      FriendStreamAnonymous(data, todo - {First(todo)});
    }
  }

  /** In every run the friends' file, anonymous list included, names nobody and
      carries no comment and no score. */
  lemma FriendsFileIsAnonymous(own: Id, ops: seq<(Op, nat)>)
    requires own != NOBODY
    ensures forall m :: m in FriendsFile(RunOps(own, ops)) ==> Anonymous(m)
  {
    RunOk(own, ops);
    var s := RunOps(own, ops);
    FriendStreamAnonymous(s.data, s.data.Keys);
  }

  // ------------------------------------------------------------ what a message changes

  function CommentsOn(s: Store, rid: Id, p: Id): seq<Msg> {
    if rid in s.data then CommentOf(s.data[rid].comments, p) else []
  }

  lemma {:induction false} CommentOfMember(cs: seq<(Id, Msg)>, p: Id, m: Msg)
    requires ByPeer(cs)
    ensures CommentOf(cs, p) == [m] <==> (p, m) in cs
  {
    if cs != [] {
      assert cs == [cs[0]] + cs[1..];
      CommentOfMember(cs[1..], p, m);
    }
  }

  lemma CommentOfWith(cs: seq<(Id, Msg)>, id: Id, m: Msg, p: Id)
    requires ByPeer(cs)
    ensures CommentOf(WithComment(cs, id, m), p) == if p == id then [m] else CommentOf(cs, p)
  {
    var r := WithComment(cs, id, m);
    WithCommentMeans(cs, id, m);
    if p == id {
      CommentOfMember(r, p, m);
    } else if CommentOf(r, p) != [] {
      var x := CommentOf(r, p)[0];
      CommentOfMember(r, p, x);
      CommentOfMember(cs, p, x);
    }
  }

  /** A message becomes its sender's comment on its link if he had none, or one of
      another time or text; a new score alone is ignored.  No other comment
      changes. */
  lemma WithMsgComments(s: Store, m: Msg, now: int, rid: Id, p: Id)
    requires GroupsOk(s) && p != NOBODY
    ensures var known := CommentsOn(s, rid, p);
            CommentsOn(WithMsg(s, m, now), rid, p)
            == if rid == m.rid && p == m.peer
                  && (known == [] || known[0].timestamp != m.timestamp || known[0].comment != m.comment)
               then [m] else known
  {
    WithMsgChanges(s, m, now);
    if rid == m.rid && m.peer != NOBODY {
      var g := WithLink(s, m).data[rid];
      assert ByPeer(g.comments);
      CommentOfWith(g.comments, m.peer, m, p);
    }
  }

  // ------------------------------------------------------------ what asks for a new publication

  lemma {:induction false} SameOwnStream(a: map<Id, Group>, b: map<Id, Group>, own: Id, todo: set<Id>)
    requires todo <= a.Keys && todo <= b.Keys
    requires forall rid :: rid in todo ==> OwnPart(a[rid], own) == OwnPart(b[rid], own)
    ensures OwnStream(a, own, todo) == OwnStream(b, own, todo)
    decreases |todo|
  {
    if todo != {} {
      SameOwnStream(a, b, own, todo - {First(todo)});
    }
  }

  lemma {:induction false} SameFriendStream(a: map<Id, Group>, b: map<Id, Group>, todo: set<Id>)
    requires todo <= a.Keys && todo <= b.Keys
    requires forall rid :: rid in todo ==> FriendPart(a[rid]) == FriendPart(b[rid])
    ensures FriendStream(a, todo) == FriendStream(b, todo)
    decreases |todo|
  {
    if todo != {} {
      SameFriendStream(a, b, todo - {First(todo)});
    }
  }

  lemma FirstOfRest(todo: set<Id>, rid: Id)
    requires rid in todo && First(todo) != rid
    ensures todo - {rid} != {} && First(todo - {rid}) == First(todo)
    ensures todo - {rid} - {First(todo)} == todo - {First(todo)} - {rid}
  {
    assert First(todo) in todo - {rid};
  }

  lemma {:induction false} SilentLink(data: map<Id, Group>, own: Id, todo: set<Id>, rid: Id)
    requires todo <= data.Keys && rid in todo
    ensures OwnPart(data[rid], own) == [] ==> OwnStream(data, own, todo) == OwnStream(data, own, todo - {rid})
    ensures FriendPart(data[rid]) == [] ==> FriendStream(data, todo) == FriendStream(data, todo - {rid})
    decreases |todo|
  {
    if First(todo) != rid {
      FirstOfRest(todo, rid);
      SilentLink(data, own, todo - {First(todo)}, rid);
    }
  }

  /** What each file says about one link. */
  function OwnOn(s: Store, rid: Id): seq<Msg> { if rid in s.data then OwnPart(s.data[rid], s.own) else [] }

  function FriendOn(s: Store, rid: Id): seq<Msg> { if rid in s.data then FriendPart(s.data[rid]) else [] }

  lemma SameFiles(s: Store, s': Store, at: Id)
    requires s.own == s'.own && s.anon == s'.anon && s'.data.Keys == s.data.Keys + {at}
    requires forall rid :: rid in s.data && rid != at ==> s'.data[rid] == s.data[rid]
    ensures OwnOn(s, at) == OwnOn(s', at) ==> OwnFile(s) == OwnFile(s')
    ensures FriendOn(s, at) == FriendOn(s', at) ==> FriendsFile(s) == FriendsFile(s')
  {
    if at !in s.data {
      SilentLink(s'.data, s.own, s'.data.Keys, at);
      assert s'.data.Keys - {at} == s.data.Keys;
    } else {
      assert s'.data.Keys == s.data.Keys;
    }
    if OwnOn(s, at) == OwnOn(s', at) { SameOwnStream(s.data, s'.data, s.own, s.data.Keys); }
    if FriendOn(s, at) == FriendOn(s', at) { SameFriendStream(s.data, s'.data, s.data.Keys); }
  }

  lemma FriendsFileSays(s: Store, rid: Id)
    requires GroupsOk(s)
    ensures About(FriendsFile(s), rid) == FriendOn(s, rid) + About(s.anon, rid)
  {
    AboutStreams(s, s.data.Keys, rid);
    AboutConcat(FriendStream(s.data, s.data.Keys), s.anon, rid);
  }

  /** Every message that changes the own file asks for it to be published again. */
  lemma OwnFileIsRepublished(s: Store, m: Msg, now: int)
    requires StoreOk(s) && OwnFile(WithMsg(s, m, now)) != OwnFile(s)
    ensures WithMsg(s, m, now).republish
  {
    var s' := WithMsg(s, m, now);
    WithMsgChanges(s, m, now);
    SameFiles(s, s', m.rid);
    WithMsgComments(s, m, now, m.rid, s.own);
  }

  /** Our first comment on a link that others commented on. */
  predicate TakesOver(s: Store, m: Msg) {
    m.peer == s.own && m.rid in s.data && s.data[m.rid].comments != [] && !s.data[m.rid].ownTag
  }

  lemma FriendOnChanges(s: Store, m: Msg, now: int)
    requires StoreOk(s) && !s.republishFriends
    ensures var s' := WithMsg(s, m, now);
            FriendOn(s', m.rid) != FriendOn(s, m.rid) && !s'.republishFriends <==> TakesOver(s, m)
  {
    if m.rid in s.data { OwnComment(s.own, m.rid, s.data[m.rid]); }
  }

  /** The friends' file can change without being published again, and does exactly
      when we take a link over from it. */
  lemma FriendsFileIsRepublishedIff(s: Store, m: Msg, now: int)
    requires StoreOk(s) && !s.republishFriends
    ensures var s' := WithMsg(s, m, now);
            FriendsFile(s') != FriendsFile(s) && !s'.republishFriends <==> TakesOver(s, m)
  {
    var s' := WithMsg(s, m, now);
    WithMsgChanges(s, m, now);
    SameFiles(s, s', m.rid);
    FriendOnChanges(s, m, now);
    if TakesOver(s, m) {
      WithMsgGroups(s, m, now);
      FriendsFileSays(s, m.rid);
      FriendsFileSays(s', m.rid);
      assert FriendOn(s, m.rid) != FriendOn(s', m.rid);
    }
  }

  // ------------------------------------------------------------ what has been published

  datatype Publication = Publication(mine: bool, msgs: seq<Msg>)

  /** A file without messages is written, but does not replace the one that is in force. */
  function Refresh(mine: bool, msgs: seq<Msg>): seq<Publication> {
    if msgs == [] then [] else [Publication(mine, msgs)]
  }

  /** What tick publishes. */
  function Publications(s: Store, now: int): seq<Publication> {
    (if s.republish then Refresh(true, OwnFile(s)) else []) +
    (if FriendsDue(s, now) then Refresh(false, FriendsFile(s)) else [])
  }

  /** The files in force: those last published, and empty ones before that. */
  datatype Files = Files(mine: seq<Msg>, friends: seq<Msg>)

  function Replaced(f: Files, ps: seq<Publication>): Files {
    if ps == [] then f
    else
      var f' := Replaced(f, ps[..|ps| - 1]);
      var p := ps[|ps| - 1];
      if p.mine then f'.(mine := p.msgs) else f'.(friends := p.msgs)
  }

  function InForce(own: Id, ops: seq<(Op, nat)>): Files {
    if ops == [] then Files([], [])
    else
      var f := InForce(own, ops[..|ops| - 1]);
      if ops[|ops| - 1].0.Tick? then Replaced(f, Publications(RunOps(own, ops[..|ops| - 1]), ops[|ops| - 1].1)) else f
  }

  lemma ReplacedByTick(f: Files, s: Store, now: int)
    ensures Replaced(f, Publications(s, now)) ==
            Files(if s.republish && OwnFile(s) != [] then OwnFile(s) else f.mine,
                  if FriendsDue(s, now) && FriendsFile(s) != [] then FriendsFile(s) else f.friends)
  {
    var mine, friends := Publication(true, OwnFile(s)), Publication(false, FriendsFile(s));
    assert [mine][..0] == [] && [friends][..0] == [];
    assert [mine, friends][..1] == [mine] && [mine] + [friends] == [mine, friends];
  }

  // ------------------------------------------------------------ our comments stay

  ghost predicate Tagged(s: Store) { exists rid :: rid in s.data && s.data[rid].ownTag }

  lemma TaggedHasFile(s: Store)
    requires GroupsOk(s) && Tagged(s)
    ensures OwnFile(s) != []
  {
    var rid :| rid in s.data && s.data[rid].ownTag;
    AboutStreams(s, s.data.Keys, rid);
    OwnComment(s.own, rid, s.data[rid]);
  }

  lemma MsgTags(s: Store, m: Msg, now: int)
    requires s.republish ==> Tagged(s)
    ensures Tagged(s) ==> Tagged(WithMsg(s, m, now))
    ensures WithMsg(s, m, now).republish ==> Tagged(WithMsg(s, m, now))
  {
    var s' := WithMsg(s, m, now);
    WithMsgChanges(s, m, now);
    if Tagged(s) {
      var rid :| rid in s.data && s.data[rid].ownTag;
      assert s'.data[rid].ownTag;
    } else if s'.republish {
      assert s'.data[m.rid].ownTag;
    }
  }

  lemma {:induction false} FileTags(s: Store, ms: seq<Msg>, period: int, now: int)
    requires s.republish ==> Tagged(s)
    ensures FromFile(s, ms, period, now).republish ==> Tagged(FromFile(s, ms, period, now))
  {
    if ms != [] {
      var m := ms[|ms| - 1];
      FileTags(s, ms[..|ms| - 1], period, now);
      MsgTags(FromFile(s, ms[..|ms| - 1], period, now), m.(peer := m.pid), now);
    }
  }

  lemma {:induction false} ConfigTags(s: Store, ms: seq<Msg>, period: int, now: int)
    requires s.republish ==> Tagged(s)
    ensures Loaded(s, ms, period, now).republish ==> Tagged(Loaded(s, ms, period, now))
  {
    if ms != [] {
      var m := ms[|ms| - 1];
      var s1 := Loaded(s, ms[..|ms| - 1], period, now);
      ConfigTags(s, ms[..|ms| - 1], period, now);
      MsgTags(s1, m.(peer := NOBODY, pid := NOBODY), now);
      assert Loaded(s, ms, period, now).data == WithMsg(s1, m.(peer := NOBODY, pid := NOBODY), now).data
             || Loaded(s, ms, period, now) == s1;
    }
  }

  lemma SortTags(s: Store, p: Params, now: int)
    requires s.republish ==> Tagged(s)
    ensures var s' := SortedAll(s.(params := p), now); s'.republish ==> Tagged(s')
  {
    if s.republish {
      var rid :| rid in s.data && s.data[rid].ownTag;
      assert SortedAll(s.(params := p), now).data[rid].ownTag;
    }
  }

  lemma AppliedTags(s: Store, op: Op, now: nat)
    requires s.republish ==> Tagged(s)
    ensures Applied(s, op, now).republish ==> Tagged(Applied(s, op, now))
  {
    match op
    case Tick =>
    case NewLink(rid, link, title, comment, score) =>
      MsgTags(s, OwnMsg(s.own, rid, link, title, comment, score, now), now);
    case Comment(rid, comment, score) =>
      if rid in s.data {
        MsgTags(s, OwnMsg(s.own, rid, s.data[rid].link, s.data[rid].title, comment, score, now), now);
      }
    case Anon(rid, random, link, title) =>
      MsgTags(s, AnonMsg(if rid == NOBODY then random else rid, link, title, now, LINK_TYPE_WEB), now);
    case File(msgs, period) => FileTags(s, msgs, period, now);
    case Config(msgs, period) => ConfigTags(s, msgs, period, now);
    case Period(period) => SortTags(s, s.params.(period := period), now);
    case Method(sortType) => SortTags(s, s.params.(sortType := sortType), now);
    case Filter(peers) => SortTags(s, s.params.(filter := peers), now);
    case NoFilter => SortTags(s, s.params.(filter := []), now);
  }

  /** Unless it is to be published again, the own file in force is this one. */
  ghost predicate UpToDate(s: Store, mine: seq<Msg>) { !s.republish ==> mine == OwnFile(s) }

  lemma MsgUpToDate(s: Store, m: Msg, now: int, mine: seq<Msg>)
    requires StoreOk(s) && UpToDate(s, mine)
    ensures UpToDate(WithMsg(s, m, now), mine)
  {
    if OwnFile(WithMsg(s, m, now)) != OwnFile(s) {
      OwnFileIsRepublished(s, m, now);
    }
  }

  lemma SortUpToDate(s: Store, p: Params, now: int, mine: seq<Msg>)
    requires UpToDate(s, mine)
    ensures UpToDate(SortedAll(s.(params := p), now), mine)
  {
    var s' := SortedAll(s.(params := p), now);
    assert s'.data.Keys == s.data.Keys;
    SameOwnStream(s.data, s'.data, s.own, s.data.Keys);
  }

  lemma {:induction false} FileUpToDate(s: Store, ms: seq<Msg>, period: int, now: int, mine: seq<Msg>)
    requires StoreOk(s) && UpToDate(s, mine)
    ensures UpToDate(FromFile(s, ms, period, now), mine)
  {
    if ms != [] {
      var m := ms[|ms| - 1];
      FileUpToDate(s, ms[..|ms| - 1], period, now, mine);
      FromFileOk(s, ms[..|ms| - 1], period, now);
      MsgUpToDate(FromFile(s, ms[..|ms| - 1], period, now), m.(peer := m.pid), now, mine);
    }
  }

  lemma {:induction false} ConfigUpToDate(s: Store, ms: seq<Msg>, period: int, now: int, mine: seq<Msg>)
    requires StoreOk(s) && UpToDate(s, mine)
    ensures UpToDate(Loaded(s, ms, period, now), mine)
  {
    if ms != [] {
      var m := ms[|ms| - 1];
      ConfigUpToDate(s, ms[..|ms| - 1], period, now, mine);
      LoadedOk(s, ms[..|ms| - 1], period, now);
      MsgUpToDate(Loaded(s, ms[..|ms| - 1], period, now), m.(peer := NOBODY, pid := NOBODY), now, mine);
    }
  }

  lemma AnonUpToDate(s: Store, op: Op, now: nat, mine: seq<Msg>)
    requires StoreOk(s) && UpToDate(s, mine) && op.Anon?
    ensures UpToDate(Applied(s, op, now), mine)
  {
    var m := AnonMsg(if op.rid == NOBODY then op.random else op.rid, op.link, op.title, now, LINK_TYPE_WEB);
    var s1 := if op.rid == NOBODY then WithMsg(s, m, now) else s;
    MsgUpToDate(s, m, now, mine);
    assert OwnFile(WithAnon(s1, m)) == OwnFile(s1);
  }

  lemma OursUpToDate(s: Store, op: Op, now: nat, mine: seq<Msg>)
    requires StoreOk(s) && UpToDate(s, mine) && (op.NewLink? || op.Comment?)
    ensures UpToDate(Applied(s, op, now), mine)
  {
    if op.NewLink? {
      MsgUpToDate(s, OwnMsg(s.own, op.rid, op.link, op.title, op.comment, op.score, now), now, mine);
    } else if op.rid in s.data {
      var g := s.data[op.rid];
      MsgUpToDate(s, OwnMsg(s.own, op.rid, g.link, g.title, op.comment, op.score, now), now, mine);
    }
  }

  lemma AppliedUpToDate(s: Store, op: Op, now: nat, mine: seq<Msg>)
    requires StoreOk(s) && UpToDate(s, mine) && !op.Tick?
    ensures UpToDate(Applied(s, op, now), mine)
  {
    if op.NewLink? || op.Comment? {
      OursUpToDate(s, op, now, mine);
    } else if op.Anon? {
      AnonUpToDate(s, op, now, mine);
    } else if op.File? {
      FileUpToDate(s, op.msgs, op.period, now, mine);
    } else if op.Config? {
      ConfigUpToDate(s, op.msgs, op.period, now, mine);
    } else {
      SettingsUpToDate(s, op, now, mine);
    }
  }

  lemma SettingsUpToDate(s: Store, op: Op, now: nat, mine: seq<Msg>)
    requires UpToDate(s, mine) && (op.Period? || op.Method? || op.Filter? || op.NoFilter?)
    ensures UpToDate(Applied(s, op, now), mine)
  {
    match op
    case Period(period) => SortUpToDate(s, s.params.(period := period), now, mine);
    case Method(sortType) => SortUpToDate(s, s.params.(sortType := sortType), now, mine);
    case Filter(peers) => SortUpToDate(s, s.params.(filter := peers), now, mine);
    case NoFilter => SortUpToDate(s, s.params.(filter := []), now, mine);
  }

  /** No change of the own file is ever missed: in every run, at every moment, the own
      file in force is the present one or is to be published again at the next tick. */
  lemma {:induction false} OwnFileIsUpToDate(own: Id, ops: seq<(Op, nat)>)
    requires own != NOBODY
    ensures UpToDate(RunOps(own, ops), InForce(own, ops).mine)
    ensures RunOps(own, ops).republish ==> Tagged(RunOps(own, ops))
  {
    if ops != [] {
      var before, op := ops[..|ops| - 1], ops[|ops| - 1];
      var s := RunOps(own, before);
      OwnFileIsUpToDate(own, before);
      RunOk(own, before);
      AppliedTags(s, op.0, op.1);
      if op.0.Tick? {
        ReplacedByTick(InForce(own, before), s, op.1);
        if s.republish {
          TaggedHasFile(s);
        }
      } else {
        AppliedUpToDate(s, op.0, op.1, InForce(own, before).mine);
      }
    }
  }

  // ------------------------------------------------------------ a change of the friends' file that is missed

  lemma RunThen(own: Id, ops: seq<(Op, nat)>, op: (Op, nat))
    ensures RunOps(own, ops + [op]) == Applied(RunOps(own, ops), op.0, op.1)
    ensures InForce(own, ops + [op]) ==
            if op.0.Tick? then Replaced(InForce(own, ops), Publications(RunOps(own, ops), op.1)) else InForce(own, ops)
  {
    assert (ops + [op])[..|ops|] == ops;
  }

  /** A friend's comment on a link, received at time now. */
  function Hint(friend: Id, rid: Id, now: nat): Msg { Msg(friend, friend, rid, now, "t", "c", 1, "l", LINK_TYPE_WEB) }

  lemma HintArrives(own: Id, friend: Id, rid: Id, now: nat)
    requires friend != NOBODY && friend != own
    ensures var s := RunOps(own, [(File([Hint(friend, rid, now)], 100), now)]);
            && s.own == own && s.republishFriends && s.friendsTS == 0 && s.anon == [] && !s.republish
            && s.data.Keys == {rid} && !s.data[rid].ownTag && s.data[rid].comments == [(friend, Hint(friend, rid, now))]
    ensures InForce(own, [(File([Hint(friend, rid, now)], 100), now)]) == Files([], [])
  {
    var m := Hint(friend, rid, now);
    var op := (File([m], 100), now);
    assert [m][..0] == [] && FromFile(Fresh(own), [], 100, now) == Fresh(own);
    assert FromFile(Fresh(own), [m], 100, now) == WithMsg(Fresh(own), m, now);
    RunThen(own, [], op);
    assert [] + [op] == [op];
  }

  lemma OneLink(s: Store, rid: Id)
    requires s.data.Keys == {rid} && s.anon == []
    ensures FriendsFile(s) == FriendPart(s.data[rid])
  {
    assert First({rid}) == rid && {rid} - {rid} == {};
    assert FriendStream(s.data, {}) == [];
  }

  /** Such a moment comes: a friend's link is published, and then we comment on it.
      The friends' file in force still has it, the present one does not, and nothing
      is marked to be published: that waits for another change. */
  lemma TakeOverIsMissed(own: Id, friend: Id, rid: Id, now: nat, later: nat)
    requires own != NOBODY && friend != NOBODY && friend != own && now > 0
    ensures var ops := [(File([Hint(friend, rid, now)], 100), now), (Tick, now), (Comment(rid, "mine", 1), later)];
            var s := RunOps(own, ops);
            && !s.republishFriends && FriendsFile(s) == []
            && InForce(own, ops).friends == [Sanitised(Hint(friend, rid, now))]
            && !FriendsDue(s, later)
  {
    var o1, o2, o3 := (File([Hint(friend, rid, now)], 100), now), (Tick, now), (Comment(rid, "mine", 1), later);
    HintArrives(own, friend, rid, now);
    var s1 := RunOps(own, [o1]);
    RunThen(own, [o1], o2);
    assert [o1] + [o2] == [o1, o2] && [o1, o2] + [o3] == [o1, o2, o3];
    ReplacedByTick(Files([], []), s1, now);
    OneLink(s1, rid);
    var s2 := RunOps(own, [o1, o2]);
    RunThen(own, [o1, o2], o3);
    var s := RunOps(own, [o1, o2, o3]);
    OurComment(s2, friend, rid, later);
    OneLink(s, rid);
  }

  lemma OurComment(s: Store, friend: Id, rid: Id, now: nat)
    requires s.own != NOBODY && friend != s.own && s.data.Keys == {rid} && !s.data[rid].ownTag
    requires |s.data[rid].comments| == 1 && s.data[rid].comments[0].0 == friend
    ensures var s' := Applied(s, Comment(rid, "mine", 1), now);
            && s'.data.Keys == {rid} && s'.data[rid].ownTag && s'.anon == s.anon
            && s'.republishFriends == s.republishFriends
  {
    assert CommentOf(s.data[rid].comments, s.own) == [];
  }
}
