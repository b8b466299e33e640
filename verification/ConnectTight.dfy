/**
 The bound on attempts is exact: a relay request whose n proxies all answer that
 they are overloaded tries each of them in turn, again and again, and makes
 3n + 1 attempts.
 */
module ConnectTight {
  import opened ConnectCodes
  import opened ConnectNode
  import opened ConnectSteps
  import opened ConnectInvariant
  import opened ConnectRuns
  import opened ConnectRequests
  import opened ConnectAttempts
  import opened ConnectBudget

  const OWN: NodeId := 1
  const TARGET: NodeId := 2
  const BUSY := Code(Overloaded, SourceMid, 0)

  function Start(): Node { Node(OWN, {Relay}, true, RelayOff, map[], map[]) }

  /** n proxies with ids above those of the two ends. */
  function Peers(n: nat): (ps: seq<PeerId>)
    ensures |ps| == n && forall p :: p in ps ==> p.id > TARGET
  {
    seq(n, i requires 0 <= i < n => PeerId(3 + i, NO_ADDR))
  }

  function AskFor(n: nat): Input { Ask(NO_ADDR, TARGET, Relay, 0, Candidates([], [], [], [], [], Peers(n))) }

  /** The request has n proxies to try, c of its attempts were given back, and nothing else is going on. */
  ghost predicate Waits(x: Node, n: nat, c: nat, state: ReqState) {
    && x.own == OWN && x.allowed == {Relay} && x.conns == map[] && x.reqs.Keys == {TARGET}
    && var r := x.reqs[TARGET];
       && r.target == TARGET && r.mode == Relay && r.state == state && r.recycled == c
       && |r.good| == n && forall e :: e in r.good ==> e.id.id > TARGET
  }

  lemma Entered(n: nat)
    ensures var good := Entries(Peers(n), SpaceFriend); |good| == n && forall e :: e in good ==> e.id.id > TARGET
  {
    var good := Entries(Peers(n), SpaceFriend);
    forall e | e in good
      ensures e.id.id > TARGET
    {
      var i :| 0 <= i < n && good[i] == e;
      assert Peers(n)[i] in Peers(n);
    }
  }

  lemma AskedRequest(n: nat)
    ensures var r := ProxyRequest(TARGET, NO_ADDR, Relay, 0, RelayOff, AskFor(n).cs, 0);
            && r.good == Entries(Peers(n), SpaceFriend) && r.target == TARGET && r.mode == Relay && r.recycled == 0
            && r.state == (if n < MIN_START_PROXY_COUNT then Paused else Ready) && r.pauseTS <= 10
  {
    assert Entries([], QueryProxy) == [];
  }

  lemma Asked(n: nat)
    requires n > 0
    ensures var x := Step(Start(), AskFor(n), 0).node;
            Waits(x, n, 0, if n < MIN_START_PROXY_COUNT then Paused else Ready) && x.reqs[TARGET].pauseTS <= 10
  {
    Entered(n);
    AskedRequest(n);
    var x := Step(Start(), AskFor(n), 0).node;
    assert x.reqs == map[TARGET := ProxyRequest(TARGET, NO_ADDR, Relay, 0, RelayOff, AskFor(n).cs, 0)];
  }

  /** A pause ends while there are proxies and few were recycled. */
  lemma PauseEnds(x: Node, n: nat, c: nat, now: int)
    requires Waits(x, n, c, Paused) && n > 0 && c <= 3 * n && now > x.reqs[TARGET].pauseTS
    ensures var i := Clock([TARGET], []);
            && InputOk(x, i, now) && Waits(Step(x, i, now).node, n, c, Ready)
            && Count(Step(x, i, now).cbs, Attempt, TARGET) == 0
            && Step(x, i, now).node.reqs[TARGET].pauseTS == x.reqs[TARGET].pauseTS
  {
    var i := Clock([TARGET], []);
    assert i.reqOrder[..0] == [];
    assert TickRequests(x, [], now) == Quiet(x);
    var mid := TickRequest(x, TARGET, now);
    assert TickRequests(x, i.reqOrder, now) == Then(Quiet(x), mid);
  }

  /** The first proxy is tried. */
  lemma TryStarts(x: Node, n: nat, c: nat, now: int) returns (k: Tuple)
    requires Waits(x, n, c, Ready) && n > 0
    ensures var i := Clock([TARGET], [k]);
            && InputOk(x, i, now) && Count(Step(x, i, now).cbs, Attempt, TARGET) == 1
            && Tries(Step(x, i, now).node, n, c, k, now)
  {
    var r := x.reqs[TARGET];
    assert r.good[0] in r.good;
    k := Tuple(OWN, r.good[0].id.id, TARGET);
    var i := Clock([TARGET], [k]);
    assert i.reqOrder[..0] == [] && i.connOrder[..0] == [];
    assert TickRequests(x, [], now) == Quiet(x);
    var mid := StartRequest(x, TARGET, now);
    assert TickRequests(x, i.reqOrder, now) == Then(Quiet(x), mid);
    assert mid.node.conns.Keys == {k};
    assert TickOutput(mid.node, [], now) == Quiet(mid.node);
    assert mid.cbs == [mid.cbs[0]];
    CountOne(mid.cbs[0], Attempt, TARGET);
    assert Step(x, i, now).cbs == mid.cbs;
  }

  /** The attempt k is under way. */
  ghost predicate Tries(x: Node, n: nat, c: nat, k: Tuple, now: int) {
    && x.own == OWN && x.allowed == {Relay} && x.conns.Keys == {k} && k.src == OWN && k.dest == TARGET
    && k.proxy > TARGET
    && RecordOk(OWN, k, x.conns[k]) && x.conns[k].mode == Relay && x.conns[k].point == StartPoint
    && x.reqs.Keys == {TARGET}
    && var r := x.reqs[TARGET];
       && r.target == TARGET && r.mode == Relay && r.state == InProgress && r.recycled == c && r.current.id == k.proxy
       && |r.good| == n - 1 && forall e :: e in r.good ==> e.id.id > TARGET
  }

  function Overload(k: Tuple): Input {
    Recv(Msg(PeerId(k.proxy, NO_ADDR), MsgReply, PeerId(k.src, NO_ADDR), PeerId(k.dest, NO_ADDR), Relay, 0, BUSY), None)
  }

  /** The proxy is overloaded, and goes to the end of the list. */
  lemma TryComesBack(x: Node, n: nat, c: nat, k: Tuple, now: int)
    requires n > 0 && Tries(x, n, c, k, now)
    ensures InputOk(x, Overload(k), now)
    ensures var out := Step(x, Overload(k), now);
            && Waits(out.node, n, c + 1, Paused) && out.node.reqs[TARGET].pauseTS == now + 1
            && Count(out.cbs, Attempt, TARGET) == 0
  {
    var out := Step(x, Overload(k), now);
    assert KeyOf(x, Overload(k).m) == k;
    assert out.cbs == [out.cbs[0]];
    CountOne(out.cbs[0], Attempt, TARGET);
  }

  // ------------------------------------------------------------ the run

  lemma OneMore(es: seq<Event>, e: Event)
    requires Legal(Start(), es) && NeverCancelled(es) && !e.i.Cancel?
    requires InputOk(Run(Start(), es).node, e.i, e.now) && (es != [] ==> es[|es| - 1].now <= e.now)
    ensures var es', out := es + [e], Step(Run(Start(), es).node, e.i, e.now);
            && Legal(Start(), es') && NeverCancelled(es') && Run(Start(), es').node == out.node
            && (TARGET in Run(Start(), es).node.reqs && TARGET in out.node.reqs ==>
                  && Made(Start(), es', TARGET) == Made(Start(), es, TARGET) + Count(out.cbs, Attempt, TARGET)
                  && (!e.i.Offer? && !e.i.Alive? ==> Given(Start(), es', TARGET) == Given(Start(), es, TARGET)))
  {
    assert (es + [e])[..|es|] == es;
  }

  /** So far, c attempts, all given back, and now it is the next one's turn. */
  ghost predicate Gone(es: seq<Event>, n: nat, c: nat, state: ReqState) {
    && Legal(Start(), es) && NeverCancelled(es) && es != []
    && Waits(Run(Start(), es).node, n, c, state)
    && Run(Start(), es).node.reqs[TARGET].pauseTS <= es[|es| - 1].now + 10
    && Given(Start(), es, TARGET) == n && Made(Start(), es, TARGET) == c
  }

  lemma AskIsOk(n: nat)
    ensures InputOk(Start(), AskFor(n), 0)
  {
  }

  lemma FirstEvent(e: Event)
    requires InputOk(Start(), e.i, e.now) && !e.i.Cancel? && TARGET in Step(Start(), e.i, e.now).node.reqs
    ensures var x := Step(Start(), e.i, e.now).node;
            && Legal(Start(), [e]) && NeverCancelled([e]) && Run(Start(), [e]).node == x
            && Given(Start(), [e], TARGET) == |x.reqs[TARGET].good| && Made(Start(), [e], TARGET) == 0
  {
    assert [e][..0] == [];
    assert Run(Start(), []).node == Start();
  }

  lemma FirstAsk(n: nat) returns (es: seq<Event>)
    requires n > 0
    ensures Gone(es, n, 0, Paused) || Gone(es, n, 0, Ready)
  {
    var e := Event(AskFor(n), 0);
    AskIsOk(n);
    Asked(n);
    FirstEvent(e);
    es := [e];
  }

  lemma Unpause(es: seq<Event>, n: nat, c: nat) returns (es': seq<Event>)
    requires Gone(es, n, c, Paused) && n > 0 && c <= 3 * n
    ensures Gone(es', n, c, Ready)
  {
    var x, now := Run(Start(), es).node, es[|es| - 1].now + 11;
    var e := Event(Clock([TARGET], []), now);
    PauseEnds(x, n, c, now);
    OneMore(es, e);
    es' := es + [e];
    assert Run(Start(), es').node == Step(x, e.i, now).node;
  }

  lemma Try(es: seq<Event>, n: nat, c: nat) returns (es': seq<Event>, k: Tuple)
    requires Gone(es, n, c, Ready) && n > 0
    ensures Legal(Start(), es') && NeverCancelled(es') && es' != []
    ensures Tries(Run(Start(), es').node, n, c, k, es'[|es'| - 1].now)
    ensures Given(Start(), es', TARGET) == n && Made(Start(), es', TARGET) == c + 1
  {
    var x, now := Run(Start(), es).node, es[|es| - 1].now;
    k := TryStarts(x, n, c, now);
    OneMore(es, Event(Clock([TARGET], [k]), now));
    es' := es + [Event(Clock([TARGET], [k]), now)];
  }

  lemma GiveBack(es: seq<Event>, n: nat, c: nat, k: Tuple) returns (es': seq<Event>)
    requires Legal(Start(), es) && NeverCancelled(es) && es != [] && n > 0
    requires Tries(Run(Start(), es).node, n, c, k, es[|es| - 1].now)
    requires Given(Start(), es, TARGET) == n && Made(Start(), es, TARGET) == c + 1
    ensures Gone(es', n, c + 1, Paused)
  {
    var x, now := Run(Start(), es).node, es[|es| - 1].now;
    TryComesBack(x, n, c, k, now);
    OneMore(es, Event(Overload(k), now));
    es' := es + [Event(Overload(k), now)];
  }

  lemma {:induction false} Turns(n: nat, c: nat) returns (es: seq<Event>)
    requires n > 0 && c <= 3 * n
    ensures Gone(es, n, c, Ready)
  {
    if c == 0 {
      es := FirstAsk(n);
      if Gone(es, n, 0, Paused) {
        es := Unpause(es, n, 0);
      }
    } else {
      var k;
      es := Turns(n, c - 1);
      es, k := Try(es, n, c - 1);
      es := GiveBack(es, n, c - 1, k);
      es := Unpause(es, n, c);
    }
  }

  /** For every number of proxies there is a run that makes 3n + 1 attempts. */
  lemma BoundIsAttained(n: nat)
    requires n > 0
    ensures exists es :: Legal(Start(), es) && NeverCancelled(es) && TARGET in Run(Start(), es).node.reqs
                         && Given(Start(), es, TARGET) == n && Made(Start(), es, TARGET) == 3 * n + 1
    ensures Fresh(Start())
  {
    var es := Turns(n, 3 * n);
    var es', _ := Try(es, n, 3 * n);
  }
}
