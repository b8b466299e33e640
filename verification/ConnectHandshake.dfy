/**
 The handshake works: from any state of a network in which a source is ready to
 try a proxy, the exchange of one REQUEST, one OKAY, one round of START and two
 acks, each delivered once, completes both ends between the same two addresses
 and finishes the proxy, whatever else the three nodes are doing.
 */
module ConnectHandshake {
  import opened ConnectCodes
  import opened ConnectNode
  import opened ConnectSteps
  import opened ConnectInvariant
  import opened ConnectRuns
  import opened ConnectSends
  import opened ConnectLaws
  import opened ConnectTicks
  import opened ConnectNetwork

  /** The three parties, the mode, and the addresses: the proxy as the source knows it,
      the source's own and as the proxy sees it, and the destination's as the proxy
      finds it and as its user names it. */
  datatype Plan = Plan(s: NodeId, p: NodeId, d: NodeId, mode: Mode, via: PeerId,
                       local: Addr, seen: Addr, found: Addr, offer: Addr, bandwidth: int, delay: int)
  {
    function Key(): Tuple { Tuple(s, p, d) }

    function Source(): PeerId { PeerId(s, local) }

    /** The two addresses in the end. */
    function SrcAddr(): PeerId { Known(Source(), seen) }

    function DestAddr(): PeerId { Known(PeerId(d, offer), found) }
  }

  /** When the eleven moves are made. */
  datatype Times = Times(ask: int, first: int, grant: int, second: int, agree: int, okay: int,
                         tick: int, startS: int, startD: int, ackS: int, ackD: int)

  /** In this order, the proxy's tick no later than twenty seconds after it took the OKAY. */
  predicate Timely(now: int, t: Times) {
    && now <= t.ask <= t.first <= t.grant <= t.second <= t.agree <= t.okay <= t.tick
    && t.tick <= t.startS <= t.startD <= t.ackS <= t.ackD
    && t.tick - t.okay <= 20 && t.tick > 3
  }

  // ------------------------------------------------------------ one node at a time

  /** Nothing stands in the way of the plan at node n. */
  ghost predicate Free(n: Node, pl: Plan) {
    && pl.mode in n.allowed && pl.Key() !in n.conns
    && !exists k :: k in n.conns && k.src == pl.d && k.dest == pl.s
  }

  ghost predicate CanAsk(n: Node, pl: Plan) {
    && Free(n, pl) && pl.d in n.reqs
    && var r := n.reqs[pl.d];
       r.state == Ready && r.mode == pl.mode && r.localAddr == pl.local && r.good != [] && r.good[0].id == pl.via
  }

  /** An end's record waits for START, with no addresses of its own to fall back to. */
  ghost predicate EndWaits(n: Node, pl: Plan, point: Point) {
    && Has(n, pl.Key(), point, WaitingStart)
    && var c := n.conns[pl.Key()];
       c.mode == pl.mode && c.src == Bare(pl.s) && c.dest == Bare(pl.d)
  }

  ghost predicate EndDone(n: Node, pl: Plan, point: Point) {
    && Has(n, pl.Key(), point, Completed)
    && var c := n.conns[pl.Key()];
       c.mode == pl.mode && c.srcAddr == Known(pl.SrcAddr(), NO_ADDR) && c.destAddr == Known(pl.DestAddr(), NO_ADDR)
  }

  ghost predicate DestAsks(n: Node, pl: Plan) {
    && Has(n, pl.Key(), EndPoint, WaitingAuth)
    && n.conns[pl.Key()].mode == pl.mode && n.conns[pl.Key()].proxy.id == pl.p
  }

  ghost predicate MidHas(n: Node, pl: Plan, state: ConnState) {
    && Has(n, pl.Key(), MidPoint, state)
    && var c := n.conns[pl.Key()];
       && c.mode == pl.mode && c.src == PeerId(pl.s, pl.seen) && c.dest == PeerId(pl.d, pl.found)
       && if state == WaitingAck then
            c.srcAddr == pl.SrcAddr() && c.destAddr == pl.DestAddr() && !c.srcAck && !c.destAck && c.retry <= 1
          else c.srcAddr == pl.Source()
  }

  // ------------------------------------------------------------ the messages

  predicate FirstRequest(q: Packet, pl: Plan) {
    q.from == pl.s && q.send == Send(pl.via, MsgRequest, pl.Source(), Bare(pl.d), pl.mode, q.send.param, OKAY)
  }

  predicate SecondRequest(q: Packet, pl: Plan) {
    q.from == pl.p && q.send == Send(PeerId(pl.d, pl.found), MsgRequest, pl.Source(), Bare(pl.d), pl.mode, 0, OKAY)
  }

  predicate Agreement(q: Packet, pl: Plan) {
    && q.from == pl.d && q.send.to.id == pl.p
    && q.send == Send(q.send.to, MsgReply, Bare(pl.s), PeerId(pl.d, pl.offer), pl.mode, q.send.param, OKAY)
  }

  predicate Go(q: Packet, pl: Plan, to: PeerId) {
    q.from == pl.p && q.send == Send(to, MsgStart, pl.SrcAddr(), pl.DestAddr(), pl.mode, q.send.param, OKAY)
  }

  predicate Acked(q: Packet, pl: Plan, from: NodeId) {
    && q.from == from && q.send.to.id == pl.p && q.send.kind == MsgAck
    && q.send.src.id == pl.s && q.send.dest.id == pl.d
  }

  // ------------------------------------------------------------ making moves

  /** A move changes one node, adds what it sends, and the clock goes on. */
  ghost predicate After(net: Net, mv: Move, net': Net) {
    && mv.x in net.nodes && net'.now == mv.now && net.sent <= net'.sent
    && net'.nodes == net.nodes[mv.x := Step(net.nodes[mv.x], mv.i, mv.now).node]
    && forall s :: s in Step(net.nodes[mv.x], mv.i, mv.now).sends ==> Packet(mv.x, s, mv.now) in net'.sent
  }

  /** The run one move longer. */
  lemma Extend(run: seq<Net>, moves: seq<Move>, mv: Move) returns (run': seq<Net>, moves': seq<Move>)
    requires NetRun(run, moves) && MoveOk(run[|moves|], mv)
    ensures NetRun(run', moves') && run <= run' && moves' == moves + [mv]
    ensures After(run[|moves|], mv, run'[|moves'|])
  {
    run', moves' := run + [Moved(run[|moves|], mv)], moves + [mv];
    forall j | 0 <= j < |moves'|
      ensures MoveOk(run'[j], moves'[j]) && run'[j + 1] == Moved(run'[j], moves'[j])
    {
      if j < |moves| {
        assert MoveOk(run[j], moves[j]) && run[j + 1] == Moved(run[j], moves[j]);
      }
    }
  }

  lemma {:induction false} Enumeration<T(!new)>(s: set<T>) returns (order: seq<T>)
    ensures Enumerates(order, s)
    decreases |s|
  {
    order := [];
    if s != {} {
      var x :| x in s;
      order := Enumeration(s - {x});
      order := order + [x];
    }
  }

  lemma EnumerationFrom<T(!new)>(x: T, s: set<T>) returns (rest: seq<T>)
    requires x in s
    ensures Enumerates([x] + rest, s) && x !in rest
  {
    rest := Enumeration(s - {x});
  }

  /** A move made by packet q. */
  function Delivery(q: Packet, x: NodeId, from: Addr, found: Option<PeerId>, now: int): Move {
    Move(x, Recv(Carried(q, from), found), now, q)
  }

  /** A move that no packet causes. */
  function Own(x: NodeId, i: Input, now: int): Move {
    Move(x, i, now, Packet(x, Send(NOBODY, MsgAck, NOBODY, NOBODY, Direct, 0, OKAY), 0))
  }

  // ------------------------------------------------------------ the source's tick

  lemma OthersStay(n: Node, u: NodeId, t: NodeId, now: int)
    requires u != t && t in n.reqs
    ensures t in TickRequest(n, u, now).node.reqs && TickRequest(n, u, now).node.reqs[t] == n.reqs[t]
  {
  }

  /** The first request that is visited keeps what its visit gave it. */
  lemma {:induction false} VisitedFirst(n: Node, t: NodeId, rest: seq<NodeId>, now: int, k: Tuple, s: Send)
    requires t !in rest && t in TickRequest(n, t, now).node.reqs
    requires k in TickRequest(n, t, now).node.conns && s in TickRequest(n, t, now).sends
    ensures var one, out := TickRequest(n, t, now), TickRequests(n, [t] + rest, now);
            && s in out.sends && k in out.node.conns && out.node.conns[k] == one.node.conns[k]
            && t in out.node.reqs && out.node.reqs[t] == one.node.reqs[t]
  {
    if rest == [] {
      assert [t] + rest == [t] && [t][..0] == [];
      assert TickRequests(n, [], now) == Quiet(n);
    } else {
      var init, u := rest[..|rest| - 1], rest[|rest| - 1];
      VisitedFirst(n, t, init, now, k, s);
      var mid := TickRequests(n, [t] + init, now).node;
      assert ([t] + rest)[..|[t] + rest| - 1] == [t] + init;
      TickRequestInstalls(mid, u, now);
      OthersStay(mid, u, t, now);
    }
  }

  /** Ask: the source's tick sends the REQUEST. */
  lemma Ask(n: Node, pl: Plan, now: int) returns (i: Input, s: Send)
    requires NodeOk(n) && n.own == pl.s && pl.mode != Direct && pl.via.id == pl.p && pl.p != pl.d && CanAsk(n, pl)
    ensures InputOk(n, i, now) && !i.Recv?
    ensures EndWaits(Step(n, i, now).node, pl, StartPoint) && pl.d in Step(n, i, now).node.reqs
    ensures s in Step(n, i, now).sends && FirstRequest(Packet(pl.s, s, now), pl)
  {
    var r, k := n.reqs[pl.d], pl.Key();
    assert RequestOk(n.own, pl.d, r);
    AttemptStarts(n, pl.d, now);
    var one := TickRequest(n, pl.d, now);
    s := one.sends[0];
    var rest := EnumerationFrom(pl.d, n.reqs.Keys);
    var conns := Enumeration(TickRequests(n, [pl.d] + rest, now).node.conns.Keys);
    i := Clock([pl.d] + rest, conns);
    VisitedFirst(n, pl.d, rest, now, k, s);
    assert k in one.node.conns && one.node.conns[k].lastEvent == now;
  }

  // ------------------------------------------------------------ the other parties' moves

  lemma ProxyTakes(n: Node, q: Packet, pl: Plan, now: int)
    requires NodeOk(n) && n.own == pl.p && FirstRequest(q, pl) && Free(n, pl) && pl.mode != Direct
    requires pl.s != pl.p && pl.s != pl.d && pl.p != pl.d
    ensures var i := Recv(Carried(q, pl.seen), Some(PeerId(pl.d, pl.found)));
            && InputOk(n, i, now)
            && if ByItself(n, pl.mode) then
                 && MidHas(Step(n, i, now).node, pl, WaitingReply)
                 && exists s :: s in Step(n, i, now).sends && SecondRequest(Packet(pl.p, s, now), pl)
               else MidHas(Step(n, i, now).node, pl, WaitingAuth)
  {
    var m, found := Carried(q, pl.seen), Some(PeerId(pl.d, pl.found));
    assert Objection(n, m, found) == OKAY && KeyOf(n, m) == pl.Key();
    if ByItself(n, pl.mode) {
      RequestPassedOn(n, m, found, now);
      var out := Step(n, Recv(m, found), now);
      assert SecondRequest(Packet(pl.p, out.sends[0], now), pl);
    } else {
      RequestTaken(n, m, found, now);
    }
  }

  lemma ProxyGrants(n: Node, pl: Plan, now: int) returns (i: Input, s: Send)
    requires NodeOk(n) && n.own == pl.p && MidHas(n, pl, WaitingAuth)
    ensures InputOk(n, i, now) && !i.Recv? && MidHas(Step(n, i, now).node, pl, WaitingReply)
    ensures s in Step(n, i, now).sends && SecondRequest(Packet(pl.p, s, now), pl)
  {
    assert RecordOk(n.own, pl.Key(), n.conns[pl.Key()]);
    i := Grant(Bare(pl.s), Bare(pl.p), Bare(pl.d), pl.mode, MidPoint, pl.bandwidth, 0);
    GrantAtProxy(n, pl.Key(), i, now);
    s := Step(n, i, now).sends[0];
  }

  lemma DestTakes(n: Node, q: Packet, pl: Plan, from: Addr, now: int)
    requires NodeOk(n) && n.own == pl.d && SecondRequest(q, pl) && Free(n, pl) && pl.mode != Direct
    requires pl.s != pl.p && pl.s != pl.d && pl.p != pl.d
    ensures var i := Recv(Carried(q, from), None);
            InputOk(n, i, now) && DestAsks(Step(n, i, now).node, pl)
  {
    var m := Carried(q, from);
    assert Objection(n, m, None) == OKAY && KeyOf(n, m) == pl.Key();
    RequestTaken(n, m, None, now);
  }

  lemma DestGrants(n: Node, pl: Plan, now: int) returns (i: Input, s: Send)
    requires NodeOk(n) && n.own == pl.d && DestAsks(n, pl) && pl.mode != Direct
    ensures InputOk(n, i, now) && !i.Recv? && EndWaits(Step(n, i, now).node, pl, EndPoint)
    ensures s in Step(n, i, now).sends && Agreement(Packet(pl.d, s, now), pl)
  {
    assert RecordOk(n.own, pl.Key(), n.conns[pl.Key()]);
    i := Grant(Bare(pl.s), Bare(pl.p), PeerId(pl.d, pl.offer), pl.mode, EndPoint, 0, pl.delay);
    GrantAtDestination(n, pl.Key(), i, now);
    s := Step(n, i, now).sends[0];
  }

  lemma ProxyAgrees(n: Node, q: Packet, pl: Plan, from: Addr, now: int)
    requires NodeOk(n) && n.own == pl.p && Agreement(q, pl) && MidHas(n, pl, WaitingReply)
    ensures var n' := Step(n, Recv(Carried(q, from), None), now).node;
            && MidHas(n', pl, WaitingAck)
            && var c := n'.conns[pl.Key()]; c.lastEvent == now && c.lastStart == 0 && c.retry == 0
  {
    assert RecordOk(n.own, pl.Key(), n.conns[pl.Key()]);
    OkayAtProxy(n, pl.Key(), Carried(q, from), None, now);
  }

  lemma {:induction false} StartsAreSent(sends: seq<Send>, src: NodeId, dest: NodeId, s: Send)
    requires s in StartsAbout(sends, src, dest)
    ensures s in sends
  {
    if s in StartsAbout(sends[..|sends| - 1], src, dest) {
      StartsAreSent(sends[..|sends| - 1], src, dest, s);
    }
  }

  lemma ProxyStarts(n: Node, pl: Plan, now: int) returns (i: Input, a: Send, b: Send)
    requires NodeOk(n) && n.own == pl.p && MidHas(n, pl, WaitingAck)
    requires var c := n.conns[pl.Key()]; now - c.lastEvent <= 20 && c.lastStart == 0 && c.retry == 0 && now > 3
    ensures InputOk(n, i, now) && !i.Recv? && MidHas(Step(n, i, now).node, pl, WaitingAck)
    ensures a in Step(n, i, now).sends && Go(Packet(pl.p, a, now), pl, PeerId(pl.s, pl.seen))
    ensures b in Step(n, i, now).sends && Go(Packet(pl.p, b, now), pl, PeerId(pl.d, pl.found))
  {
    var reqs := Enumeration(n.reqs.Keys);
    var conns := Enumeration(TickRequests(n, reqs, now).node.conns.Keys);
    i := Clock(reqs, conns);
    var k := pl.Key();
    var c := n.conns[k];
    TickSendsRounds(n, i, now, k);
    TickedRecord(n, i, now, k);
    a, b := StartTo(c.src, c, now), StartTo(c.dest, c, now);
    assert Round(c, now) == [a, b];
    StartsAreSent(Step(n, i, now).sends, pl.s, pl.d, a);
    StartsAreSent(Step(n, i, now).sends, pl.s, pl.d, b);
  }

  lemma EndCompletes(n: Node, q: Packet, pl: Plan, from: Addr, point: Point, to: PeerId, now: int) returns (s: Send)
    requires NodeOk(n) && Go(q, pl, to) && EndWaits(n, pl, point) && (point == StartPoint || point == EndPoint)
    ensures var out := Step(n, Recv(Carried(q, from), None), now);
            && EndDone(out.node, pl, point) && s in out.sends && Acked(Packet(n.own, s, now), pl, n.own)
            && (point == StartPoint && pl.d in n.reqs ==>
                  pl.d in out.node.reqs && out.node.reqs[pl.d].state == ExtConnect)
  {
    assert RecordOk(n.own, pl.Key(), n.conns[pl.Key()]);
    StartAtEnd(n, pl.Key(), Carried(q, from), None, now);
    s := Step(n, Recv(Carried(q, from), None), now).sends[0];
  }

  lemma ProxyIsAcked(n: Node, q: Packet, pl: Plan, from: Addr, now: int)
    requires NodeOk(n) && n.own == pl.p && Acked(q, pl, pl.s) && MidHas(n, pl, WaitingAck)
    ensures var n' := Step(n, Recv(Carried(q, from), None), now).node;
            Has(n', pl.Key(), MidPoint, WaitingAck) && n'.conns[pl.Key()].srcAck
  {
    assert RecordOk(n.own, pl.Key(), n.conns[pl.Key()]);
    AckOfAnEnd(n, pl.Key(), Carried(q, from), None, now);
  }

  lemma ProxyFinishes(n: Node, q: Packet, pl: Plan, from: Addr, now: int)
    requires NodeOk(n) && n.own == pl.p && Acked(q, pl, pl.d)
    requires Has(n, pl.Key(), MidPoint, WaitingAck) && n.conns[pl.Key()].srcAck
    ensures pl.Key() !in Step(n, Recv(Carried(q, from), None), now).node.conns
  {
    assert RecordOk(n.own, pl.Key(), n.conns[pl.Key()]);
    AckOfAnEnd(n, pl.Key(), Carried(q, from), None, now);
  }

  // ------------------------------------------------------------ the exchange

  ghost predicate Three(net: Net, pl: Plan) {
    && pl.s in net.nodes && pl.p in net.nodes && pl.d in net.nodes
    && pl.s != pl.p && pl.s != pl.d && pl.p != pl.d && pl.mode != Direct && pl.via.id == pl.p
  }

  ghost predicate CanStart(net: Net, pl: Plan) {
    Three(net, pl) && CanAsk(net.nodes[pl.s], pl) && Free(net.nodes[pl.p], pl) && Free(net.nodes[pl.d], pl)
  }

  /** The REQUEST is on its way. */
  ghost predicate IsAsked(net: Net, pl: Plan) {
    && Three(net, pl) && EndWaits(net.nodes[pl.s], pl, StartPoint) && pl.d in net.nodes[pl.s].reqs
    && Free(net.nodes[pl.p], pl) && Free(net.nodes[pl.d], pl)
    && exists q :: q in net.sent && FirstRequest(q, pl)
  }

  ghost predicate IsPassedOn(net: Net, pl: Plan) {
    && Three(net, pl) && EndWaits(net.nodes[pl.s], pl, StartPoint) && pl.d in net.nodes[pl.s].reqs
    && MidHas(net.nodes[pl.p], pl, WaitingReply) && Free(net.nodes[pl.d], pl)
    && exists q :: q in net.sent && SecondRequest(q, pl)
  }

  ghost predicate IsAgreed(net: Net, pl: Plan) {
    && Three(net, pl) && EndWaits(net.nodes[pl.s], pl, StartPoint) && pl.d in net.nodes[pl.s].reqs
    && EndWaits(net.nodes[pl.d], pl, EndPoint) && MidHas(net.nodes[pl.p], pl, WaitingReply)
    && exists q :: q in net.sent && Agreement(q, pl)
  }

  ghost predicate IsStarted(net: Net, pl: Plan) {
    && Three(net, pl) && EndWaits(net.nodes[pl.s], pl, StartPoint) && pl.d in net.nodes[pl.s].reqs
    && EndWaits(net.nodes[pl.d], pl, EndPoint) && MidHas(net.nodes[pl.p], pl, WaitingAck)
    && (exists q :: q in net.sent && Go(q, pl, PeerId(pl.s, pl.seen)))
    && (exists q :: q in net.sent && Go(q, pl, PeerId(pl.d, pl.found)))
  }

  /** Both ends are completed between the two addresses, the request waits for the
      connection, and both acks are on their way. */
  ghost predicate IsCompleted(net: Net, pl: Plan) {
    && Three(net, pl) && EndDone(net.nodes[pl.s], pl, StartPoint) && EndDone(net.nodes[pl.d], pl, EndPoint)
    && pl.d in net.nodes[pl.s].reqs && net.nodes[pl.s].reqs[pl.d].state == ExtConnect
  }

  ghost predicate AcksSent(net: Net, pl: Plan) {
    && pl.p in net.nodes && MidHas(net.nodes[pl.p], pl, WaitingAck)
    && (exists q :: q in net.sent && Acked(q, pl, pl.s))
    && (exists q :: q in net.sent && Acked(q, pl, pl.d))
  }

  lemma LastOk(run: seq<Net>, moves: seq<Move>)
    requires NetRun(run, moves)
    ensures var net := run[|moves|]; forall x :: x in net.nodes ==> NodeOk(net.nodes[x]) && net.nodes[x].own == x
  {
    NetRunOk(run, moves, |moves|);
  }

  lemma SourceMoves(run: seq<Net>, moves: seq<Move>, pl: Plan, now: int) returns (run': seq<Net>, moves': seq<Move>)
    requires NetRun(run, moves) && CanStart(run[|moves|], pl) && run[|moves|].now <= now
    ensures NetRun(run', moves') && run <= run' && moves <= moves' && run'[|moves'|].now == now
    ensures IsAsked(run'[|moves'|], pl) && |moves'| == |moves| + 1
  {
    LastOk(run, moves);
    var net := run[|moves|];
    var i, s := Ask(net.nodes[pl.s], pl, now);
    run', moves' := Extend(run, moves, Own(pl.s, i, now));
    assert Packet(pl.s, s, now) in run'[|moves'|].sent;
  }

  /** The source waits, and its request is for the destination. */
  ghost predicate SourceWaits(net: Net, pl: Plan) {
    Three(net, pl) && EndWaits(net.nodes[pl.s], pl, StartPoint) && pl.d in net.nodes[pl.s].reqs
  }

  ghost predicate IsTaken(net: Net, pl: Plan) {
    SourceWaits(net, pl) && MidHas(net.nodes[pl.p], pl, WaitingAuth) && Free(net.nodes[pl.d], pl)
  }

  ghost predicate IsReceived(net: Net, pl: Plan) {
    SourceWaits(net, pl) && MidHas(net.nodes[pl.p], pl, WaitingReply) && DestAsks(net.nodes[pl.d], pl)
  }

  ghost predicate IsOkay(net: Net, pl: Plan, okay: int) {
    && SourceWaits(net, pl) && EndWaits(net.nodes[pl.d], pl, EndPoint) && MidHas(net.nodes[pl.p], pl, WaitingAck)
    && var c := net.nodes[pl.p].conns[pl.Key()]; c.lastEvent == okay && c.lastStart == 0 && c.retry == 0
  }

  ghost predicate IsHalfDone(net: Net, pl: Plan) {
    && Three(net, pl) && EndDone(net.nodes[pl.s], pl, StartPoint) && EndWaits(net.nodes[pl.d], pl, EndPoint)
    && MidHas(net.nodes[pl.p], pl, WaitingAck)
    && pl.d in net.nodes[pl.s].reqs && net.nodes[pl.s].reqs[pl.d].state == ExtConnect
    && (exists q :: q in net.sent && Acked(q, pl, pl.s))
    && (exists q :: q in net.sent && Go(q, pl, PeerId(pl.d, pl.found)))
  }

  ghost predicate IsHalfAcked(net: Net, pl: Plan) {
    && IsCompleted(net, pl)
    && Has(net.nodes[pl.p], pl.Key(), MidPoint, WaitingAck) && net.nodes[pl.p].conns[pl.Key()].srcAck
    && (exists q :: q in net.sent && Acked(q, pl, pl.d))
  }

  lemma TakeMove(run: seq<Net>, moves: seq<Move>, pl: Plan, now: int) returns (run': seq<Net>, moves': seq<Move>)
    requires NetRun(run, moves) && IsAsked(run[|moves|], pl) && run[|moves|].now <= now
    ensures NetRun(run', moves') && run <= run' && moves <= moves' && run'[|moves'|].now == now
    ensures IsPassedOn(run'[|moves'|], pl) || IsTaken(run'[|moves'|], pl)
    ensures |moves'| == |moves| + 1
  {
    LastOk(run, moves);
    var net := run[|moves|];
    var q :| q in net.sent && FirstRequest(q, pl);
    var mv := Delivery(q, pl.p, pl.seen, Some(PeerId(pl.d, pl.found)), now);
    ProxyTakes(net.nodes[pl.p], q, pl, now);
    run', moves' := Extend(run, moves, mv);
    if ByItself(net.nodes[pl.p], pl.mode) {
      var s :| s in Step(net.nodes[pl.p], mv.i, now).sends && SecondRequest(Packet(pl.p, s, now), pl);
      assert Packet(pl.p, s, now) in run'[|moves'|].sent;
    }
  }

  lemma ProxyGrantMove(run: seq<Net>, moves: seq<Move>, pl: Plan, now: int) returns (run': seq<Net>, moves': seq<Move>)
    requires NetRun(run, moves) && IsTaken(run[|moves|], pl) && run[|moves|].now <= now
    ensures NetRun(run', moves') && run <= run' && moves <= moves' && run'[|moves'|].now == now
    ensures IsPassedOn(run'[|moves'|], pl) && |moves'| == |moves| + 1
  {
    LastOk(run, moves);
    var i, s := ProxyGrants(run[|moves|].nodes[pl.p], pl, now);
    run', moves' := Extend(run, moves, Own(pl.p, i, now));
    assert Packet(pl.p, s, now) in run'[|moves'|].sent;
  }

  lemma ProxyMoves(run: seq<Net>, moves: seq<Move>, pl: Plan, first: int, grant: int)
    returns (run': seq<Net>, moves': seq<Move>)
    requires NetRun(run, moves) && IsAsked(run[|moves|], pl) && run[|moves|].now <= first <= grant
    ensures NetRun(run', moves') && run <= run' && moves <= moves' && run'[|moves'|].now <= grant
    ensures IsPassedOn(run'[|moves'|], pl) && |moves'| <= |moves| + 2
  {
    run', moves' := TakeMove(run, moves, pl, first);
    if IsTaken(run'[|moves'|], pl) {
      run', moves' := ProxyGrantMove(run', moves', pl, grant);
    }
  }

  lemma ReceiveMove(run: seq<Net>, moves: seq<Move>, pl: Plan, now: int) returns (run': seq<Net>, moves': seq<Move>)
    requires NetRun(run, moves) && IsPassedOn(run[|moves|], pl) && run[|moves|].now <= now
    ensures NetRun(run', moves') && run <= run' && moves <= moves' && run'[|moves'|].now == now
    ensures IsReceived(run'[|moves'|], pl) && |moves'| == |moves| + 1
  {
    LastOk(run, moves);
    var net := run[|moves|];
    var q :| q in net.sent && SecondRequest(q, pl);
    DestTakes(net.nodes[pl.d], q, pl, NO_ADDR, now);
    run', moves' := Extend(run, moves, Delivery(q, pl.d, NO_ADDR, None, now));
  }

  lemma DestGrantMove(run: seq<Net>, moves: seq<Move>, pl: Plan, now: int) returns (run': seq<Net>, moves': seq<Move>)
    requires NetRun(run, moves) && IsReceived(run[|moves|], pl) && run[|moves|].now <= now
    ensures NetRun(run', moves') && run <= run' && moves <= moves' && run'[|moves'|].now == now
    ensures IsAgreed(run'[|moves'|], pl) && |moves'| == |moves| + 1
  {
    LastOk(run, moves);
    var i, s := DestGrants(run[|moves|].nodes[pl.d], pl, now);
    run', moves' := Extend(run, moves, Own(pl.d, i, now));
    assert Packet(pl.d, s, now) in run'[|moves'|].sent;
  }

  lemma OkayMove(run: seq<Net>, moves: seq<Move>, pl: Plan, now: int) returns (run': seq<Net>, moves': seq<Move>)
    requires NetRun(run, moves) && IsAgreed(run[|moves|], pl) && run[|moves|].now <= now
    ensures NetRun(run', moves') && run <= run' && moves <= moves' && run'[|moves'|].now == now
    ensures IsOkay(run'[|moves'|], pl, now) && |moves'| == |moves| + 1
  {
    LastOk(run, moves);
    var net := run[|moves|];
    var q :| q in net.sent && Agreement(q, pl);
    ProxyAgrees(net.nodes[pl.p], q, pl, NO_ADDR, now);
    run', moves' := Extend(run, moves, Delivery(q, pl.p, NO_ADDR, None, now));
  }

  lemma TickMove(run: seq<Net>, moves: seq<Move>, pl: Plan, okay: int, now: int)
    returns (run': seq<Net>, moves': seq<Move>)
    requires NetRun(run, moves) && IsOkay(run[|moves|], pl, okay) && run[|moves|].now <= now
    requires now <= okay + 20 && now > 3
    ensures NetRun(run', moves') && run <= run' && moves <= moves' && run'[|moves'|].now == now
    ensures IsStarted(run'[|moves'|], pl) && |moves'| == |moves| + 1
  {
    LastOk(run, moves);
    var i, a, b := ProxyStarts(run[|moves|].nodes[pl.p], pl, now);
    run', moves' := Extend(run, moves, Own(pl.p, i, now));
    assert Packet(pl.p, a, now) in run'[|moves'|].sent && Packet(pl.p, b, now) in run'[|moves'|].sent;
  }

  lemma SourceDoneMove(run: seq<Net>, moves: seq<Move>, pl: Plan, now: int) returns (run': seq<Net>, moves': seq<Move>)
    requires NetRun(run, moves) && IsStarted(run[|moves|], pl) && run[|moves|].now <= now
    ensures NetRun(run', moves') && run <= run' && moves <= moves' && run'[|moves'|].now == now
    ensures IsHalfDone(run'[|moves'|], pl) && |moves'| == |moves| + 1
  {
    LastOk(run, moves);
    var net := run[|moves|];
    var q :| q in net.sent && Go(q, pl, PeerId(pl.s, pl.seen));
    var a := EndCompletes(net.nodes[pl.s], q, pl, NO_ADDR, StartPoint, PeerId(pl.s, pl.seen), now);
    run', moves' := Extend(run, moves, Delivery(q, pl.s, NO_ADDR, None, now));
    assert Packet(pl.s, a, now) in run'[|moves'|].sent;
  }

  lemma DestDoneMove(run: seq<Net>, moves: seq<Move>, pl: Plan, now: int) returns (run': seq<Net>, moves': seq<Move>)
    requires NetRun(run, moves) && IsHalfDone(run[|moves|], pl) && run[|moves|].now <= now
    ensures NetRun(run', moves') && run <= run' && moves <= moves' && run'[|moves'|].now == now
    ensures IsCompleted(run'[|moves'|], pl) && AcksSent(run'[|moves'|], pl) && |moves'| == |moves| + 1
  {
    LastOk(run, moves);
    var net := run[|moves|];
    var q :| q in net.sent && Go(q, pl, PeerId(pl.d, pl.found));
    var b := EndCompletes(net.nodes[pl.d], q, pl, NO_ADDR, EndPoint, PeerId(pl.d, pl.found), now);
    run', moves' := Extend(run, moves, Delivery(q, pl.d, NO_ADDR, None, now));
    assert Packet(pl.d, b, now) in run'[|moves'|].sent;
  }

  lemma FirstAckMove(run: seq<Net>, moves: seq<Move>, pl: Plan, now: int) returns (run': seq<Net>, moves': seq<Move>)
    requires NetRun(run, moves) && IsCompleted(run[|moves|], pl) && AcksSent(run[|moves|], pl)
    requires run[|moves|].now <= now
    ensures NetRun(run', moves') && run <= run' && moves <= moves' && run'[|moves'|].now == now
    ensures IsHalfAcked(run'[|moves'|], pl) && |moves'| == |moves| + 1
  {
    LastOk(run, moves);
    var net := run[|moves|];
    var q :| q in net.sent && Acked(q, pl, pl.s);
    ProxyIsAcked(net.nodes[pl.p], q, pl, NO_ADDR, now);
    run', moves' := Extend(run, moves, Delivery(q, pl.p, NO_ADDR, None, now));
  }

  lemma SecondAckMove(run: seq<Net>, moves: seq<Move>, pl: Plan, now: int) returns (run': seq<Net>, moves': seq<Move>)
    requires NetRun(run, moves) && IsHalfAcked(run[|moves|], pl) && run[|moves|].now <= now
    ensures NetRun(run', moves') && run <= run' && moves <= moves' && run'[|moves'|].now == now
    ensures IsCompleted(run'[|moves'|], pl) && pl.Key() !in run'[|moves'|].nodes[pl.p].conns
    ensures |moves'| == |moves| + 1
  {
    LastOk(run, moves);
    var net := run[|moves|];
    var q :| q in net.sent && Acked(q, pl, pl.d);
    ProxyFinishes(net.nodes[pl.p], q, pl, NO_ADDR, now);
    run', moves' := Extend(run, moves, Delivery(q, pl.p, NO_ADDR, None, now));
  }

  lemma Opens(run: seq<Net>, moves: seq<Move>, pl: Plan, t: Times) returns (run': seq<Net>, moves': seq<Move>)
    requires NetRun(run, moves) && CanStart(run[|moves|], pl) && Timely(run[|moves|].now, t)
    ensures NetRun(run', moves') && run <= run' && moves <= moves' && |moves'| <= |moves| + 5
    ensures IsAgreed(run'[|moves'|], pl) && run'[|moves'|].now == t.agree
  {
    run', moves' := SourceMoves(run, moves, pl, t.ask);
    run', moves' := ProxyMoves(run', moves', pl, t.first, t.grant);
    run', moves' := ReceiveMove(run', moves', pl, t.second);
    run', moves' := DestGrantMove(run', moves', pl, t.agree);
  }

  lemma Starts(run: seq<Net>, moves: seq<Move>, pl: Plan, t: Times) returns (run': seq<Net>, moves': seq<Move>)
    requires NetRun(run, moves) && IsAgreed(run[|moves|], pl) && Timely(t.ask, t) && run[|moves|].now == t.agree
    ensures NetRun(run', moves') && run <= run' && moves <= moves' && |moves'| == |moves| + 2
    ensures IsStarted(run'[|moves'|], pl) && run'[|moves'|].now == t.tick
  {
    run', moves' := OkayMove(run, moves, pl, t.okay);
    run', moves' := TickMove(run', moves', pl, t.okay, t.tick);
  }

  lemma Closes(run: seq<Net>, moves: seq<Move>, pl: Plan, t: Times) returns (run': seq<Net>, moves': seq<Move>)
    requires NetRun(run, moves) && IsStarted(run[|moves|], pl) && Timely(t.ask, t) && run[|moves|].now == t.tick
    ensures NetRun(run', moves') && run <= run' && moves <= moves' && |moves'| == |moves| + 4
    ensures IsCompleted(run'[|moves'|], pl) && pl.Key() !in run'[|moves'|].nodes[pl.p].conns
  {
    run', moves' := SourceDoneMove(run, moves, pl, t.startS);
    run', moves' := DestDoneMove(run', moves', pl, t.startD);
    run', moves' := FirstAckMove(run', moves', pl, t.ackS);
    run', moves' := SecondAckMove(run', moves', pl, t.ackD);
  }

  /** Every run that gets to a state in which a source can start goes on, at any timely
      moments, to one in which both ends are completed between the same two
      addresses, the source's request waits for the connection, and the proxy has
      finished; it takes at most eleven moves. */
  lemma HandshakeCompletes(run: seq<Net>, moves: seq<Move>, pl: Plan, t: Times)
    returns (run': seq<Net>, moves': seq<Move>)
    requires NetRun(run, moves) && CanStart(run[|moves|], pl) && Timely(run[|moves|].now, t)
    ensures NetRun(run', moves') && run <= run' && moves <= moves' && |moves'| <= |moves| + 11
    ensures IsCompleted(run'[|moves'|], pl) && pl.Key() !in run'[|moves'|].nodes[pl.p].conns
  {
    run', moves' := Opens(run, moves, pl, t);
    run', moves' := Starts(run', moves', pl, t);
    run', moves' := Closes(run', moves', pl, t);
  }
}
