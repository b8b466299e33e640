/**
 What every step of a node keeps: each record agrees with the key it is stored
 under and is in a state its role allows, and no two records run between the
 same two nodes in opposite directions.
 */
module ConnectInvariant {
  import opened ConnectCodes
  import opened ConnectNode
  import opened ConnectSteps

  // ------------------------------------------------------------ records

  /** The ids the record hands out are the ids it is found under. */
  ghost predicate Agrees(k: Tuple, c: Connection) {
    && c.src.id == k.src && c.proxy.id == k.proxy && c.dest.id == k.dest
    && c.srcAddr.id == k.src && c.destAddr.id == k.dest
  }

  /** The states each role passes through, and the roles a key leaves open. */
  ghost predicate InRole(own: NodeId, k: Tuple, c: Connection) {
    && k.src != k.dest
    && (c.state == WaitingAck ==> !(c.srcAck && c.destAck))
    && match c.point
       case StartPoint =>
         && own == k.src && k.proxy != k.src
         && (c.mode == Direct) == (k.proxy == k.dest)
         && c.state in {WaitingStart, Completed}
       case MidPoint =>
         && own == k.proxy && k.proxy != k.src && k.proxy != k.dest
         && c.mode != Direct
         && c.state in {WaitingAuth, WaitingReply, WaitingAck}
       case EndPoint =>
         && own == k.dest && k.proxy != k.dest
         && (c.mode == Direct) == (k.proxy == k.src)
         && (c.state == WaitingAck ==> c.destAck)
         && c.state in (if c.mode == Direct then {WaitingAuth, WaitingAck} else {WaitingAuth, WaitingStart, Completed})
       case UnknownPoint => false
  }

  ghost predicate RecordOk(own: NodeId, k: Tuple, c: Connection) { Agrees(k, c) && InRole(own, k, c) }

  ghost predicate RecordsOk(n: Node) { forall k :: k in n.conns ==> RecordOk(n.own, k, n.conns[k]) }

  // ------------------------------------------------------------ requests

  ghost predicate RequestOk(own: NodeId, t: NodeId, r: Request) {
    && r.target == t && t != own && r.current.id != own
    && (forall e :: e in r.good ==> e.id.id != own)
    && (forall p :: p in r.potential ==> p.id != own)
    && (r.state == Done ==> r.err != OKAY)
  }

  /** Node id 0 is the blank id. */
  ghost predicate RequestsOk(n: Node) {
    n.own != 0 && forall t :: t in n.reqs ==> RequestOk(n.own, t, n.reqs[t])
  }

  lemma EntriesAvoid(own: NodeId, ps: seq<PeerId>, source: ProxySource)
    requires NotListed(own, ps)
    ensures forall e :: e in Entries(ps, source) ==> e.id.id != own
  {
    forall e | e in Entries(ps, source)
      ensures e.id.id != own
    {
      var i :| 0 <= i < |ps| && Entries(ps, source)[i] == e;
      assert ps[i] in ps;
    }
  }

  lemma DirectRequestOk(n: Node, i: Input, now: int)
    requires n.own != 0 && i.Ask? && InputOk(n, i, now) && i.target != n.own
    ensures RequestOk(n.own, i.target, DirectRequest(i.target, i.localAddr, i.cs, now))
  {
    EntriesAvoid(n.own, i.cs.results, QueryResult);
  }

  lemma ProxyRequestOk(n: Node, i: Input, now: int)
    requires n.own != 0 && i.Ask? && InputOk(n, i, now) && i.target != n.own
    ensures RequestOk(n.own, i.target, ProxyRequest(i.target, i.localAddr, i.mode, i.delay, n.relay, i.cs, now))
  {
    var known := i.cs.proxies + Flagged(i.cs.potentials, true);
    assert NotListed(n.own, known);
    EntriesAvoid(n.own, known, QueryProxy);
    EntriesAvoid(n.own, i.cs.relays, SpaceServer);
    EntriesAvoid(n.own, i.cs.friends, SpaceFriend);
  }

  lemma AskedRequestOk(n: Node, i: Input, now: int)
    requires RequestsOk(n) && i.Ask? && InputOk(n, i, now)
    ensures RequestsOk(Step(n, i, now).node)
  {
    if i.target != n.own {
      DirectRequestOk(n, i, now);
      ProxyRequestOk(n, i, now);
    }
  }

  lemma StartRequestOk(n: Node, t: NodeId, now: int)
    requires RequestsOk(n) && t in n.reqs
    ensures RequestsOk(StartRequest(n, t, now).node)
    ensures var n' := StartRequest(n, t, now).node;
            forall k :: k in n'.conns && k !in n.conns ==> k.proxy != n.own && k.dest != n.own
  {
    var r := n.reqs[t];
    if r.good != [] {
      assert r.good[0] in r.good;
      var n' := StartRequest(n, t, now).node;
      assert forall e :: e in r.good[1..] ==> e in r.good;
      assert n'.reqs.Keys == n.reqs.Keys;
    }
  }

  lemma TickRequestOk(n: Node, t: NodeId, now: int)
    requires RequestsOk(n)
    ensures RequestsOk(TickRequest(n, t, now).node)
    ensures var n' := TickRequest(n, t, now).node;
            forall k :: k in n'.conns && k !in n.conns ==> k.proxy != n.own && k.dest != n.own
  {
    if t in n.reqs {
      StartRequestOk(n, t, now);
    }
  }

  lemma {:induction false} TickRequestsOk(n: Node, order: seq<NodeId>, now: int)
    requires RequestsOk(n)
    ensures RequestsOk(TickRequests(n, order, now).node)
    ensures var n' := TickRequests(n, order, now).node;
            forall k :: k in n'.conns && k !in n.conns ==> k.proxy != n.own && k.dest != n.own
  {
    if order != [] {
      var init := TickRequests(n, order[..|order| - 1], now).node;
      TickRequestsOk(n, order[..|order| - 1], now);
      TickRequestsInstalls(n, order[..|order| - 1], now);
      TickRequestOk(init, order[|order| - 1], now);
    }
  }

  lemma NotifyRequestOk(n: Node, cb: Callback, now: int)
    requires RequestsOk(n)
    requires cb.point == StartPoint && cb.kind == CbFailed ==> cb.err != OKAY
    ensures RequestsOk(NotifyRequest(n, cb, now).node)
  {
  }

  lemma ReplyRequestsOk(n: Node, m: Msg, now: int)
    requires RequestsOk(n)
    ensures RequestsOk(RecvReply(n, m, now).node)
  {
    var key := KeyOf(n, m);
    if key in n.conns && n.conns[key].point == StartPoint {
      var c := n.conns[key];
      var err := if m.status != OKAY then m.status else ErrorCode(OKAY, Protocol, c.point);
      NotifyRequestOk(n.(conns := n.conns - {key}), CallbackOf(c, CbFailed, err), now);
    }
  }

  lemma StartRequestsOk(n: Node, m: Msg, now: int)
    requires RequestsOk(n)
    ensures RequestsOk(RecvStart(n, m, now).node)
  {
  }

  lemma AckRequestsOk(n: Node, m: Msg, now: int)
    requires RequestsOk(n)
    ensures RequestsOk(RecvAck(n, m, now).node)
  {
  }

  lemma ReceiveRequestsOk(n: Node, m: Msg, found: Option<PeerId>, now: int)
    requires RequestsOk(n)
    ensures RequestsOk(Receive(n, m, found, now).node)
  {
    match m.kind
    case MsgRequest => RecvRequestKeepsRequests(n, m, found, now);
    case MsgReply => ReplyRequestsOk(n, m, now);
    case MsgStart => StartRequestsOk(n, m, now);
    case MsgAck => AckRequestsOk(n, m, now);
  }

  lemma RecvRequestKeepsRequests(n: Node, m: Msg, found: Option<PeerId>, now: int)
    ensures RecvRequest(n, m, found, now).node.reqs == n.reqs
  {
  }

  lemma OfferedRequestsOk(n: Node, i: Input, now: int)
    requires RequestsOk(n) && InputOk(n, i, now) && (i.Offer? || i.Alive?)
    ensures RequestsOk(Step(n, i, now).node)
  {
  }

  lemma StepRequestsOk(n: Node, i: Input, now: int)
    requires RequestsOk(n) && InputOk(n, i, now)
    ensures RequestsOk(Step(n, i, now).node)
  {
    match i
    case Ask(_, _, _, _, _) => AskedRequestOk(n, i, now);
    case Clock(_, _) => TickRequestsOk(n, i.reqOrder, now);
    case Recv(m, found) => ReceiveRequestsOk(n, m, found, now);
    case Offer(_, _, _) => OfferedRequestsOk(n, i, now);
    case Alive(_) => OfferedRequestsOk(n, i, now);
    case _ =>
  }

  // ------------------------------------------------------------ every step keeps the records in order

  ghost predicate NodeOk(n: Node) { RequestsOk(n) && RecordsOk(n) }

  lemma InstalledOk(n: Node, k: Tuple, c: Connection, i: Input, now: int)
    requires NodeOk(n) && InputOk(n, i, now) && Installed(n, k, c, i, now)
    requires i.Clock? ==> k.proxy != n.own && k.dest != n.own
    ensures RecordOk(n.own, k, c)
  {
  }

  lemma AdvancedOk(n: Node, k: Tuple, c': Connection, i: Input, now: int)
    requires RecordsOk(n) && InputOk(n, i, now) && k in n.conns && Advanced(n, k, n.conns[k], c', i, now)
    ensures RecordOk(n.own, k, c')
  {
  }

  /** Key and record agree, and every record is in a state of its role, after any
      step on well-formed requests and echoed answers; replies, starts and acks may
      come from anyone and say anything. */
  lemma StepOk(n: Node, i: Input, now: int)
    requires NodeOk(n) && InputOk(n, i, now)
    ensures NodeOk(Step(n, i, now).node)
  {
    StepRequestsOk(n, i, now);
    StepCame(n, i, now);
    var n' := Step(n, i, now).node;
    if i.Clock? {
      TickRequestsOk(n, i.reqOrder, now);
    }
    forall k | k in n'.conns
      ensures RecordOk(n.own, k, n'.conns[k])
    {
      if k !in n.conns {
        InstalledOk(n, k, n'.conns[k], i, now);
      } else if n'.conns[k] != n.conns[k] {
        AdvancedOk(n, k, n'.conns[k], i, now);
      }
    }
  }

  // ------------------------------------------------------------ which requests make key and record agree

  /** The record recvedConnectionRequest installs, whatever the shape of the request. */
  function RecordFor(own: NodeId, m: Msg, dest: PeerId, now: int): Connection {
    if m.mode == Direct then RequestedDirect(m.from, m.src, m.dest, now)
    else if m.src.id == m.from.id then RequestedAsProxy(m.from, m.src, own, dest, m.mode, m.param, now)
    else RequestedAsEnd(m.from, m.src, m.dest, m.mode, now)
  }

  /** The key comes from the node's position, the record from the sender's: the two
      agree exactly when both see the same three parties. */
  lemma RequestAgreesIff(own: NodeId, m: Msg, dest: PeerId, now: int)
    requires dest.id == m.dest.id
    ensures Agrees(KeyBySender(own, m.from.id, m.src.id, m.dest.id), RecordFor(own, m, dest, now)) <==>
            if m.mode == Direct then m.from.id == m.src.id && own in {m.src.id, m.dest.id}
            else if m.from.id == m.src.id then own == m.src.id || own != m.dest.id
            else own in {m.src.id, m.dest.id, m.from.id}
  {
  }

  // ------------------------------------------------------------ no opposite pair

  ghost predicate Opposite(k1: Tuple, k2: Tuple) { k1.src == k2.dest && k1.dest == k2.src }

  ghost predicate NoOpposites(conns: map<Tuple, Connection>) {
    forall k1, k2 :: k1 in conns && k2 in conns && k1 != k2 ==> !Opposite(k1, k2)
  }

  /** Between the tables at most one key was added, and none opposite to an old one. */
  ghost predicate AddsOneWay(conns: map<Tuple, Connection>, conns': map<Tuple, Connection>) {
    || conns'.Keys <= conns.Keys
    || exists k :: conns'.Keys <= conns.Keys + {k} && !HasRoute(conns, k.dest, k.src)
  }

  lemma AddsOneWayKeeps(conns: map<Tuple, Connection>, conns': map<Tuple, Connection>)
    requires NoOpposites(conns) && AddsOneWay(conns, conns')
    ensures NoOpposites(conns')
  {
  }

  lemma StartRequestAdds(n: Node, t: NodeId, now: int)
    requires t in n.reqs
    ensures AddsOneWay(n.conns, StartRequest(n, t, now).node.conns)
  {
  }

  lemma TickRequestAdds(n: Node, t: NodeId, now: int)
    ensures AddsOneWay(n.conns, TickRequest(n, t, now).node.conns)
  {
    if t in n.reqs {
      StartRequestAdds(n, t, now);
    }
  }

  lemma {:induction false} TickRequestsNoOpposites(n: Node, order: seq<NodeId>, now: int)
    requires NoOpposites(n.conns)
    ensures NoOpposites(TickRequests(n, order, now).node.conns)
  {
    if order != [] {
      var init := TickRequests(n, order[..|order| - 1], now).node;
      TickRequestsNoOpposites(n, order[..|order| - 1], now);
      TickRequestAdds(init, order[|order| - 1], now);
      AddsOneWayKeeps(init.conns, TickRequest(init, order[|order| - 1], now).node.conns);
    }
  }

  lemma RecvRequestAdds(n: Node, m: Msg, found: Option<PeerId>, now: int)
    ensures AddsOneWay(n.conns, RecvRequest(n, m, found, now).node.conns)
  {
    var key := KeyOf(n, m);
    assert RecvRequest(n, m, found, now).node.conns.Keys <= n.conns.Keys + {key};
  }

  lemma ReceiveAdds(n: Node, m: Msg, found: Option<PeerId>, now: int)
    ensures AddsOneWay(n.conns, Receive(n, m, found, now).node.conns)
  {
    match m.kind
    case MsgRequest => RecvRequestAdds(n, m, found, now);
    case MsgReply => assert RecvReply(n, m, now).node.conns.Keys <= n.conns.Keys;
    case MsgStart => assert RecvStart(n, m, now).node.conns.Keys <= n.conns.Keys;
    case MsgAck => assert RecvAck(n, m, now).node.conns.Keys <= n.conns.Keys;
  }

  /** Whoever starts it and whatever the input, a step never leaves two records that
      run between the same two nodes in opposite directions. */
  lemma StepNoOpposites(n: Node, i: Input, now: int)
    requires NoOpposites(n.conns)
    ensures NoOpposites(Step(n, i, now).node.conns)
  {
    match i
    case Clock(_, _) => TickRequestsNoOpposites(n, i.reqOrder, now);
    case Recv(m, found) =>
      ReceiveAdds(n, m, found, now);
      AddsOneWayKeeps(n.conns, Receive(n, m, found, now).node.conns);
    case _ => assert Step(n, i, now).node.conns.Keys <= n.conns.Keys;
  }
}
