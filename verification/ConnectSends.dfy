/**
 Why a node sends what it sends: every message is justified by the record that
 is in the node's table right after the step.
 */
module ConnectSends {
  import opened ConnectCodes
  import opened ConnectNode
  import opened ConnectSteps
  import opened ConnectInvariant

  /** n is the node after the step. */
  ghost predicate Has(n: Node, k: Tuple, point: Point, state: ConnState) {
    k in n.conns && n.conns[k].point == point && n.conns[k].state == state
  }

  ghost predicate RequestJustified(n: Node, s: Send, now: int) {
    || (var k := Tuple(n.own, s.to.id, s.dest.id);
        && Has(n, k, StartPoint, WaitingStart) && s.src.id == n.own && n.conns[k].lastEvent == now
        && s.src == n.conns[k].srcAddr
        && n.conns[k].startTS == now && n.conns[k].maxDelay == s.param && n.conns[k].mode == s.mode)
    || (var k := Tuple(s.src.id, n.own, s.dest.id);
        && Has(n, k, MidPoint, WaitingReply) && s.to.id == s.dest.id && n.conns[k].mode == s.mode)
  }

  ghost predicate ReplyJustified(n: Node, s: Send, i: Input, now: int) {
    if s.status == OKAY then
      var k := Tuple(s.src.id, s.to.id, s.dest.id);
      && Has(n, k, EndPoint, WaitingStart)
      && n.conns[k].maxDelay == s.param && n.conns[k].mode == s.mode && n.conns[k].lastEvent == now
      && i.Grant? && s.dest == i.dest
    else
      s.status.source == SourceEnd ==>
        || n.own == s.dest.id
        || (i.Recv? && i.m.kind == MsgReply && i.m.status == s.status
            && i.m.src.id == s.src.id && i.m.dest.id == s.dest.id
            && s.to.id == s.src.id && n.own != s.src.id)
  }

  ghost predicate StartJustified(n: Node, s: Send, now: int) {
    || (var k := Tuple(s.src.id, n.own, s.dest.id);
        && Has(n, k, MidPoint, WaitingAck) && s.to.id in {k.src, k.dest}
        && s.src == n.conns[k].srcAddr && s.dest == n.conns[k].destAddr
        && s.mode == n.conns[k].mode && s.param == n.conns[k].StartParam(now))
    || (s.mode == Direct && n.own == s.dest.id && s.to.id == s.src.id)
  }

  ghost predicate AckJustified(n: Node, s: Send) {
    var k := Tuple(s.src.id, s.to.id, s.dest.id);
    k in n.conns && n.conns[k].state == Completed
  }

  ghost predicate Justified(n: Node, s: Send, i: Input, now: int) {
    match s.kind
    case MsgRequest => RequestJustified(n, s, now)
    case MsgReply => ReplyJustified(n, s, i, now)
    case MsgStart => StartJustified(n, s, now)
    case MsgAck => AckJustified(n, s)
  }

  // ------------------------------------------------------------ ticks

  lemma StartRequestSends(n: Node, t: NodeId, now: int, s: Send)
    requires t in n.reqs && s in StartRequest(n, t, now).sends
    ensures s.kind == MsgRequest && RequestJustified(StartRequest(n, t, now).node, s, now)
  {
  }

  lemma {:induction false} TickRequestsSends(n: Node, order: seq<NodeId>, now: int, s: Send)
    requires s in TickRequests(n, order, now).sends
    ensures s.kind == MsgRequest
    ensures exists k :: TickJustified(TickRequests(n, order, now).node, s, k, now)
  {
    var init := TickRequests(n, order[..|order| - 1], now);
    var t := order[|order| - 1];
    var next := TickRequest(init.node, t, now);
    TickRequestInstalls(init.node, t, now);
    if s in init.sends {
      TickRequestsSends(n, order[..|order| - 1], now, s);
      var k :| TickJustified(init.node, s, k, now);
      assert TickJustified(next.node, s, k, now);
    } else {
      StartRequestSends(init.node, t, now, s);
      assert TickJustified(next.node, s, Tuple(init.node.own, s.to.id, s.dest.id), now);
    }
  }

  ghost predicate TickJustified(n: Node, s: Send, k: Tuple, now: int) {
    && k == Tuple(n.own, s.to.id, s.dest.id)
    && Has(n, k, StartPoint, WaitingStart) && s.src.id == n.own && s.src == n.conns[k].srcAddr
    && n.conns[k].startTS == now && n.conns[k].lastEvent == now
    && n.conns[k].maxDelay == s.param && n.conns[k].mode == s.mode
  }

  lemma {:induction false} TickOutputSends(n: Node, order: seq<Tuple>, now: int, s: Send) returns (k: Tuple)
    requires s in TickOutput(n, order, now).sends
    ensures k in n.conns && s in StartSends(n.conns[k], now)
  {
    k := order[|order| - 1];
    if k !in n.conns || s !in StartSends(n.conns[k], now) {
      k := TickOutputSends(n, order[..|order| - 1], now, s);
    }
  }

  lemma MidTickOk(n: Node, i: Input, now: int)
    requires NodeOk(n) && InputOk(n, i, now) && i.Clock?
    ensures var mid := TickRequests(n, i.reqOrder, now).node; NodeOk(mid) && SameConfig(n, mid)
  {
    var mid := TickRequests(n, i.reqOrder, now).node;
    TickRequestsOk(n, i.reqOrder, now);
    TickRequestsInstalls(n, i.reqOrder, now);
    forall k | k in mid.conns
      ensures RecordOk(n.own, k, mid.conns[k])
    {
      if k !in n.conns {
        InstalledOk(n, k, mid.conns[k], i, now);
      }
    }
  }

  lemma StartSendsJustified(n: Node, k: Tuple, c: Connection, now: int, s: Send)
    requires RecordOk(n.own, k, c) && s in StartSends(c, now)
    requires k in n.conns && n.conns[k] == c.Ticked(now)
    ensures s.kind == MsgStart && s.src.id == k.src && s.dest.id == k.dest
    ensures StartJustified(n, s, now)
  {
  }

  lemma TickKeepsNew(mid: Node, n': Node, s: Send, k: Tuple, now: int)
    requires TickJustified(mid, s, k, now) && n'.own == mid.own && n'.conns == TickedConns(mid.conns, now)
    ensures RequestJustified(n', s, now)
  {
    assert n'.conns[k] == mid.conns[k];
  }

  lemma TickSends(n: Node, i: Input, now: int, s: Send)
    requires NodeOk(n) && InputOk(n, i, now) && i.Clock? && s in Step(n, i, now).sends
    ensures Justified(Step(n, i, now).node, s, i, now)
  {
    var mid := TickRequests(n, i.reqOrder, now);
    var n' := Step(n, i, now).node;
    MidTickOk(n, i, now);
    if s in mid.sends {
      TickRequestsSends(n, i.reqOrder, now, s);
      var k :| TickJustified(mid.node, s, k, now);
      TickKeepsNew(mid.node, n', s, k, now);
    } else {
      var k := TickOutputSends(mid.node, i.connOrder, now, s);
      assert RecordOk(n.own, k, mid.node.conns[k]);
      StartSendsJustified(n', k, mid.node.conns[k], now, s);
    }
  }

  // ------------------------------------------------------------ the other inputs

  lemma AuthSends(n: Node, i: Input, now: int, s: Send)
    requires NodeOk(n) && InputOk(n, i, now) && (i.Grant? || i.Deny?) && s in Step(n, i, now).sends
    ensures Justified(Step(n, i, now).node, s, i, now)
  {
    var k := Tuple(i.src.id, i.proxy.id, i.dest.id);
    assert RecordOk(n.own, k, n.conns[k]);
  }

  lemma RecvRequestSends(n: Node, i: Input, now: int, s: Send)
    requires NodeOk(n) && InputOk(n, i, now) && i.Recv? && i.m.kind == MsgRequest && s in Step(n, i, now).sends
    ensures Justified(Step(n, i, now).node, s, i, now)
  {
    var k := KeyOf(n, i.m);
    assert k in n.conns ==> RecordOk(n.own, k, n.conns[k]);
  }

  lemma RecvReplySends(n: Node, i: Input, now: int, s: Send)
    requires NodeOk(n) && i.Recv? && i.m.kind == MsgReply && s in Step(n, i, now).sends
    ensures Justified(Step(n, i, now).node, s, i, now)
  {
    var k := KeyOf(n, i.m);
    assert RecordOk(n.own, k, n.conns[k]);
  }

  lemma RecvStartSends(n: Node, i: Input, now: int, s: Send)
    requires NodeOk(n) && i.Recv? && i.m.kind == MsgStart && s in Step(n, i, now).sends
    ensures s.kind == MsgAck && Justified(Step(n, i, now).node, s, i, now)
  {
    var k := KeyOf(n, i.m);
    assert RecordOk(n.own, k, n.conns[k]);
  }

  /** Every message a step sends is justified. */
  lemma StepSends(n: Node, i: Input, now: int, s: Send)
    requires NodeOk(n) && InputOk(n, i, now) && s in Step(n, i, now).sends
    ensures Justified(Step(n, i, now).node, s, i, now)
  {
    if i.Clock? {
      TickSends(n, i, now, s);
    } else if i.Grant? || i.Deny? {
      AuthSends(n, i, now, s);
    } else if i.Recv? {
      match i.m.kind {
        case MsgRequest => RecvRequestSends(n, i, now, s);
        case MsgReply => RecvReplySends(n, i, now, s);
        case MsgStart => RecvStartSends(n, i, now, s);
        case MsgAck =>
      }
    }
  }

  /** START messages go out on ticks only. */
  lemma OnlyTicksSendStarts(n: Node, i: Input, now: int, s: Send)
    requires NodeOk(n) && InputOk(n, i, now) && s in Step(n, i, now).sends && s.kind == MsgStart
    ensures i.Clock?
  {
    if i.Recv? && i.m.kind == MsgStart {
      RecvStartSends(n, i, now, s);
    }
  }
}
