/**
 Error fidelity over runs of the network: what a source makes of a refusal that
 names the END, and where that refusal came from.
 */
module ConnectRefusals {
  import opened ConnectCodes
  import opened ConnectNode
  import opened ConnectSteps
  import opened ConnectInvariant
  import opened ConnectRuns
  import opened ConnectRequests
  import opened ConnectSends
  import opened ConnectNetwork

  // ------------------------------------------------------------ the request table over network runs

  ghost predicate Uncancelled(moves: seq<Move>) { forall j :: 0 <= j < |moves| ==> !moves[j].i.Cancel? }

  lemma MoveLinked(n: Node, i: Input, before: int, now: int)
    requires NodeOk(n) && InputOk(n, i, now) && !i.Cancel? && before <= now
    requires AllLinked(n) && StampedBy(n, before)
    ensures AllLinked(Step(n, i, now).node) && StampedBy(Step(n, i, now).node, now)
  {
    StepLinked(n, i, now);
    StepStampedBy(n, i, now);
  }

  /** Without user cancellation every START_POINT record of every node is the current attempt of a live request. */
  lemma {:induction false} NetLinked(run: seq<Net>, moves: seq<Move>, h: int, x: NodeId)
    requires NetRun(run, moves) && Uncancelled(moves) && 0 <= h < |run| && x in run[h].nodes
    ensures AllLinked(run[h].nodes[x]) && StampedBy(run[h].nodes[x], run[h].now)
    decreases h
  {
    if h == 0 {
      assert Fresh(run[0].nodes[x]);
    } else {
      var mv := moves[h - 1];
      assert MoveOk(run[h - 1], mv) && run[h] == Moved(run[h - 1], mv);
      NetLinked(run, moves, h - 1, x);
      if x == mv.x {
        NetRunOk(run, moves, h - 1);
        assert OneMove(run, h - 1, mv);
        MoveInputOk(run, h - 1, mv);
        MoveLinked(run[h - 1].nodes[x], mv.i, run[h - 1].now, mv.now);
      }
    }
  }

  // ------------------------------------------------------------ at the destination

  /** Why a destination refuses: the user said no, or it does not do the mode, or it has such a record already. */
  ghost predicate Refuses(n: Node, i: Input, s: Send) {
    match i
    case Deny(src, proxy, dest, _, _, err) =>
      var k := Tuple(src.id, proxy.id, dest.id);
      && k in n.conns && n.conns[k].point == EndPoint
      && s.src.id == k.src && s.dest.id == k.dest && s.to.id == k.proxy
      && s.status.typ == if err.typ == NoError then AuthDenied else err.typ
    case Recv(m, _) =>
      && m.kind == MsgRequest && s.to == m.from && s.src == m.src && s.dest == m.dest
      && if m.mode !in n.allowed then s.status.typ == Unsupported
         else s.status.typ == Duplicate && (KeyOf(n, m) in n.conns || HasRoute(n.conns, m.dest.id, m.src.id))
    case _ => false
  }

  lemma EndRefusalIsCaused(n: Node, i: Input, now: int, s: Send)
    requires NodeOk(n) && InputOk(n, i, now) && s in Step(n, i, now).sends && s.kind == MsgReply
    requires s.status != OKAY && s.status.source == SourceEnd && n.own == s.dest.id
    ensures Refuses(n, i, s)
  {
    if i.Clock? {
      TickSendsNoReply(n, i, now, s);
    } else if i.Deny? {
      var k := Tuple(i.src.id, i.proxy.id, i.dest.id);
      assert RecordOk(n.own, k, n.conns[k]);
    } else if i.Recv? {
      var k := KeyOf(n, i.m);
      assert k in n.conns ==> RecordOk(n.own, k, n.conns[k]);
    }
  }

  lemma TickSendsNoReply(n: Node, i: Input, now: int, s: Send)
    requires NodeOk(n) && InputOk(n, i, now) && i.Clock? && s in Step(n, i, now).sends
    ensures s.kind != MsgReply
  {
    var mid := TickRequests(n, i.reqOrder, now);
    MidTickOk(n, i, now);
    if s in mid.sends {
      TickRequestsSends(n, i.reqOrder, now, s);
    } else {
      var k := TickOutputSends(mid.node, i.connOrder, now, s);
    }
  }

  // ------------------------------------------------------------ on the way

  /** Packet q, new in state j, is the destination's refusal. */
  ghost predicate FromTheEnd(run: seq<Net>, moves: seq<Move>, j: int, q: Packet, src: NodeId, dest: NodeId, code: Code)
  {
    && 0 < j <= |moves| && SentAt(run, j, q) && moves[j - 1].x == q.from == dest && dest in run[j - 1].nodes
    && q.send.kind == MsgReply && q.send.status == code && q.send.src.id == src && q.send.dest.id == dest
    && Refuses(run[j - 1].nodes[dest], moves[j - 1].i, q.send)
  }

  /** In state f the node that q was sent to has passed it on to the source as p. */
  ghost predicate Forwards(run: seq<Net>, moves: seq<Move>, f: int, q: Packet, p: Packet) {
    && 0 < f <= |moves| && SentAt(run, f, p) && q in run[f - 1].sent
    && moves[f - 1].x == p.from == q.send.to.id && moves[f - 1].i.Recv? && moves[f - 1].p == q
    && p.send.to.id == p.send.src.id
  }

  ghost predicate IsEndRefusal(p: Packet) {
    p.send.kind == MsgReply && p.send.status != OKAY && p.send.status.source == SourceEnd
  }

  lemma SentByTheEnd(run: seq<Net>, moves: seq<Move>, h: int, p: Packet) returns (j: int)
    requires NetRun(run, moves) && 0 <= h < |run| && p in run[h].sent && IsEndRefusal(p) && p.from == p.send.dest.id
    ensures j <= h && FromTheEnd(run, moves, j, p, p.send.src.id, p.send.dest.id, p.send.status)
  {
    j := SentByMove(run, moves, h, p);
    EndRefusalIsCaused(run[j - 1].nodes[p.from], moves[j - 1].i, p.at, p.send);
  }

  lemma PassedOn(run: seq<Net>, moves: seq<Move>, h: int, p: Packet) returns (f: int)
    requires NetRun(run, moves) && 0 <= h < |run| && p in run[h].sent && IsEndRefusal(p) && p.from != p.send.dest.id
    ensures f <= h && 0 < f <= |moves| && Forwards(run, moves, f, moves[f - 1].p, p)
    ensures var q := moves[f - 1].p;
            IsEndRefusal(q) && q.send.status == p.send.status && p.from != p.send.src.id
            && q.send.src.id == p.send.src.id && q.send.dest.id == p.send.dest.id
  {
    f := SentByMove(run, moves, h, p);
    assert ReplyJustified(run[f].nodes[p.from], p.send, moves[f - 1].i, p.at);
    assert MoveOk(run[f - 1], moves[f - 1]);
  }

  /** Every refusal that names the END, wherever it is, was sent by the destination,
      for a reason, with this very code; if it comes from another node, that node was
      sent it by the destination and passed it on, once, to the source. */
  lemma EndRefusalsComeFromTheEnd(run: seq<Net>, moves: seq<Move>, h: int, p: Packet) returns (q: Packet, j: int)
    requires NetRun(run, moves) && 0 <= h < |run| && p in run[h].sent && IsEndRefusal(p)
    ensures j <= h && FromTheEnd(run, moves, j, q, p.send.src.id, p.send.dest.id, p.send.status)
    ensures p != q ==> exists f :: j < f <= h && Forwards(run, moves, f, q, p)
    ensures p == q <==> p.from == p.send.dest.id
  {
    if p.from == p.send.dest.id {
      q := p;
      j := SentByTheEnd(run, moves, h, p);
    } else {
      var f := PassedOn(run, moves, h, p);
      q := moves[f - 1].p;
      if q.from != q.send.dest.id {
        // what a node passes on goes to the source, and no source passes anything on
        var f' := PassedOn(run, moves, f - 1, q);
        assert false;
      }
      j := SentByTheEnd(run, moves, f - 1, q);
    }
  }

  // ------------------------------------------------------------ what each of the three does

  /** A user's no at the destination: the record goes, and the proxy is told why. */
  lemma RefusalAtTheEnd(n: Node, k: Tuple, i: Input, now: int)
    requires NodeOk(n) && InputOk(n, i, now) && i.Deny? && k == Tuple(i.src.id, i.proxy.id, i.dest.id)
    requires k in n.conns && n.conns[k].point == EndPoint && n.conns[k].mode != Direct
    ensures var out := Step(n, i, now);
            && |out.sends| == 1 && k !in out.node.conns
            && var s := out.sends[0];
               && s.kind == MsgReply && s.to.id == k.proxy && s.src.id == k.src && s.dest.id == k.dest
               && s.status.source == SourceEnd
               && s.status.typ == if i.err.typ == NoError then AuthDenied else i.err.typ
  {
    assert RecordOk(n.own, k, n.conns[k]);
  }

  /** What the proxy passes on: the same code, to the source. */
  lemma RefusalAtTheProxy(n: Node, k: Tuple, m: Msg, now: int)
    requires NodeOk(n) && m.kind == MsgReply && m.status != OKAY && k == KeyOf(n, m)
    requires k in n.conns && n.conns[k].point == MidPoint
    ensures var out := RecvReply(n, m, now);
            && |out.sends| == 1 && k !in out.node.conns
            && var s := out.sends[0];
               && s.kind == MsgReply && s.to.id == k.src && s.src.id == k.src && s.dest.id == k.dest
               && s.status == m.status
  {
    assert RecordOk(n.own, k, n.conns[k]);
  }

  predicate IsFinal(code: Code, mode: Mode) {
    code.typ in {AuthDenied, Unsupported, TempUnavail, Duplicate} || (code.typ == Unreachable && mode == Proxy)
  }

  /** What the source makes of it. */
  lemma RefusalAtTheSource(n: Node, k: Tuple, m: Msg, now: int)
    requires NodeOk(n) && AllLinked(n) && m.kind == MsgReply && m.status != OKAY && k == KeyOf(n, m)
    requires k in n.conns && n.conns[k].point == StartPoint && m.status.source == SourceEnd
    ensures var out := RecvReply(n, m, now);
            && k !in out.node.conns && k.dest in out.node.reqs
            && out.node.reqs[k.dest].err == m.status
            && (out.node.reqs[k.dest].state == Done <==> IsFinal(m.status, n.conns[k].mode))
  {
    assert RecordOk(n.own, k, n.conns[k]) && Linked(n, k);
  }

  /** Move h delivers a refusal that names the END to the source of k. */
  ghost predicate RefusalArrives(run: seq<Net>, moves: seq<Move>, h: int, k: Tuple) {
    && 0 <= h < |moves| && h < |run| && moves[h].x == k.src && k.src in run[h].nodes
    && moves[h].i.Recv? && IsEndRefusal(moves[h].p)
    && var n := run[h].nodes[k.src];
       k == KeyOf(n, moves[h].i.m) && k in n.conns && n.conns[k].point == StartPoint
  }

  /** The destination sent q, with this code, to the proxy, which passed it on as p. */
  ghost predicate CameThroughProxy(run: seq<Net>, moves: seq<Move>, h: int, p: Packet, q: Packet, j: int, f: int,
                                   k: Tuple)
  {
    && FromTheEnd(run, moves, j, q, k.src, k.dest, p.send.status) && q.send.to.id == k.proxy
    && j < f <= h && Forwards(run, moves, f, q, p) && p.from == k.proxy
  }

  /** Error fidelity, end to end, in every run without user cancellation: when a
      refusal that names the END reaches the source, its record goes, its request has
      that very code and is DONE for exactly the types listed, and the destination had
      refused with that code, to the proxy, which passed it on, or directly. */
  lemma RefusalReachesTheSource(run: seq<Net>, moves: seq<Move>, h: int, k: Tuple)
    requires NetRun(run, moves) && Uncancelled(moves) && RefusalArrives(run, moves, h, k)
    ensures k.src in run[h + 1].nodes
    ensures var p, mode, n' := moves[h].p, run[h].nodes[k.src].conns[k].mode, run[h + 1].nodes[k.src];
            && k !in n'.conns && k.dest in n'.reqs && n'.reqs[k.dest].err == p.send.status
            && (n'.reqs[k.dest].state == Done <==> IsFinal(p.send.status, mode))
            && (mode == Direct ==> exists j :: j <= h && FromTheEnd(run, moves, j, p, k.src, k.dest, p.send.status))
            && (mode != Direct ==> exists q, j, f :: CameThroughProxy(run, moves, h, p, q, j, f, k))
  {
    var mv := moves[h];
    var n := run[h].nodes[k.src];
    assert MoveOk(run[h], mv) && run[h + 1] == Moved(run[h], mv);
    NetRunOk(run, moves, h);
    assert NodeOk(n) && n.own == k.src && RecordOk(k.src, k, n.conns[k]);
    NetLinked(run, moves, h, k.src);
    RefusalAtTheSource(n, k, mv.i.m, mv.now);
    var q, j := EndRefusalsComeFromTheEnd(run, moves, h, mv.p);
    if n.conns[k].mode != Direct {
      var f :| j < f <= h && Forwards(run, moves, f, q, mv.p);
      assert CameThroughProxy(run, moves, h, mv.p, q, j, f, k);
    }
  }
}
