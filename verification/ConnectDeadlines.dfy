/**
 Deadlines, through a whole attempt: the START that completes an end is traced
 back to the record of the proxy that sent it, and that record to the REQUEST
 that made it and the OKAY it took, however many attempts the same three nodes
 have made before and however old the messages are.
 */
module ConnectDeadlines {
  import opened ConnectCodes
  import opened ConnectNode
  import opened ConnectSteps
  import opened ConnectInvariant
  import opened ConnectRuns
  import opened ConnectSends
  import opened ConnectLaws
  import opened ConnectNetwork
  import opened ConnectTheorems

  // ------------------------------------------------------------ one record's life

  /** The record under k that x has in state j is the one that move i installed. */
  ghost predicate Lives(run: seq<Net>, i: int, j: int, x: NodeId, k: Tuple) {
    && 0 <= i < j < |run| && x in run[i].nodes && k !in run[i].nodes[x].conns
    && Stays(run, i + 1, j, x, k)
  }

  ghost predicate Stays(run: seq<Net>, i: int, j: int, x: NodeId, k: Tuple) {
    0 <= i <= j < |run| && forall s :: i <= s <= j ==> x in run[s].nodes && k in run[s].nodes[x].conns
  }

  function RecordAt(run: seq<Net>, j: int, x: NodeId, k: Tuple): Connection
    requires 0 <= j < |run| && x in run[j].nodes && k in run[j].nodes[x].conns
  {
    run[j].nodes[x].conns[k]
  }

  /** A record is as it was one state before, or this node's move made it so. */
  ghost predicate RecordMoved(run: seq<Net>, mv: Move, j: int, x: NodeId, k: Tuple)
    requires 0 < j < |run| && x in run[j].nodes && k in run[j].nodes[x].conns
  {
    && x in run[j - 1].nodes && run[j - 1].nodes[x].own == x
    && RecordOk(x, k, RecordAt(run, j, x, k))
    && var n, c := run[j - 1].nodes[x], RecordAt(run, j, x, k);
       && (k in n.conns ==> RecordOk(x, k, n.conns[k]))
       && ((k in n.conns && c == n.conns[k])
           || (mv.x == x && InputOk(n, mv.i, mv.now) && Came(n, k, c, mv.i, mv.now)))
  }

  lemma RecordInMove(run: seq<Net>, j: int, mv: Move, x: NodeId, k: Tuple)
    requires 0 < j < |run| && OneMove(run, j - 1, mv) && NodesOk(run[j])
    requires x in run[j].nodes && k in run[j].nodes[x].conns
    ensures RecordMoved(run, mv, j, x, k)
  {
    MoveInputOk(run, j - 1, mv);
    StepCame(run[j - 1].nodes[mv.x], mv.i, mv.now);
    assert NodeOk(run[j].nodes[x]) && NodeOk(run[j - 1].nodes[x]);
  }

  lemma RecordCame(run: seq<Net>, moves: seq<Move>, j: int, x: NodeId, k: Tuple)
    requires NetRun(run, moves) && 0 < j < |run| && x in run[j].nodes && k in run[j].nodes[x].conns
    ensures RecordMoved(run, moves[j - 1], j, x, k)
  {
    IsOneMove(run, moves, j);
    RecordInMove(run, j, moves[j - 1], x, k);
  }

  /** Move i makes the proxy take the source's REQUEST for k. */
  ghost predicate ProxyTakesRequest(moves: seq<Move>, i: int, k: Tuple) {
    && 0 <= i < |moves| && moves[i].x == k.proxy && moves[i].i.Recv? && moves[i].i.m.kind == MsgRequest
    && moves[i].i.m.from.id == k.src && moves[i].i.m.src.id == k.src && moves[i].i.m.dest.id == k.dest
    && moves[i].i.m.mode != Direct
  }

  lemma StaysInside(run: seq<Net>, i: int, m: int, j: int, x: NodeId, k: Tuple)
    requires Lives(run, i, j, x, k) && Stays(run, m, j, x, k)
    ensures i < m
  {
    if m <= i <= j {
      assert false;
    }
  }

  lemma LivesOn(run: seq<Net>, i: int, j: int, x: NodeId, k: Tuple)
    requires j < |run| && Lives(run, i, j - 1, x, k) && x in run[j].nodes && k in run[j].nodes[x].conns
    ensures Lives(run, i, j, x, k)
  {
  }

  /** The record still has what the REQUEST said and what the proxy knew when it came. */
  ghost predicate Carries(c: Connection, i: Input) {
    && i.Recv? && i.found == Some(c.dest) && c.src == i.m.from && c.mode == i.m.mode
    && c.srcAddr == if c.state == WaitingAck then Known(i.m.src, i.m.from.addr) else i.m.src
  }

  /** One step back for a record of the proxy. */
  lemma MidRecordCame(n: Node, k: Tuple, c: Connection, i: Input, now: int)
    requires InputOk(n, i, now) && Came(n, k, c, i, now) && c.point == MidPoint && RecordOk(n.own, k, c)
    requires k in n.conns ==> RecordOk(n.own, k, n.conns[k])
    ensures k in n.conns ==> n.conns[k].point == MidPoint && n.conns[k].Deadline() <= c.Deadline()
    ensures k !in n.conns ==>
              && c.state != WaitingAck
              && i.Recv? && i.m.kind == MsgRequest && i.m.mode != Direct && now + i.m.param <= c.Deadline()
              && i.m.from.id == k.src && i.m.src.id == k.src && i.m.dest.id == k.dest
    ensures k in n.conns && c.state == WaitingAck && n.conns[k].state != WaitingAck ==>
              && n.conns[k].state == WaitingReply
              && i.Recv? && i.m.kind == MsgReply && i.m.status == OKAY && now + i.m.param <= c.Deadline()
              && c.destAddr == Known(i.m.dest, c.dest.addr)
    ensures k in n.conns && c.state == WaitingAck && n.conns[k].state == WaitingAck ==>
              c.srcAddr == n.conns[k].srcAddr && c.destAddr == n.conns[k].destAddr
    ensures k in n.conns ==> c.dest == n.conns[k].dest && forall i0 :: Carries(n.conns[k], i0) ==> Carries(c, i0)
    ensures k !in n.conns ==> Carries(c, i)
  {
  }

  ghost predicate HasMid(run: seq<Net>, j: int, k: Tuple) {
    && 0 <= j < |run| && k.proxy in run[j].nodes && k in run[j].nodes[k.proxy].conns
    && RecordAt(run, j, k.proxy, k).point == MidPoint
  }

  /** The proxy's record of state j was there before, due no later, or was just made by a REQUEST. */
  ghost predicate MidMade(run: seq<Net>, moves: seq<Move>, j: int, k: Tuple)
    requires HasMid(run, j, k)
  {
    && 0 < j <= |moves| && k.proxy in run[j - 1].nodes
    && var due := RecordAt(run, j, k.proxy, k).Deadline();
       var c := RecordAt(run, j, k.proxy, k);
       if k in run[j - 1].nodes[k.proxy].conns then
         && HasMid(run, j - 1, k) && RecordAt(run, j - 1, k.proxy, k).Deadline() <= due
         && forall i0 :: Carries(RecordAt(run, j - 1, k.proxy, k), i0) ==> Carries(c, i0)
       else
         && ProxyTakesRequest(moves, j - 1, k) && moves[j - 1].now + moves[j - 1].i.m.param <= due
         && Carries(c, moves[j - 1].i)
  }

  lemma MidRecordMade(run: seq<Net>, moves: seq<Move>, j: int, k: Tuple)
    requires NetRun(run, moves) && HasMid(run, j, k)
    ensures MidMade(run, moves, j, k)
  {
    NothingSeenAtFirst(run, moves, k.proxy, k, MidPoint, RecordAt(run, j, k.proxy, k).state);
    RecordCame(run, moves, j, k.proxy, k);
    var n, c, mv := run[j - 1].nodes[k.proxy], RecordAt(run, j, k.proxy, k), moves[j - 1];
    if !(k in n.conns && c == n.conns[k]) {
      MidRecordCame(n, k, c, mv.i, mv.now);
    }
  }

  lemma {:induction false} MadeBy(run: seq<Net>, moves: seq<Move>, j: int, k: Tuple) returns (i: int)
    requires forall s :: HasMid(run, s, k) ==> MidMade(run, moves, s, k)
    requires HasMid(run, j, k)
    ensures Lives(run, i, j, k.proxy, k) && ProxyTakesRequest(moves, i, k)
    ensures Carries(RecordAt(run, j, k.proxy, k), moves[i].i)
    ensures moves[i].now + moves[i].i.m.param <= RecordAt(run, j, k.proxy, k).Deadline()
    decreases j
  {
    assert MidMade(run, moves, j, k);
    if k in run[j - 1].nodes[k.proxy].conns {
      i := MadeBy(run, moves, j - 1, k);
      LivesOn(run, i, j, k.proxy, k);
    } else {
      i := j - 1;
      assert Stays(run, j, j, k.proxy, k);
    }
  }

  /** The proxy's record was made by a REQUEST, and its deadline is never earlier than what that asked for. */
  lemma RequestOf(run: seq<Net>, moves: seq<Move>, j: int, k: Tuple) returns (i: int)
    requires NetRun(run, moves) && HasMid(run, j, k)
    ensures Lives(run, i, j, k.proxy, k) && ProxyTakesRequest(moves, i, k)
    ensures Carries(RecordAt(run, j, k.proxy, k), moves[i].i)
    ensures moves[i].now + moves[i].i.m.param <= RecordAt(run, j, k.proxy, k).Deadline()
  {
    forall s | HasMid(run, s, k)
      ensures MidMade(run, moves, s, k)
    {
      MidRecordMade(run, moves, s, k);
    }
    i := MadeBy(run, moves, j, k);
  }

  ghost predicate IsAcked(run: seq<Net>, j: int, k: Tuple) { Seen(run, j, k.proxy, k, MidPoint, WaitingAck) }

  /** The proxy's waiting record of state j was waiting before, due no later, or has just taken an OKAY. */
  ghost predicate AckedStep(run: seq<Net>, moves: seq<Move>, j: int, k: Tuple)
    requires IsAcked(run, j, k)
  {
    && 0 < j <= |moves| && k.proxy in run[j - 1].nodes && k in run[j - 1].nodes[k.proxy].conns
    && var due := RecordAt(run, j, k.proxy, k).Deadline();
       var c, c0 := RecordAt(run, j, k.proxy, k), RecordAt(run, j - 1, k.proxy, k);
       if IsAcked(run, j - 1, k) then
         c0.Deadline() <= due && c.dest == c0.dest && c.srcAddr == c0.srcAddr && c.destAddr == c0.destAddr
       else
         && ProxyTakesOkay(run, moves, j - 1, k) && moves[j - 1].now + moves[j - 1].i.m.param <= due
         && c.destAddr == Known(moves[j - 1].i.m.dest, c.dest.addr)
  }

  lemma AckedRecordCame(run: seq<Net>, moves: seq<Move>, j: int, k: Tuple)
    requires NetRun(run, moves) && IsAcked(run, j, k)
    ensures AckedStep(run, moves, j, k)
  {
    NothingSeenAtFirst(run, moves, k.proxy, k, MidPoint, WaitingAck);
    RecordCame(run, moves, j, k.proxy, k);
    var n, c, mv := run[j - 1].nodes[k.proxy], RecordAt(run, j, k.proxy, k), moves[j - 1];
    if !(k in n.conns && c == n.conns[k]) {
      MidRecordCame(n, k, c, mv.i, mv.now);
    }
  }

  lemma {:induction false} AckedBy(run: seq<Net>, moves: seq<Move>, j: int, k: Tuple) returns (m: int)
    requires forall s :: IsAcked(run, s, k) ==> AckedStep(run, moves, s, k)
    requires IsAcked(run, j, k)
    ensures Stays(run, m, j, k.proxy, k) && m < j && ProxyTakesOkay(run, moves, m, k)
    ensures var c := RecordAt(run, j, k.proxy, k); c.destAddr == Known(moves[m].i.m.dest, c.dest.addr)
    ensures moves[m].now + moves[m].i.m.param <= RecordAt(run, j, k.proxy, k).Deadline()
    decreases j
  {
    assert AckedStep(run, moves, j, k);
    if IsAcked(run, j - 1, k) {
      m := AckedBy(run, moves, j - 1, k);
    } else {
      m := j - 1;
    }
  }

  /** A proxy's record that waits for acks took an OKAY, and its deadline is never earlier than what that asked for. */
  lemma OkayOf(run: seq<Net>, moves: seq<Move>, j: int, k: Tuple) returns (m: int)
    requires NetRun(run, moves) && IsAcked(run, j, k)
    ensures Stays(run, m, j, k.proxy, k) && m < j && ProxyTakesOkay(run, moves, m, k)
    ensures var c := RecordAt(run, j, k.proxy, k); c.destAddr == Known(moves[m].i.m.dest, c.dest.addr)
    ensures moves[m].now + moves[m].i.m.param <= RecordAt(run, j, k.proxy, k).Deadline()
  {
    forall s | IsAcked(run, s, k)
      ensures AckedStep(run, moves, s, k)
    {
      AckedRecordCame(run, moves, s, k);
    }
    m := AckedBy(run, moves, j, k);
  }

  // ------------------------------------------------------------ what a message asks for

  /** In state s node x sent q about k, and its record, stamped by the very move, is due by then. */
  ghost predicate Asked(run: seq<Net>, s: int, q: Packet, x: NodeId, k: Tuple, point: Point, due: int) {
    && SentAt(run, s, q) && q.from == x && Seen(run, s, x, k, point, WaitingStart)
    && RecordAt(run, s, x, k).lastEvent == q.at && RecordAt(run, s, x, k).Deadline() <= due
  }

  lemma RequestAsks(run: seq<Net>, moves: seq<Move>, i: int, k: Tuple, due: int) returns (s: int)
    requires NetRun(run, moves) && ProxyTakesRequest(moves, i, k) && moves[i].now + moves[i].i.m.param <= due
    ensures s <= i && Asked(run, s, moves[i].p, k.src, k, StartPoint, due)
  {
    var p := moves[i].p;
    assert MoveOk(run[i], moves[i]);
    NetRunOk(run, moves, i);
    assert PacketOk(run, i, p);
    s := SentByMove(run, moves, i, p);
    var n := run[s].nodes[k.src];
    var second := Tuple(k.src, n.own, k.dest);
    assert second in n.conns ==> RecordOk(n.own, second, n.conns[second]);
  }

  lemma OkayRecord(run: seq<Net>, s: int, q: Packet, i: Input, k: Tuple)
    requires 0 <= s < |run| && NetOk(run, s) && q.from == k.dest && k.dest in run[s].nodes && run[s].now == q.at
    requires q.send.kind == MsgReply && q.send.status == OKAY && q.send.to.id == k.proxy
    requires q.send.src.id == k.src && ReplyJustified(run[s].nodes[k.dest], q.send, i, q.at) && q.send.dest.id == k.dest
    ensures Seen(run, s, k.dest, k, EndPoint, WaitingStart)
    ensures var c := RecordAt(run, s, k.dest, k); c.lastEvent == q.at && c.Deadline() <= q.at + q.send.param
  {
    assert RecordPast(run, s, k, run[s].nodes[k.dest].conns[k]);
  }

  lemma OkayAsks(run: seq<Net>, moves: seq<Move>, m: int, k: Tuple, due: int) returns (s: int)
    requires NetRun(run, moves) && ProxyTakesOkay(run, moves, m, k) && moves[m].now + moves[m].i.m.param <= due
    ensures s <= m && Asked(run, s, moves[m].p, k.dest, k, EndPoint, due)
  {
    var p := moves[m].p;
    OkayIsFor(run, moves, m, k);
    s := SentByMove(run, moves, m, p);
    NetRunOk(run, moves, s);
    OkayRecord(run, s, p, moves[s - 1].i, k);
  }

  lemma OkayIsFor(run: seq<Net>, moves: seq<Move>, m: int, k: Tuple)
    requires NetRun(run, moves) && ProxyTakesOkay(run, moves, m, k)
    ensures m < |run| && moves[m].p in run[m].sent && moves[m].p.at <= moves[m].now
    ensures var p := moves[m].p;
            && p.from == k.dest && p.send.kind == MsgReply && p.send.status == OKAY && p.send.to.id == k.proxy
            && p.send.src.id == k.src && p.send.dest.id == k.dest && p.send.param == moves[m].i.m.param
  {
    assert MoveOk(run[m], moves[m]);
    EntryIsAStep(run, moves, m, k.proxy, k, MidPoint, WaitingAck);
    NetRunOk(run, moves, m);
    assert PacketOk(run, m, moves[m].p);
  }

  // ------------------------------------------------------------ the theorem

  /** Move h delivers a START to an end that waits for it, in PROXY mode. */
  ghost predicate StartArrives(run: seq<Net>, moves: seq<Move>, h: nat, k: Tuple) {
    && h < |moves| && h < |run| && moves[h].x in run[h].nodes
    && moves[h].i.Recv? && moves[h].i.m.kind == MsgStart && moves[h].i.m.mode == Proxy
    && var n := run[h].nodes[moves[h].x];
       && k == KeyOf(n, moves[h].i.m) && k in n.conns
       && n.conns[k].state == WaitingStart && n.conns[k].mode == Proxy
  }

  lemma StartCompletes(n: Node, m: Msg, now: int)
    requires var k := KeyOf(n, m); k in n.conns && n.conns[k].state == WaitingStart && n.conns[k].mode == Proxy
    ensures var k := KeyOf(n, m);
            var n' := RecvStart(n, m, now).node;
            && k in n'.conns && n'.conns[k].state == Completed
            && now + m.param <= n'.conns[k].Deadline() && n.conns[k].Deadline() <= n'.conns[k].Deadline()
  {
  }

  /** START p was sent in state j from a record of the proxy that is due by d.  That
      record was made by the REQUEST of move i and took the OKAY of move m, which the
      two ends sent in states s and e, then expecting the connection no later than
      the proxy did when it sent p. */
  ghost predicate Chain(run: seq<Net>, moves: seq<Move>, p: Packet, j: int, i: int, m: int, s: int, e: int,
                        k: Tuple, d: int)
  {
    && SentAt(run, j, p) && p.from == k.proxy && Seen(run, j, k.proxy, k, MidPoint, WaitingAck)
    && Lives(run, i, j, k.proxy, k) && i < m < j
    && ProxyTakesRequest(moves, i, k) && ProxyTakesOkay(run, moves, m, k)
    && var due := RecordAt(run, j, k.proxy, k).Deadline();
       && due <= d
       && s <= i && Asked(run, s, moves[i].p, k.src, k, StartPoint, due)
       && e <= m && Asked(run, e, moves[m].p, k.dest, k, EndPoint, due)
  }

  /** The state in which a START was sent, and what its sender's record then said. */
  lemma StartOf(run: seq<Net>, moves: seq<Move>, h: nat, k: Tuple) returns (j: int)
    requires NetRun(run, moves) && StartArrives(run, moves, h, k)
    ensures var p := moves[h].p;
            && SentAt(run, j, p) && j <= h && p.from == k.proxy && p.at <= moves[h].now
            && Seen(run, j, k.proxy, k, MidPoint, WaitingAck)
            && RecordAt(run, j, k.proxy, k).Deadline() <= p.at + moves[h].i.m.param
  {
    var mv := moves[h];
    assert MoveOk(run[h], mv);
    NetRunOk(run, moves, h);
    assert PacketOk(run, h, mv.p);
    var n := run[h].nodes[mv.x];
    assert n.own == mv.x && RecordOk(mv.x, k, n.conns[k]);
    j := SentByMove(run, moves, h, mv.p);
    var sender := run[j].nodes[k.proxy];
    assert StartJustified(sender, mv.p.send, mv.p.at);
    assert RecordOk(sender.own, k, sender.conns[k]);
  }

  /** In PROXY mode deadlines only move out: the end completes with a deadline that is
      no earlier than its own was and no earlier than that of the very record that
      sent the START, and that one is no earlier than what the two ends asked for in
      the very messages that record was made from. */
  lemma DeadlinesOnlyMoveOut(run: seq<Net>, moves: seq<Move>, h: nat, k: Tuple)
    requires NetRun(run, moves) && StartArrives(run, moves, h, k)
    ensures var x := moves[h].x;
            && x in run[h + 1].nodes && k in run[h + 1].nodes[x].conns
            && var c' := RecordAt(run, h + 1, x, k);
               && c'.state == Completed && RecordAt(run, h, x, k).Deadline() <= c'.Deadline()
               && exists j, i, m, s, e :: j <= h && Chain(run, moves, moves[h].p, j, i, m, s, e, k, c'.Deadline())
  {
    var mv := moves[h];
    assert MoveOk(run[h], mv) && run[h + 1] == Moved(run[h], mv);
    StartCompletes(run[h].nodes[mv.x], mv.i.m, mv.now);
    var j := StartOf(run, moves, h, k);
    var due := RecordAt(run, j, k.proxy, k).Deadline();
    var i := RequestOf(run, moves, j, k);
    var m := OkayOf(run, moves, j, k);
    StaysInside(run, i, m, j, k.proxy, k);
    var s := RequestAsks(run, moves, i, k, due);
    var e := OkayAsks(run, moves, m, k, due);
    assert Chain(run, moves, mv.p, j, i, m, s, e, k, RecordAt(run, h + 1, mv.x, k).Deadline());
  }
}
