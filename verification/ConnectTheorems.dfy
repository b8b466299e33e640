/**
 What the handshake guarantees over every run of a network of honest nodes.
 */
module ConnectTheorems {
  import opened ConnectCodes
  import opened ConnectNode
  import opened ConnectSteps
  import opened ConnectInvariant
  import opened ConnectRuns
  import opened ConnectRequests
  import opened ConnectSends
  import opened ConnectNetwork

  // ------------------------------------------------------------ entering a state

  /** Move j takes the record at x from elsewhere into this state. */
  ghost predicate Enters(run: seq<Net>, j: int, x: NodeId, k: Tuple, point: Point, state: ConnState) {
    !Seen(run, j, x, k, point, state) && Seen(run, j + 1, x, k, point, state)
  }

  lemma NothingSeenAtFirst(run: seq<Net>, moves: seq<Move>, x: NodeId, k: Tuple, point: Point, state: ConnState)
    requires NetRun(run, moves)
    ensures !Seen(run, 0, x, k, point, state)
  {
  }

  lemma {:induction false} FirstSeen(run: seq<Net>, moves: seq<Move>, h: int, x: NodeId, k: Tuple,
                                     point: Point, state: ConnState)
    returns (j: int)
    requires NetRun(run, moves) && Seen(run, h, x, k, point, state)
    ensures 0 <= j < h && Enters(run, j, x, k, point, state)
    decreases h
  {
    NothingSeenAtFirst(run, moves, x, k, point, state);
    if Seen(run, h - 1, x, k, point, state) {
      j := FirstSeen(run, moves, h - 1, x, k, point, state);
    } else {
      j := h - 1;
    }
  }

  /** The move that enters a state is made at that node, and the record is new or moved on. */
  lemma EntryIsAStep(run: seq<Net>, moves: seq<Move>, j: int, x: NodeId, k: Tuple, point: Point, state: ConnState)
    requires NetRun(run, moves) && 0 <= j < |moves| && Enters(run, j, x, k, point, state)
    ensures moves[j].x == x && x in run[j].nodes && run[j].nodes[x].own == x
    ensures NodeOk(run[j].nodes[x]) && NodeOk(run[j + 1].nodes[x]) && InputOk(run[j].nodes[x], moves[j].i, moves[j].now)
    ensures k in run[j].nodes[x].conns ==> RecordOk(x, k, run[j].nodes[x].conns[k])
    ensures RecordOk(x, k, run[j + 1].nodes[x].conns[k])
    ensures Came(run[j].nodes[x], k, run[j + 1].nodes[x].conns[k], moves[j].i, moves[j].now)
  {
    NetRunOk(run, moves, j);
    NetRunOk(run, moves, j + 1);
    assert MoveOk(run[j], moves[j]) && run[j + 1] == Moved(run[j], moves[j]);
    assert OneMove(run, j, moves[j]);
    MoveInputOk(run, j, moves[j]);
    StepCame(run[j].nodes[moves[j].x], moves[j].i, moves[j].now);
  }

  ghost predicate ProxyAuthorises(run: seq<Net>, moves: seq<Move>, j: int, k: Tuple) {
    && 0 <= j < |moves| && moves[j].x == k.proxy && j < |run| && k.proxy in run[j].nodes
    && (moves[j].i.Grant? || (moves[j].i.Recv? && moves[j].i.m.kind == MsgRequest && run[j].nodes[k.proxy].autoProxy))
    && Enters(run, j, k.proxy, k, MidPoint, WaitingReply)
  }

  ghost predicate EndAuthorises(run: seq<Net>, moves: seq<Move>, j: int, k: Tuple) {
    && 0 <= j < |moves| && moves[j].x == k.dest && moves[j].i.Grant?
    && Seen(run, j, k.dest, k, EndPoint, WaitingAuth) && Enters(run, j, k.dest, k, EndPoint, WaitingStart)
  }

  ghost predicate ProxyTakesOkay(run: seq<Net>, moves: seq<Move>, j: int, k: Tuple) {
    && 0 <= j < |moves| && moves[j].x == k.proxy
    && moves[j].i.Recv? && moves[j].i.m.kind == MsgReply && moves[j].i.m.status == OKAY
    && Seen(run, j, k.proxy, k, MidPoint, WaitingReply) && Enters(run, j, k.proxy, k, MidPoint, WaitingAck)
  }

  lemma WaitingReplyIsAuthorised(run: seq<Net>, moves: seq<Move>, h: int, k: Tuple) returns (j: int)
    requires NetRun(run, moves) && Seen(run, h, k.proxy, k, MidPoint, WaitingReply)
    ensures j < h && ProxyAuthorises(run, moves, j, k)
  {
    j := FirstSeen(run, moves, h, k.proxy, k, MidPoint, WaitingReply);
    EntryIsAStep(run, moves, j, k.proxy, k, MidPoint, WaitingReply);
  }

  lemma WaitingStartIsAuthorised(run: seq<Net>, moves: seq<Move>, h: int, k: Tuple) returns (j: int)
    requires NetRun(run, moves) && Seen(run, h, k.dest, k, EndPoint, WaitingStart)
    ensures j < h && EndAuthorises(run, moves, j, k)
  {
    j := FirstSeen(run, moves, h, k.dest, k, EndPoint, WaitingStart);
    EntryIsAStep(run, moves, j, k.dest, k, EndPoint, WaitingStart);
  }

  lemma WaitingAckTookOkay(run: seq<Net>, moves: seq<Move>, h: int, k: Tuple) returns (j: int)
    requires NetRun(run, moves) && Seen(run, h, k.proxy, k, MidPoint, WaitingAck)
    ensures j < h && ProxyTakesOkay(run, moves, j, k)
  {
    j := FirstSeen(run, moves, h, k.proxy, k, MidPoint, WaitingAck);
    EntryIsAStep(run, moves, j, k.proxy, k, MidPoint, WaitingAck);
  }

  /** The proxy never checks who sent the reply it acts on; still, whenever it takes
      an OKAY, it had authorised the attempt before, and so had the destination. */
  lemma OkayIsDoublyAuthorised(run: seq<Net>, moves: seq<Move>, c: int, k: Tuple) returns (a: int, b: int)
    requires NetRun(run, moves) && ProxyTakesOkay(run, moves, c, k)
    ensures a < c && ProxyAuthorises(run, moves, a, k)
    ensures b < c && EndAuthorises(run, moves, b, k)
  {
    NetRunOk(run, moves, c + 1);
    assert RecordPast(run, c + 1, k, run[c + 1].nodes[k.proxy].conns[k]);
    var j :| j < c + 1 && Seen(run, j, k.proxy, k, MidPoint, WaitingReply);
    a := WaitingReplyIsAuthorised(run, moves, j, k);
    var j' :| j' < c + 1 && Seen(run, j', k.dest, k, EndPoint, WaitingStart);
    b := WaitingStartIsAuthorised(run, moves, j', k);
  }

  /** Authorisation precedes completion: in every run, with messages lost, repeated
      and reordered at will, an end of a proxied connection is COMPLETED only after
      the proxy took an OKAY reply, and that only after both the proxy and the
      destination authorised this very tuple. */
  lemma AuthorisationPrecedesCompletion(run: seq<Net>, moves: seq<Move>, h: nat, e: NodeId, k: Tuple)
    requires NetRun(run, moves) && h < |run| && e in run[h].nodes
    requires k in run[h].nodes[e].conns && run[h].nodes[e].conns[k].state == Completed
    requires run[h].nodes[e].conns[k].mode != Direct
    ensures exists a, b, c :: a < c && b < c && c < h &&
              ProxyAuthorises(run, moves, a, k) && EndAuthorises(run, moves, b, k) && ProxyTakesOkay(run, moves, c, k)
  {
    NetRunOk(run, moves, h);
    assert RecordPast(run, h, k, run[h].nodes[e].conns[k]);
    var j :| j < h && Seen(run, j, k.proxy, k, MidPoint, WaitingAck);
    var c := WaitingAckTookOkay(run, moves, j, k);
    var a, b := OkayIsDoublyAuthorised(run, moves, c, k);
  }

  // ------------------------------------------------------------ agreement at the finish

  lemma LastAck(n: Node, m: Msg, now: int, k: Tuple)
    requires NodeOk(n) && k in n.conns && n.conns[k].point == MidPoint && k !in RecvAck(n, m, now).node.conns
    ensures k == KeyOf(n, m) && k == Tuple(m.src.id, n.own, m.dest.id) && n.conns[k].state == WaitingAck
    ensures (m.from.id == k.src && n.conns[k].destAck) || (m.from.id == k.dest && n.conns[k].srcAck)
  {
    assert RecordOk(n.own, k, n.conns[k]);
  }

  /** Whenever an ack makes the proxy drop a record as finished, both ends had been
      COMPLETED for that tuple before. */
  lemma FinishMeansBothCompleted(run: seq<Net>, moves: seq<Move>, h: nat, k: Tuple)
    requires NetRun(run, moves) && h < |moves| && moves[h].i.Recv? && moves[h].i.m.kind == MsgAck
    requires moves[h].x in run[h].nodes && k in run[h].nodes[moves[h].x].conns
    requires run[h].nodes[moves[h].x].conns[k].point == MidPoint
    requires k !in RecvAck(run[h].nodes[moves[h].x], moves[h].i.m, moves[h].now).node.conns
    ensures WasCompleted(run, h + 1, k.src, k) && WasCompleted(run, h + 1, k.dest, k)
  {
    var mv := moves[h];
    var n := run[h].nodes[mv.x];
    NetRunOk(run, moves, h);
    assert MoveOk(run[h], mv);
    assert PacketOk(run, h, mv.p);
    LastAck(n, mv.i.m, mv.now, k);
    assert n.own == mv.x && RecordPast(run, h, k, n.conns[k]);
  }

  /** An ack from anyone but the two ends changes nothing. */
  lemma ThirdPartyAckIsIgnored(n: Node, m: Msg, now: int)
    requires NodeOk(n) && m.from.id != m.src.id && m.from.id != m.dest.id
    ensures RecvAck(n, m, now) == Quiet(n)
  {
    var k := KeyOf(n, m);
    if k in n.conns {
      assert RecordOk(n.own, k, n.conns[k]);
      assert n.conns[k := n.conns[k]] == n.conns;
    }
  }

  /** A completed record is never touched again, only dropped. */
  lemma CompletedIsFinal(n: Node, i: Input, now: int, k: Tuple)
    requires NodeOk(n) && InputOk(n, i, now) && k in n.conns && n.conns[k].state == Completed
    ensures k in Step(n, i, now).node.conns ==> Step(n, i, now).node.conns[k] == n.conns[k]
  {
    StepCame(n, i, now);
    if k in Step(n, i, now).node.conns {
      assert Came(n, k, Step(n, i, now).node.conns[k], i, now);
    }
  }
}
