/**
 A network of nodes that all run the connection manager.  A message that was
 sent stays available for ever: it may be delivered never, late, out of order,
 or many times, but only to the node it names, and only as it was sent.
 */
module ConnectNetwork {
  import opened ConnectCodes
  import opened ConnectNode
  import opened ConnectSteps
  import opened ConnectInvariant
  import opened ConnectRuns
  import opened ConnectSends

  datatype Packet = Packet(from: NodeId, send: Send, at: int)
  datatype Net = Net(nodes: map<NodeId, Node>, sent: set<Packet>, now: int)

  /** Node x takes input i at a time; a received message came in packet p. */
  datatype Move = Move(x: NodeId, i: Input, now: int, p: Packet)

  function Carried(p: Packet, from: Addr): Msg {
    Msg(PeerId(p.from, from), p.send.kind, p.send.src, p.send.dest, p.send.mode, p.send.param, p.send.status)
  }

  ghost predicate MoveOk(net: Net, mv: Move) {
    && mv.x in net.nodes && net.now <= mv.now
    && if mv.i.Recv? then
         && mv.p in net.sent && mv.p.send.to.id == mv.x
         && mv.i.m == Carried(mv.p, mv.i.m.from.addr)
         && (mv.i.found.Some? ==> mv.i.found.value.id == mv.i.m.dest.id)
       else InputOk(net.nodes[mv.x], mv.i, mv.now)
  }

  function Moved(net: Net, mv: Move): Net
    requires mv.x in net.nodes
  {
    var out := Step(net.nodes[mv.x], mv.i, mv.now);
    Net(net.nodes[mv.x := out.node], net.sent + (set s | s in out.sends :: Packet(mv.x, s, mv.now)), mv.now)
  }

  ghost predicate FreshNet(net: Net) {
    net.sent == {} && forall x :: x in net.nodes ==> net.nodes[x].own == x && Fresh(net.nodes[x])
  }

  ghost predicate NetRun(run: seq<Net>, moves: seq<Move>) {
    && |run| == |moves| + 1
    && FreshNet(run[0])
    && forall j :: 0 <= j < |moves| ==> MoveOk(run[j], moves[j]) && run[j + 1] == Moved(run[j], moves[j])
  }

  // ------------------------------------------------------------ what was so at some earlier state

  ghost predicate Seen(run: seq<Net>, j: int, x: NodeId, k: Tuple, point: Point, state: ConnState) {
    0 <= j < |run| && x in run[j].nodes && Has(run[j].nodes[x], k, point, state)
  }

  ghost predicate Was(run: seq<Net>, hi: int, x: NodeId, k: Tuple, point: Point, state: ConnState) {
    exists j :: j < hi && Seen(run, j, x, k, point, state)
  }

  ghost predicate WasCompleted(run: seq<Net>, hi: int, x: NodeId, k: Tuple) {
    Was(run, hi, x, k, StartPoint, Completed) || Was(run, hi, x, k, EndPoint, Completed)
  }

  // ------------------------------------------------------------ the invariant at state h of the run

  ghost predicate RequestPacketOk(run: seq<Net>, h: int, p: Packet) {
    && WellFormed(p.send.to.id, Carried(p, NO_ADDR))
    && (p.from == p.send.src.id && p.send.mode != Direct ==>
          Was(run, h + 1, p.from, Tuple(p.from, p.send.to.id, p.send.dest.id), StartPoint, WaitingStart))
  }

  ghost predicate ReplyPacketOk(run: seq<Net>, h: int, p: Packet) {
    p.send.status == OKAY ==>
      && p.from == p.send.dest.id
      && Was(run, h + 1, p.from, Tuple(p.send.src.id, p.send.to.id, p.send.dest.id), EndPoint, WaitingStart)
  }

  ghost predicate StartPacketOk(run: seq<Net>, h: int, p: Packet) {
    var k := Tuple(p.send.src.id, p.from, p.send.dest.id);
    || (p.send.mode == Direct && p.from == k.dest && p.send.to.id == k.src)
    || (p.from !in {k.src, k.dest} && Was(run, h + 1, p.from, k, MidPoint, WaitingAck))
  }

  ghost predicate PacketOk(run: seq<Net>, h: int, p: Packet)
    requires 0 <= h < |run|
  {
    && p.at <= run[h].now
    && match p.send.kind
       case MsgRequest => RequestPacketOk(run, h, p)
       case MsgReply => ReplyPacketOk(run, h, p)
       case MsgStart => StartPacketOk(run, h, p)
       case MsgAck => WasCompleted(run, h + 1, p.from, Tuple(p.send.src.id, p.send.to.id, p.send.dest.id))
  }

  ghost predicate RecordPast(run: seq<Net>, h: int, k: Tuple, c: Connection)
    requires 0 <= h < |run|
  {
    && c.startTS <= run[h].now
    && (c.point == MidPoint ==> Was(run, h, k.src, k, StartPoint, WaitingStart))
    && (c.point == MidPoint && c.state == WaitingAck ==>
          && Was(run, h, k.proxy, k, MidPoint, WaitingReply)
          && Was(run, h, k.dest, k, EndPoint, WaitingStart)
          && (c.srcAck ==> WasCompleted(run, h, k.src, k))
          && (c.destAck ==> WasCompleted(run, h, k.dest, k)))
    && (c.state == Completed && c.mode != Direct ==> Was(run, h, k.proxy, k, MidPoint, WaitingAck))
  }

  ghost predicate NodesOk(net: Net) { forall x :: x in net.nodes ==> NodeOk(net.nodes[x]) && net.nodes[x].own == x }

  ghost predicate RecordsPast(run: seq<Net>, h: int)
    requires 0 <= h < |run|
  {
    forall x, k :: x in run[h].nodes && k in run[h].nodes[x].conns ==> RecordPast(run, h, k, run[h].nodes[x].conns[k])
  }

  ghost predicate PacketsOk(run: seq<Net>, h: int)
    requires 0 <= h < |run|
  {
    forall p :: p in run[h].sent ==> PacketOk(run, h, p)
  }

  ghost predicate NetOk(run: seq<Net>, h: int)
    requires 0 <= h < |run|
  {
    && NodesOk(run[h])
    && PacketsOk(run, h)
    && RecordsPast(run, h)
  }

  // ------------------------------------------------------------ the past only grows

  lemma PacketStays(run: seq<Net>, h: int, p: Packet)
    requires 0 <= h && h + 1 < |run| && PacketOk(run, h, p)
    requires run[h].now <= run[h + 1].now && run[h].sent <= run[h + 1].sent
    ensures PacketOk(run, h + 1, p)
  {
  }

  lemma RecordStays(run: seq<Net>, h: int, k: Tuple, c: Connection)
    requires 0 <= h && h + 1 < |run| && RecordPast(run, h, k, c) && run[h].now <= run[h + 1].now
    ensures RecordPast(run, h + 1, k, c)
  {
  }

  // ------------------------------------------------------------ one move

  /** Everything known at state h, and that state h + 1 is one move away. */
  ghost predicate OneMove(run: seq<Net>, h: int, mv: Move) {
    && 0 <= h && h + 1 < |run| && NetOk(run, h)
    && MoveOk(run[h], mv) && run[h + 1] == Moved(run[h], mv)
  }

  lemma MoveInputOk(run: seq<Net>, h: int, mv: Move)
    requires OneMove(run, h, mv)
    ensures InputOk(run[h].nodes[mv.x], mv.i, mv.now)
    ensures NodeOk(run[h].nodes[mv.x]) && run[h].nodes[mv.x].own == mv.x
  {
    if mv.i.Recv? {
      assert PacketOk(run, h, mv.p);
    }
  }

  lemma MoveNodesOk(run: seq<Net>, h: int, mv: Move)
    requires OneMove(run, h, mv)
    ensures NodesOk(run[h + 1])
  {
    MoveInputOk(run, h, mv);
    StepOk(run[h].nodes[mv.x], mv.i, mv.now);
    StepCame(run[h].nodes[mv.x], mv.i, mv.now);
  }

  lemma InstalledPast(run: seq<Net>, h: int, mv: Move, k: Tuple, c: Connection)
    requires OneMove(run, h, mv) && RecordOk(mv.x, k, c)
    requires Installed(run[h].nodes[mv.x], k, c, mv.i, mv.now)
    ensures RecordPast(run, h + 1, k, c)
  {
    if mv.i.Recv? {
      assert PacketOk(run, h, mv.p);
    }
  }

  lemma UpgradedPast(run: seq<Net>, h: int, mv: Move, k: Tuple, c: Connection, c': Connection)
    requires OneMove(run, h, mv) && mv.i.Recv? && mv.i.m.kind == MsgReply
    requires k in run[h].nodes[mv.x].conns && c == run[h].nodes[mv.x].conns[k] && RecordOk(mv.x, k, c)
    requires AdvancedByMsg(run[h].nodes[mv.x], k, c, c', mv.i.m, mv.now)
    ensures RecordPast(run, h + 1, k, c')
  {
    assert run[h].nodes[mv.x].own == mv.x;
    assert RecordPast(run, h, k, c) && PacketOk(run, h, mv.p);
    assert Seen(run, h, mv.x, k, MidPoint, WaitingReply);
  }

  lemma CompletedPast(run: seq<Net>, h: int, mv: Move, k: Tuple, c: Connection, c': Connection)
    requires OneMove(run, h, mv) && mv.i.Recv? && mv.i.m.kind == MsgStart
    requires k in run[h].nodes[mv.x].conns && c == run[h].nodes[mv.x].conns[k] && RecordOk(mv.x, k, c)
    requires AdvancedByMsg(run[h].nodes[mv.x], k, c, c', mv.i.m, mv.now)
    ensures RecordPast(run, h + 1, k, c')
  {
    assert run[h].nodes[mv.x].own == mv.x;
    assert RecordPast(run, h, k, c) && PacketOk(run, h, mv.p);
    assert k.proxy == mv.p.from;
  }

  lemma AckedPast(run: seq<Net>, h: int, mv: Move, k: Tuple, c: Connection, c': Connection)
    requires OneMove(run, h, mv) && mv.i.Recv? && mv.i.m.kind == MsgAck
    requires k in run[h].nodes[mv.x].conns && c == run[h].nodes[mv.x].conns[k] && RecordOk(mv.x, k, c)
    requires AdvancedByMsg(run[h].nodes[mv.x], k, c, c', mv.i.m, mv.now)
    ensures RecordPast(run, h + 1, k, c')
  {
    assert run[h].nodes[mv.x].own == mv.x;
    assert RecordPast(run, h, k, c) && PacketOk(run, h, mv.p);
    RecordStays(run, h, k, c);
  }

  lemma GrantedPast(run: seq<Net>, h: int, mv: Move, k: Tuple, c: Connection, c': Connection)
    requires OneMove(run, h, mv) && mv.i.Grant? && InputOk(run[h].nodes[mv.x], mv.i, mv.now)
    requires k in run[h].nodes[mv.x].conns && c == run[h].nodes[mv.x].conns[k] && RecordOk(mv.x, k, c)
    requires AdvancedByGrant(k, c, c', mv.i, mv.now)
    ensures RecordPast(run, h + 1, k, c')
  {
    assert run[h].nodes[mv.x].own == mv.x;
    assert RecordPast(run, h, k, c);
    RecordStays(run, h, k, c);
  }

  lemma MoveRecordPast(run: seq<Net>, h: int, mv: Move, k: Tuple)
    requires OneMove(run, h, mv) && k in run[h + 1].nodes[mv.x].conns
    ensures RecordPast(run, h + 1, k, run[h + 1].nodes[mv.x].conns[k])
  {
    var n := run[h].nodes[mv.x];
    var c' := run[h + 1].nodes[mv.x].conns[k];
    MoveInputOk(run, h, mv);
    MoveNodesOk(run, h, mv);
    StepCame(n, mv.i, mv.now);
    assert Came(n, k, c', mv.i, mv.now) && RecordOk(mv.x, k, c');
    if k !in n.conns {
      InstalledPast(run, h, mv, k, c');
    } else {
      var c := n.conns[k];
      assert RecordOk(mv.x, k, c);
      if c' == c {
        assert RecordPast(run, h, k, c);
        RecordStays(run, h, k, c);
      } else if mv.i.Clock? {
        assert RecordPast(run, h, k, c);
        RecordStays(run, h, k, c);
      } else if mv.i.Grant? {
        GrantedPast(run, h, mv, k, c, c');
      } else if mv.i.m.kind == MsgReply {
        UpgradedPast(run, h, mv, k, c, c');
      } else if mv.i.m.kind == MsgStart {
        CompletedPast(run, h, mv, k, c, c');
      } else {
        AckedPast(run, h, mv, k, c, c');
      }
    }
  }

  lemma MoveRecordsPast(run: seq<Net>, h: int, mv: Move)
    requires OneMove(run, h, mv)
    ensures RecordsPast(run, h + 1)
  {
    var nodes := run[h + 1].nodes;
    forall x, k | x in nodes && k in nodes[x].conns
      ensures RecordPast(run, h + 1, k, nodes[x].conns[k])
    {
      if x == mv.x {
        MoveRecordPast(run, h, mv, k);
      } else {
        assert RecordPast(run, h, k, run[h].nodes[x].conns[k]);
        RecordStays(run, h, k, run[h].nodes[x].conns[k]);
      }
    }
  }

  // ------------------------------------------------------------ new packets

  /** The sender's table at state h, right after it sent. */
  ghost predicate SenderOk(run: seq<Net>, h: int, x: NodeId) {
    && 0 <= h < |run| && x in run[h].nodes && run[h].nodes[x].own == x && NodeOk(run[h].nodes[x])
    && forall k :: k in run[h].nodes[x].conns ==> RecordPast(run, h, k, run[h].nodes[x].conns[k])
  }

  lemma NewRequestOk(run: seq<Net>, h: int, x: NodeId, s: Send)
    requires SenderOk(run, h, x) && RequestJustified(run[h].nodes[x], s, run[h].now)
    ensures RequestPacketOk(run, h, Packet(x, s, run[h].now))
  {
    var n := run[h].nodes[x];
    var first := Tuple(x, s.to.id, s.dest.id);
    var second := Tuple(s.src.id, x, s.dest.id);
    if Has(n, second, MidPoint, WaitingReply) && s.to.id == s.dest.id && n.conns[second].mode == s.mode {
      assert RecordOk(x, second, n.conns[second]);
    } else {
      assert RecordOk(x, first, n.conns[first]);
      assert Seen(run, h, x, first, StartPoint, WaitingStart);
    }
  }

  lemma NewOkayReplyOk(run: seq<Net>, h: int, x: NodeId, s: Send, i: Input)
    requires SenderOk(run, h, x) && ReplyJustified(run[h].nodes[x], s, i, run[h].now) && s.status == OKAY
    ensures ReplyPacketOk(run, h, Packet(x, s, run[h].now))
  {
    var n := run[h].nodes[x];
    var k := Tuple(s.src.id, s.to.id, s.dest.id);
    assert RecordOk(x, k, n.conns[k]) && RecordPast(run, h, k, n.conns[k]);
    assert Seen(run, h, x, k, EndPoint, WaitingStart);
  }

  lemma NewStartOk(run: seq<Net>, h: int, x: NodeId, s: Send)
    requires SenderOk(run, h, x) && StartJustified(run[h].nodes[x], s, run[h].now)
    ensures StartPacketOk(run, h, Packet(x, s, run[h].now))
  {
    var n := run[h].nodes[x];
    var k := Tuple(s.src.id, x, s.dest.id);
    if !(s.mode == Direct && x == s.dest.id && s.to.id == s.src.id) {
      assert RecordOk(x, k, n.conns[k]);
      assert Seen(run, h, x, k, MidPoint, WaitingAck);
    }
  }

  lemma NewAckOk(run: seq<Net>, h: int, x: NodeId, s: Send)
    requires SenderOk(run, h, x) && AckJustified(run[h].nodes[x], s)
    ensures WasCompleted(run, h + 1, x, Tuple(s.src.id, s.to.id, s.dest.id))
  {
    var n := run[h].nodes[x];
    var k := Tuple(s.src.id, s.to.id, s.dest.id);
    assert RecordOk(x, k, n.conns[k]);
    assert Seen(run, h, x, k, n.conns[k].point, Completed);
  }

  lemma NewPacketOk(run: seq<Net>, h: int, mv: Move, s: Send)
    requires OneMove(run, h, mv) && SenderOk(run, h + 1, mv.x)
    requires s in Step(run[h].nodes[mv.x], mv.i, mv.now).sends
    ensures PacketOk(run, h + 1, Packet(mv.x, s, mv.now))
  {
    MoveInputOk(run, h, mv);
    StepSends(run[h].nodes[mv.x], mv.i, mv.now, s);
    assert run[h + 1].now == mv.now;
    match s.kind {
      case MsgRequest => NewRequestOk(run, h + 1, mv.x, s);
      case MsgReply =>
        if s.status == OKAY {
          NewOkayReplyOk(run, h + 1, mv.x, s, mv.i);
        }
      case MsgStart => NewStartOk(run, h + 1, mv.x, s);
      case MsgAck => NewAckOk(run, h + 1, mv.x, s);
    }
  }

  lemma MovePacketsOk(run: seq<Net>, h: int, mv: Move)
    requires OneMove(run, h, mv) && SenderOk(run, h + 1, mv.x)
    ensures PacketsOk(run, h + 1)
  {
    var net := run[h + 1];
    forall p | p in net.sent
      ensures PacketOk(run, h + 1, p)
    {
      if p in run[h].sent {
        assert PacketOk(run, h, p);
        PacketStays(run, h, p);
      } else {
        NewPacketOk(run, h, mv, p.send);
      }
    }
  }

  /** The invariant holds in every state of every run. */
  lemma {:induction false} NetRunOk(run: seq<Net>, moves: seq<Move>, h: nat)
    requires NetRun(run, moves) && h < |run|
    ensures NetOk(run, h)
  {
    if h > 0 {
      NetRunOk(run, moves, h - 1);
      var mv := moves[h - 1];
      assert OneMove(run, h - 1, mv);
      MoveNodesOk(run, h - 1, mv);
      MoveRecordsPast(run, h - 1, mv);
      MovePacketsOk(run, h - 1, mv);
    }
  }

  // ------------------------------------------------------------ which move sent what

  /** Packet p is new in state j. */
  ghost predicate SentAt(run: seq<Net>, j: int, p: Packet) {
    0 < j < |run| && p in run[j].sent && p !in run[j - 1].sent
  }

  /** Move mv, made before state j, sent p, for a reason the sender's table shows in state j. */
  ghost predicate SentBy(run: seq<Net>, mv: Move, j: int, p: Packet) {
    && SentAt(run, j, p)
    && mv.x == p.from && mv.now == p.at == run[j].now
    && p.from in run[j - 1].nodes && p.from in run[j].nodes
    && var n, n' := run[j - 1].nodes[p.from], run[j].nodes[p.from];
       && n.own == p.from == n'.own && NodeOk(n) && NodeOk(n')
       && InputOk(n, mv.i, p.at) && n' == Step(n, mv.i, p.at).node
       && p.send in Step(n, mv.i, p.at).sends
       && Justified(n', p.send, mv.i, p.at)
  }

  lemma SentInMove(run: seq<Net>, j: int, mv: Move, p: Packet)
    requires SentAt(run, j, p) && OneMove(run, j - 1, mv) && NodesOk(run[j])
    ensures SentBy(run, mv, j, p)
  {
    MoveInputOk(run, j - 1, mv);
    StepSends(run[j - 1].nodes[mv.x], mv.i, mv.now, p.send);
  }

  lemma IsOneMove(run: seq<Net>, moves: seq<Move>, j: int)
    requires NetRun(run, moves) && 0 < j < |run|
    ensures |run| == |moves| + 1 && OneMove(run, j - 1, moves[j - 1]) && NetOk(run, j)
  {
    NetRunOk(run, moves, j - 1);
    NetRunOk(run, moves, j);
  }

  lemma {:induction false} FirstSent(run: seq<Net>, h: int, p: Packet) returns (j: int)
    requires 0 <= h < |run| && run[0].sent == {} && p in run[h].sent
    ensures j <= h && SentAt(run, j, p)
    decreases h
  {
    if p in run[h - 1].sent {
      j := FirstSent(run, h - 1, p);
    } else {
      j := h;
    }
  }

  /** Every packet was sent by one move, for a reason. */
  lemma SentByMove(run: seq<Net>, moves: seq<Move>, h: int, p: Packet) returns (j: int)
    requires NetRun(run, moves) && 0 <= h < |run| && p in run[h].sent
    ensures |run| == |moves| + 1 && 0 < j <= h && SentBy(run, moves[j - 1], j, p)
  {
    j := FirstSent(run, h, p);
    IsOneMove(run, moves, j);
    SentInMove(run, j, moves[j - 1], p);
  }
}
