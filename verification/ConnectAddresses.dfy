/**
 Addresses, through a whole attempt: the two addresses an end completes with, and
 hands to its user, are the ones that the source named in its REQUEST and that the
 destination's user named when it said yes, or what the proxy knew in their place.
 */
module ConnectAddresses {
  import opened ConnectCodes
  import opened ConnectNode
  import opened ConnectSteps
  import opened ConnectInvariant
  import opened ConnectRuns
  import opened ConnectSends
  import opened ConnectLaws
  import opened ConnectNetwork
  import opened ConnectTheorems
  import opened ConnectDeadlines

  // ------------------------------------------------------------ the ends know no address of their own

  /** An end of a proxied connection has no addresses to fall back to. */
  ghost predicate NoFallback(c: Connection) {
    c.point != MidPoint && c.mode != Direct ==> c.src.addr == NO_ADDR && c.dest.addr == NO_ADDR
  }

  lemma FallbackCame(n: Node, k: Tuple, c: Connection, i: Input, now: int)
    requires InputOk(n, i, now) && Came(n, k, c, i, now) && RecordOk(n.own, k, c)
    requires k in n.conns ==> RecordOk(n.own, k, n.conns[k]) && NoFallback(n.conns[k])
    ensures NoFallback(c)
  {
  }

  lemma {:induction false} EndsHaveNoFallback(run: seq<Net>, moves: seq<Move>, j: int, x: NodeId, k: Tuple)
    requires NetRun(run, moves) && 0 <= j < |run| && x in run[j].nodes && k in run[j].nodes[x].conns
    ensures NoFallback(RecordAt(run, j, x, k))
    decreases j
  {
    NothingSeenAtFirst(run, moves, x, k, RecordAt(run, j, x, k).point, RecordAt(run, j, x, k).state);
    RecordCame(run, moves, j, x, k);
    var n, c, mv := run[j - 1].nodes[x], RecordAt(run, j, x, k), moves[j - 1];
    if k in n.conns {
      EndsHaveNoFallback(run, moves, j - 1, x, k);
    }
    if !(k in n.conns && c == n.conns[k]) {
      FallbackCame(n, k, c, mv.i, mv.now);
    }
  }

  // ------------------------------------------------------------ the START that arrives

  /** Move h delivers a START to an end of a proxied connection that waits for it. */
  ghost predicate StartCompletesEnd(run: seq<Net>, moves: seq<Move>, h: int, k: Tuple) {
    && 0 <= h < |moves| && h < |run| && moves[h].x in run[h].nodes
    && moves[h].i.Recv? && moves[h].i.m.kind == MsgStart
    && var n := run[h].nodes[moves[h].x];
       && k == KeyOf(n, moves[h].i.m) && k in n.conns
       && n.conns[k].state == WaitingStart && n.conns[k].mode != Direct
  }

  /** It was sent in state j from the proxy's record, and names its two addresses. */
  lemma SenderOf(run: seq<Net>, moves: seq<Move>, h: int, k: Tuple) returns (j: int)
    requires NetRun(run, moves) && StartCompletesEnd(run, moves, h, k)
    ensures var p := moves[h].p;
            && SentAt(run, j, p) && j <= h && p.from == k.proxy && IsAcked(run, j, k)
            && moves[h].i.m.src == RecordAt(run, j, k.proxy, k).srcAddr
            && moves[h].i.m.dest == RecordAt(run, j, k.proxy, k).destAddr
  {
    var mv := moves[h];
    assert MoveOk(run[h], mv);
    NetRunOk(run, moves, h);
    var n := run[h].nodes[mv.x];
    assert n.own == mv.x && RecordOk(mv.x, k, n.conns[k]);
    j := SentByMove(run, moves, h, mv.p);
    var sender := run[j].nodes[mv.p.from];
    assert StartJustified(sender, mv.p.send, mv.p.at);
    assert k in sender.conns ==> RecordOk(sender.own, k, sender.conns[k]);
  }

  /** What the destination's user said, in the move that sent the OKAY. */
  lemma OkayNames(run: seq<Net>, moves: seq<Move>, m: int, k: Tuple) returns (e: int)
    requires NetRun(run, moves) && ProxyTakesOkay(run, moves, m, k)
    ensures e <= m && Answers(run, moves, e, moves[m].p, k) && moves[e - 1].i.dest == moves[m].i.m.dest
  {
    OkayIsFor(run, moves, m, k);
    e := SentByMove(run, moves, m, moves[m].p);
    assert MoveOk(run[m], moves[m]);
    assert ReplyJustified(run[e].nodes[k.dest], moves[m].p.send, moves[e - 1].i, moves[m].p.at);
    GrantIsFor(run, e, moves[e - 1], moves[m].p, k);
  }

  lemma GrantIsFor(run: seq<Net>, e: int, mv: Move, q: Packet, k: Tuple)
    requires SentBy(run, mv, e, q) && mv.i.Grant? && q.send.kind == MsgReply
    requires q.send.src.id == k.src && q.send.dest.id == k.dest && q.send.to.id == k.proxy
    ensures k == Tuple(mv.i.src.id, mv.i.proxy.id, mv.i.dest.id)
  {
    var n := run[e - 1].nodes[q.from];
    var key := Tuple(mv.i.src.id, mv.i.proxy.id, mv.i.dest.id);
    assert key in n.conns ==> RecordOk(n.own, key, n.conns[key]);
  }

  /** In the move before state e the destination's user said yes to k, and q was sent. */
  ghost predicate Answers(run: seq<Net>, moves: seq<Move>, e: int, q: Packet, k: Tuple) {
    && 0 < e <= |moves| && SentAt(run, e, q) && moves[e - 1].x == k.dest && moves[e - 1].i.Grant?
    && k == Tuple(moves[e - 1].i.src.id, moves[e - 1].i.proxy.id, moves[e - 1].i.dest.id)
  }

  // ------------------------------------------------------------ the theorem

  /** START p was sent from the proxy's record that the REQUEST of move i made and the
      OKAY of move m completed, which the destination's user caused just before state e. */
  ghost predicate Origin(run: seq<Net>, moves: seq<Move>, p: Packet, j: int, i: int, m: int, e: int, k: Tuple) {
    && SentAt(run, j, p) && p.from == k.proxy && Lives(run, i, j, k.proxy, k) && i < m < j
    && ProxyTakesRequest(moves, i, k) && moves[i].i.found.Some?
    && ProxyTakesOkay(run, moves, m, k) && e <= m && Answers(run, moves, e, moves[m].p, k)
  }

  /** The source's address: the one in the REQUEST, or the one the REQUEST came from. */
  function SourceAddress(request: Input): PeerId
    requires request.Recv?
  {
    Known(Known(request.m.src, request.m.from.addr), NO_ADDR)
  }

  /** The destination's address: the one its user named, or the one the proxy found for it. */
  function DestAddress(request: Input, grant: Input): PeerId
    requires request.Recv? && request.found.Some? && grant.Grant?
  {
    Known(Known(grant.dest, request.found.value.addr), NO_ADDR)
  }

  /** An end of a proxied connection, in any mode, completes between the address that
      the source named and the one that the destination's user named, each or what
      the proxy knew in its place; and the user is told to connect from the one to
      the other, at the source if it still asks for the connection. */
  lemma AddressesAreNamed(run: seq<Net>, moves: seq<Move>, h: int, k: Tuple)
    requires NetRun(run, moves) && StartCompletesEnd(run, moves, h, k)
    ensures var n, x := run[h].nodes[moves[h].x], moves[h].x;
            && x in run[h + 1].nodes && k in run[h + 1].nodes[x].conns
            && var c' := RecordAt(run, h + 1, x, k);
               && c'.state == Completed
               && Step(n, moves[h].i, moves[h].now).cbs ==
                  (if c'.point == StartPoint && k.dest !in n.reqs then [] else
                     [Callback(c'.srcAddr, c'.proxy, c'.destAddr, c'.mode, c'.point, moves[h].i.m.param,
                               CbStart, OKAY)])
               && exists j, i, m, e ::
                    && j <= h && Origin(run, moves, moves[h].p, j, i, m, e, k)
                    && c'.srcAddr == SourceAddress(moves[i].i)
                    && c'.destAddr == DestAddress(moves[i].i, moves[e - 1].i)
  {
    var mv := moves[h];
    var n := run[h].nodes[mv.x];
    assert MoveOk(run[h], mv) && run[h + 1] == Moved(run[h], mv);
    NetRunOk(run, moves, h);
    assert NodeOk(n) && n.own == mv.x && RecordOk(mv.x, k, n.conns[k]);
    StartAtEnd(n, k, mv.i.m, mv.i.found, mv.now);
    EndsHaveNoFallback(run, moves, h, mv.x, k);
    var j := SenderOf(run, moves, h, k);
    var i := RequestOf(run, moves, j, k);
    var m := OkayOf(run, moves, j, k);
    StaysInside(run, i, m, j, k.proxy, k);
    var e := OkayNames(run, moves, m, k);
    assert Origin(run, moves, mv.p, j, i, m, e, k);
  }

  // ------------------------------------------------------------ the two ends agree

  /** A waiting record of the proxy goes on waiting as long as it stays, between the same addresses. */
  ghost predicate GoesOn(run: seq<Net>, s: int, k: Tuple)
    requires 0 <= s && s + 1 < |run|
  {
    IsAcked(run, s, k) && k.proxy in run[s + 1].nodes && k in run[s + 1].nodes[k.proxy].conns ==>
      && IsAcked(run, s + 1, k)
      && RecordAt(run, s + 1, k.proxy, k).srcAddr == RecordAt(run, s, k.proxy, k).srcAddr
      && RecordAt(run, s + 1, k.proxy, k).destAddr == RecordAt(run, s, k.proxy, k).destAddr
  }

  lemma WaitingGoesOn(run: seq<Net>, moves: seq<Move>, s: int, k: Tuple)
    requires NetRun(run, moves) && 0 <= s && s + 1 < |run|
    ensures GoesOn(run, s, k)
  {
    if IsAcked(run, s, k) && k.proxy in run[s + 1].nodes && k in run[s + 1].nodes[k.proxy].conns {
      RecordCame(run, moves, s + 1, k.proxy, k);
      var n, c, mv := run[s].nodes[k.proxy], RecordAt(run, s + 1, k.proxy, k), moves[s];
      if c != n.conns[k] {
        MidRecordCame(n, k, c, mv.i, mv.now);
      }
    }
  }

  lemma {:induction false} AddressesStay(run: seq<Net>, j: int, j': int, k: Tuple)
    requires forall s :: 0 <= s < |run| - 1 ==> GoesOn(run, s, k)
    requires j <= j' && IsAcked(run, j, k) && Stays(run, j, j', k.proxy, k)
    ensures IsAcked(run, j', k)
    ensures RecordAt(run, j', k.proxy, k).srcAddr == RecordAt(run, j, k.proxy, k).srcAddr
    ensures RecordAt(run, j', k.proxy, k).destAddr == RecordAt(run, j, k.proxy, k).destAddr
    decreases j'
  {
    if j < j' {
      AddressesStay(run, j, j' - 1, k);
      assert GoesOn(run, j' - 1, k);
    }
  }

  /** When the STARTs that complete the two ends come from one record of the proxy,
      whichever of its rounds they are from, both ends have the same two addresses. */
  lemma EndsAgree(run: seq<Net>, moves: seq<Move>, h: int, h': int, k: Tuple, j: int, j': int)
    requires NetRun(run, moves) && StartCompletesEnd(run, moves, h, k) && StartCompletesEnd(run, moves, h', k)
    requires SentAt(run, j, moves[h].p) && SentAt(run, j', moves[h'].p) && j <= j' && Stays(run, j, j', k.proxy, k)
    ensures moves[h].x in run[h + 1].nodes && k in run[h + 1].nodes[moves[h].x].conns
    ensures moves[h'].x in run[h' + 1].nodes && k in run[h' + 1].nodes[moves[h'].x].conns
    ensures var c, c' := RecordAt(run, h + 1, moves[h].x, k), RecordAt(run, h' + 1, moves[h'].x, k);
            c.srcAddr == c'.srcAddr && c.destAddr == c'.destAddr
  {
    CompletesBetween(run, moves, h, k, j);
    CompletesBetween(run, moves, h', k, j');
    forall s | 0 <= s < |run| - 1
      ensures GoesOn(run, s, k)
    {
      WaitingGoesOn(run, moves, s, k);
    }
    AddressesStay(run, j, j', k);
  }

  lemma CompletesBetween(run: seq<Net>, moves: seq<Move>, h: int, k: Tuple, j: int)
    requires NetRun(run, moves) && StartCompletesEnd(run, moves, h, k) && SentAt(run, j, moves[h].p)
    ensures IsAcked(run, j, k) && moves[h].x in run[h + 1].nodes && k in run[h + 1].nodes[moves[h].x].conns
    ensures var c, c' := RecordAt(run, j, k.proxy, k), RecordAt(run, h + 1, moves[h].x, k);
            c'.srcAddr == Known(c.srcAddr, NO_ADDR) && c'.destAddr == Known(c.destAddr, NO_ADDR)
  {
    var mv := moves[h];
    var n := run[h].nodes[mv.x];
    assert MoveOk(run[h], mv) && run[h + 1] == Moved(run[h], mv);
    NetRunOk(run, moves, h);
    assert NodeOk(n) && n.own == mv.x && RecordOk(mv.x, k, n.conns[k]);
    StartAtEnd(n, k, mv.i.m, mv.i.found, mv.now);
    EndsHaveNoFallback(run, moves, h, mv.x, k);
    var j1 := SenderOf(run, moves, h, k);
    NetGrows(run, moves);
    SentOnce(run, j, j1, mv.p);
  }

  ghost predicate SentGrows(run: seq<Net>) { forall j :: 0 < j < |run| ==> run[j - 1].sent <= run[j].sent }

  lemma NetGrows(run: seq<Net>, moves: seq<Move>)
    requires NetRun(run, moves)
    ensures SentGrows(run)
  {
    forall j | 0 < j < |run|
      ensures run[j - 1].sent <= run[j].sent
    {
      assert run[j - 1 + 1] == Moved(run[j - 1], moves[j - 1]);
    }
  }

  lemma {:induction false} SentStays(run: seq<Net>, j: int, j': int, p: Packet)
    requires SentGrows(run) && 0 <= j <= j' < |run| && p in run[j].sent
    ensures p in run[j'].sent
    decreases j'
  {
    if j < j' {
      SentStays(run, j, j' - 1, p);
    }
  }

  lemma SentOnce(run: seq<Net>, j: int, j': int, p: Packet)
    requires SentGrows(run) && SentAt(run, j, p) && SentAt(run, j', p)
    ensures j == j'
  {
    if j < j' {
      SentStays(run, j, j' - 1, p);
    } else if j' < j {
      SentStays(run, j', j - 1, p);
    }
  }
}
