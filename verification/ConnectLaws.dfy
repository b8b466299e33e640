/**
 What a node does with each input, said field by field and message by message:
 what is stored, what is sent to whom, and what the user is told.  Nothing here
 speaks of the operations of a record that the handlers use.
 */
module ConnectLaws {
  import opened ConnectCodes
  import opened ConnectNode
  import opened ConnectSteps
  import opened ConnectInvariant
  import opened ConnectRuns
  import opened ConnectSends

  /** The address of p, or the fallback as long as it is not known. */
  function Known(p: PeerId, fallback: Addr): PeerId { PeerId(p.id, if p.addr.ip == 0 then fallback else p.addr) }

  function Bare(id: NodeId): PeerId { PeerId(id, NO_ADDR) }

  function Most(a: int, b: int): int { if a >= b then a else b }

  predicate ByItself(n: Node, mode: Mode) { n.autoProxy && mode == Proxy }

  function Tell(n: Node, c: Connection, kind: CbKind, err: Code): seq<Callback> {
    if ByItself(n, c.mode) then [] else [Callback(c.src, c.proxy, c.dest, c.mode, c.point, 0, kind, err)]
  }

  // ------------------------------------------------------------ REPLY

  /** An OKAY makes the proxy's record wait for both acks, between the address the
      destination named and the one the source named, each replaced by the one the
      proxy knows if it is blank, and due no earlier than both asked for. */
  lemma OkayAtProxy(n: Node, k: Tuple, m: Msg, found: Option<PeerId>, now: int)
    requires m.kind == MsgReply && m.status == OKAY && k == KeyOf(n, m) && k in n.conns
    requires n.conns[k].point == MidPoint && n.conns[k].state == WaitingReply
    ensures var c, out := n.conns[k], Step(n, Recv(m, found), now);
            && out.node == n.(conns := out.node.conns) && out.node.conns == n.conns[k := out.node.conns[k]]
            && out.sends == []
            && var c' := out.node.conns[k];
               && c'.state == WaitingAck && !c'.srcAck && !c'.destAck
               && c'.lastEvent == now && c'.lastStart == 0 && c'.retry == 0
               && c'.srcAddr == Known(c.srcAddr, c.src.addr)
               && c'.destAddr == Known(m.dest, c.dest.addr)
               && c'.Deadline() == Most(c.Deadline(), now + m.param)
               && c'.src == c.src && c'.dest == c.dest && c'.proxy == Bare(c.proxy.id)
               && c'.mode == c.mode && c'.point == MidPoint && c'.startTS == c.startTS && c'.bandwidth == c.bandwidth
               && out.cbs == Tell(n, c', CbPending, OKAY)
  {
  }

  /** Any other reply ends the attempt at the proxy, and the source is told the code. */
  lemma RefusalAtProxy(n: Node, k: Tuple, m: Msg, found: Option<PeerId>, now: int)
    requires m.kind == MsgReply && k == KeyOf(n, m) && k in n.conns && n.conns[k].point == MidPoint
    requires m.status != OKAY || n.conns[k].state != WaitingReply
    ensures var c, out := n.conns[k], Step(n, Recv(m, found), now);
            var code := if m.status != OKAY then m.status else Code(Protocol, SourceMid, 0);
            && out.node == n.(conns := n.conns - {k})
            && out.sends == [Send(c.src, MsgReply, c.srcAddr, c.destAddr, m.mode, 0, code)]
            && out.cbs == Tell(n, c, CbFailed, code)
  {
  }

  /** Only the proxy expects a reply that is no refusal. */
  lemma ReplyAtDestination(n: Node, k: Tuple, m: Msg, found: Option<PeerId>, now: int)
    requires m.kind == MsgReply && k == KeyOf(n, m) && k in n.conns && n.conns[k].point == EndPoint
    ensures var c, out := n.conns[k], Step(n, Recv(m, found), now);
            && out.node == n.(conns := n.conns - {k}) && out.sends == []
            && out.cbs ==
               [Callback(c.src, c.proxy, c.dest, c.mode, EndPoint, 0, CbFailed, Code(Protocol, SourceEnd, 0))]
  {
  }

  // ------------------------------------------------------------ what a request takes from a failure

  /** A failure of these types ends the whole request. */
  predicate EndsRequest(err: Code, mode: Mode) {
    || err.typ in {TempUnavail, Duplicate}
    || (err.source == SourceEnd && (err.typ in {AuthDenied, Unsupported} || (err.typ == Unreachable && mode == Proxy)))
  }

  /** And this one says that the same proxy may be tried again. */
  predicate TryAgain(err: Code, mode: Mode) { err.typ == Overloaded && err.source == SourceMid && mode == Relay }

  /** A reply ends the attempt at the source.  The request ends with it, or pauses for
      a second; the proxy goes back to the end of the list, or to those tried. */
  lemma FailureAtSource(n: Node, k: Tuple, m: Msg, found: Option<PeerId>, now: int)
    requires NodeOk(n) && m.kind == MsgReply && k == KeyOf(n, m) && k in n.conns && n.conns[k].point == StartPoint
    requires k.dest in n.reqs
    ensures var c, r, out := n.conns[k], n.reqs[k.dest], Step(n, Recv(m, found), now);
            var code := if m.status != OKAY then m.status else Code(Protocol, SourceStart, 0);
            && out.node.conns == n.conns - {k} && out.sends == []
            && out.cbs == [Callback(c.src, c.proxy, c.dest, c.mode, StartPoint, 0, CbFailed, code)]
            && out.node == n.(conns := out.node.conns, reqs := out.node.reqs)
            && out.node.reqs == n.reqs[k.dest := out.node.reqs[k.dest]]
            && var r' := out.node.reqs[k.dest];
               var entry := ProxyEntry(r.current, r.currentSource, code);
               && r'.err == code && r'.stateTS == now
               && r' == r.(err := code, stateTS := now, state := r'.state, pauseTS := r'.pauseTS,
                           good := r'.good, tried := r'.tried, recycled := r'.recycled)
               && (r'.state == Done <==> EndsRequest(code, c.mode))
               && (r'.state != Done ==> r'.state == Paused && r'.pauseTS == now + 1)
               && (r'.state == Done ==> r'.pauseTS == r.pauseTS)
               && (r'.good == if TryAgain(code, c.mode) then r.good + [entry] else r.good)
               && (r'.recycled == if TryAgain(code, c.mode) then r.recycled + 1 else r.recycled)
               && (r'.tried ==
                     if TryAgain(code, c.mode) || EndsRequest(code, c.mode) then r.tried else r.tried + [entry])
  {
    assert RecordOk(n.own, k, n.conns[k]);
  }

  // ------------------------------------------------------------ START

  /** The request that a connection between the two ends answers. */
  function Other(c: Connection): NodeId { if c.point == StartPoint then c.dest.id else c.src.id }

  /** A START completes an end that waits for it, between the two addresses it names;
      the sender is sent an ack, the user told where to connect, and a request for
      the other end waits for that connection. */
  lemma StartAtEnd(n: Node, k: Tuple, m: Msg, found: Option<PeerId>, now: int)
    requires NodeOk(n) && m.kind == MsgStart && k == KeyOf(n, m) && k in n.conns && n.conns[k].state == WaitingStart
    ensures var c, out := n.conns[k], Step(n, Recv(m, found), now);
            && out.node == n.(conns := out.node.conns, reqs := out.node.reqs)
            && out.node.conns == n.conns[k := out.node.conns[k]]
            && var c' := out.node.conns[k];
               && c'.state == Completed && c'.lastEvent == now && c'.completedTS == now
               && c'.srcAddr == Known(m.src, c.src.addr) && c'.destAddr == Known(m.dest, c.dest.addr)
               && c'.bandwidth == (if c.mode == Relay then m.param else 0)
               && c'.Deadline() == Most(c.Deadline(), now + if c.mode == Relay then 0 else m.param)
               && c'.src == c.src && c'.dest == c.dest && c'.proxy == c.proxy
               && c'.mode == c.mode && c'.point == c.point && c'.startTS == c.startTS
               && out.sends == [Send(m.from, MsgAck, c.src, c.dest, m.mode, 0, OKAY)]
               && out.node.reqs == (if Other(c) !in n.reqs then n.reqs else
                                      n.reqs[Other(c) := n.reqs[Other(c)].(state := ExtConnect, stateTS := now)])
               && out.cbs == (if c.point == StartPoint && c.dest.id !in n.reqs then [] else
                                [Callback(c'.srcAddr, c.proxy, c'.destAddr, c.mode, c.point, m.param, CbStart, OKAY)])
  {
    assert RecordOk(n.own, k, n.conns[k]);
    assert m.src.id == k.src && m.dest.id == k.dest;
  }

  /** A START for a completed record is acked again; any other changes nothing. */
  lemma StartElsewhere(n: Node, m: Msg, found: Option<PeerId>, now: int)
    requires m.kind == MsgStart
    requires KeyOf(n, m) in n.conns ==> n.conns[KeyOf(n, m)].state != WaitingStart
    ensures var k, out := KeyOf(n, m), Step(n, Recv(m, found), now);
            && out.node == n && out.cbs == []
            && out.sends == if k in n.conns && n.conns[k].state == Completed
                            then [Send(m.from, MsgAck, n.conns[k].src, n.conns[k].dest, m.mode, 0, OKAY)] else []
  {
  }

  // ------------------------------------------------------------ ACK

  /** An ack of one end sets its flag; with both set the record goes, the proxy's user
      is told, and at the end of a direct connection the connection begins. */
  lemma AckOfAnEnd(n: Node, k: Tuple, m: Msg, found: Option<PeerId>, now: int)
    requires NodeOk(n) && m.kind == MsgAck && k == KeyOf(n, m) && k in n.conns && n.conns[k].state == WaitingAck
    requires m.from.id in {k.src, k.dest}
    ensures var c, out := n.conns[k], Step(n, Recv(m, found), now);
            var srcAck, destAck := c.srcAck || m.from.id == k.src, c.destAck || m.from.id == k.dest;
            && out.sends == []
            && if !(srcAck && destAck) then
                 out.node == n.(conns := n.conns[k := c.(srcAck := srcAck, destAck := destAck)]) && out.cbs == []
               else if c.point == MidPoint then
                 out.node == n.(conns := n.conns - {k}) && out.cbs == Tell(n, c, CbProxy, OKAY)
               else
                 && out.node == n.(conns := n.conns - {k}, reqs := out.node.reqs)
                 && out.node.reqs == (if k.src !in n.reqs then n.reqs else
                                        n.reqs[k.src := n.reqs[k.src].(state := ExtConnect, stateTS := now)])
                 && out.cbs == [Callback(c.srcAddr, c.proxy, c.dest, Direct, EndPoint, 0, CbStart, OKAY)]
  {
    assert RecordOk(n.own, k, n.conns[k]);
  }

  // ------------------------------------------------------------ the user's answers

  /** The user's yes at a proxy sends the REQUEST on to the destination. */
  lemma GrantAtProxy(n: Node, k: Tuple, i: Input, now: int)
    requires NodeOk(n) && InputOk(n, i, now) && i.Grant? && k == Tuple(i.src.id, i.proxy.id, i.dest.id)
    requires k in n.conns && n.conns[k].point == MidPoint && n.conns[k].state == WaitingAuth
    ensures var c, out := n.conns[k], Step(n, i, now);
            var c' := c.(state := WaitingReply, lastEvent := now, bandwidth := i.bandwidth,
                         proxy := Bare(k.proxy), destAddr := Bare(k.dest));
            && out.node == n.(conns := n.conns[k := c']) && out.cbs == []
            && out.sends == [Send(c.dest, MsgRequest, c.srcAddr, Bare(k.dest), c.mode, 0, OKAY)]
  {
    assert RecordOk(n.own, k, n.conns[k]);
  }

  /** The user's yes at the destination names the address to connect to and the delay
      it needs, and sends both to the proxy. */
  lemma GrantAtDestination(n: Node, k: Tuple, i: Input, now: int)
    requires NodeOk(n) && InputOk(n, i, now) && i.Grant? && k == Tuple(i.src.id, i.proxy.id, i.dest.id)
    requires k in n.conns && n.conns[k].state == WaitingAuth
    requires n.conns[k].point == EndPoint && n.conns[k].mode != Direct
    ensures var c, out := n.conns[k], Step(n, i, now);
            && out.node == n.(conns := n.conns[k := out.node.conns[k]]) && out.cbs == []
            && var c' := out.node.conns[k];
               && c'.state == WaitingStart && c'.lastEvent == now && c'.Deadline() == now + i.delay
               && c' == c.(state := WaitingStart, lastEvent := now, maxDelay := c'.maxDelay,
                           src := Bare(k.src), dest := Bare(k.dest), srcAddr := Bare(k.src), destAddr := i.dest,
                           retry := 0, lastStart := 0, srcAck := false, destAck := true, completedTS := 0)
               && out.sends == [Send(c.proxy, MsgReply, Bare(k.src), i.dest, c.mode, c'.Deadline() - c.startTS, OKAY)]
  {
    assert RecordOk(n.own, k, n.conns[k]);
  }

  /** The user's yes at the end of a direct connection waits for the source's ack. */
  lemma GrantDirect(n: Node, k: Tuple, i: Input, now: int)
    requires NodeOk(n) && InputOk(n, i, now) && i.Grant? && k == Tuple(i.src.id, i.proxy.id, i.dest.id)
    requires k in n.conns && n.conns[k].mode == Direct && n.conns[k].state == WaitingAuth
    ensures var c, out := n.conns[k], Step(n, i, now);
            var c' := c.(state := WaitingAck, lastEvent := now, dest := Bare(k.dest),
                         srcAddr := Known(c.srcAddr, c.src.addr), destAddr := Known(i.dest, NO_ADDR),
                         retry := 0, lastStart := 0, srcAck := false, destAck := true, completedTS := 0);
            out == Out(n.(conns := n.conns[k := c']), [], [])
  {
    assert RecordOk(n.own, k, n.conns[k]);
  }

  /** The user's no ends the attempt and tells the party that asked: its source, or the
      proxy of a proxied one. */
  lemma DenyIsSent(n: Node, k: Tuple, i: Input, now: int)
    requires NodeOk(n) && InputOk(n, i, now) && i.Deny? && k == Tuple(i.src.id, i.proxy.id, i.dest.id) && k in n.conns
    ensures var c, out := n.conns[k], Step(n, i, now);
            var to := if c.point == EndPoint && c.mode != Direct then c.proxy else c.src;
            var typ := if i.err.typ == NoError then AuthDenied else i.err.typ;
            && out.node == n.(conns := n.conns - {k}) && out.cbs == []
            && out.sends == [Send(to, MsgReply, c.srcAddr, c.destAddr, i.mode, 0,
                                  Code(typ, if c.point == EndPoint then SourceEnd else SourceMid, 0))]
  {
    assert RecordOk(n.own, k, n.conns[k]);
  }

  /** An answer to a question that is not open changes nothing. */
  lemma LateAnswer(n: Node, i: Input, now: int)
    requires i.Grant? || i.Deny?
    requires var k := Tuple(i.src.id, i.proxy.id, i.dest.id);
             k !in n.conns || (i.Grant? && n.conns[k].state != WaitingAuth)
    ensures Step(n, i, now) == Quiet(n)
  {
  }

  // ------------------------------------------------------------ REQUEST

  /** Why a request is not taken, in the order of the checks. */
  function Objection(n: Node, m: Msg, found: Option<PeerId>): Code {
    var at := if n.own == m.src.id then SourceStart else if n.own == m.dest.id then SourceEnd else SourceMid;
    var k := KeyOf(n, m);
    if m.mode !in n.allowed then Code(Unsupported, at, 0)
    else if k in n.conns then Code(Duplicate, SourceBits(n.conns[k].point), 0)
    else if exists k' :: k' in n.conns && k'.src == m.dest.id && k'.dest == m.src.id then Code(Duplicate, at, 0)
    else if m.mode != Direct && m.from.id == m.src.id && found.None? then Code(NoAddress, SourceMid, 0)
    else OKAY
  }

  /** A request that is not taken is answered with the reason, to whoever sent it. */
  lemma RequestRefused(n: Node, m: Msg, found: Option<PeerId>, now: int)
    requires m.kind == MsgRequest && WellFormed(n.own, m) && Objection(n, m, found) != OKAY
    ensures var out, code := Step(n, Recv(m, found), now), Objection(n, m, found);
            && out.node == n && out.sends == [Send(m.from, MsgReply, m.src, m.dest, m.mode, 0, code)]
            && out.cbs == if code.typ == NoAddress && n.relay == RelayServer
                          then [Callback(m.src, Bare(n.own), m.dest, m.mode, MidPoint, 0, CbAuth,
                                         Code(NoAddress, NoSource, 0))]
                          else []
  {
  }

  /** The record a request makes at its end or at its proxy. */
  ghost predicate MadeFor(c: Connection, n: Node, m: Msg, found: Option<PeerId>, now: int) {
    && c.state == WaitingAuth && c.lastEvent == now && c.startTS == now && c.mode == m.mode
    && c.bandwidth == 0 && c.lastStart == 0 && c.retry == 0 && !c.srcAck && !c.destAck && c.completedTS == 0
    && c.destAddr == Bare(m.dest.id)
    && if m.mode == Direct then
         && c.point == EndPoint && c.src == m.from && c.proxy == m.from && c.dest == Bare(m.dest.id)
         && c.srcAddr == m.src && c.maxDelay == 0
       else if m.from.id == m.src.id then
         && c.point == MidPoint && c.src == m.from && c.proxy == Bare(n.own) && found == Some(c.dest)
         && c.srcAddr == m.src && c.maxDelay == m.param
       else
         && c.point == EndPoint && c.src == Bare(m.src.id) && c.proxy == m.from && c.dest == Bare(m.dest.id)
         && c.srcAddr == Bare(m.src.id) && c.maxDelay == 0
  }

  /** A request that is taken makes one record and asks the user. */
  lemma RequestTaken(n: Node, m: Msg, found: Option<PeerId>, now: int)
    requires m.kind == MsgRequest && InputOk(n, Recv(m, found), now) && Objection(n, m, found) == OKAY
    requires !ByItself(n, m.mode) || m.from.id != m.src.id
    ensures var out, k := Step(n, Recv(m, found), now), KeyOf(n, m);
            && k !in n.conns && out.node == n.(conns := n.conns[k := out.node.conns[k]]) && out.sends == []
            && var c := out.node.conns[k];
               && MadeFor(c, n, m, found, now)
               && out.cbs == [Callback(c.src, c.proxy, c.dest, c.mode, c.point, 0, CbAuth, OKAY)]
  {
  }

  /** A proxy that authorises by itself sends the REQUEST on at once, without asking. */
  lemma RequestPassedOn(n: Node, m: Msg, found: Option<PeerId>, now: int)
    requires m.kind == MsgRequest && InputOk(n, Recv(m, found), now) && Objection(n, m, found) == OKAY
    requires ByItself(n, m.mode) && m.from.id == m.src.id
    ensures var out, k := Step(n, Recv(m, found), now), KeyOf(n, m);
            && k !in n.conns && out.node == n.(conns := n.conns[k := out.node.conns[k]]) && out.cbs == []
            && var c := out.node.conns[k];
               && c.state == WaitingReply && MadeFor(c.(state := WaitingAuth), n, m, found, now)
               && out.sends == [Send(c.dest, MsgRequest, m.src, Bare(m.dest.id), m.mode, 0, OKAY)]
  {
  }

  /** A shutdown forgets all requests and records, without a word. */
  lemma ShutdownForgets(n: Node, now: int)
    ensures Step(n, Shutdown, now) == Out(n.(conns := map[], reqs := map[]), [], [])
  {
  }
}
