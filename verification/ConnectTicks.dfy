/**
 What a tick does: to each request, and to each record, of which those that wait
 for acks send START to exactly the ends that have not acked.
 */
module ConnectTicks {
  import opened ConnectCodes
  import opened ConnectNode
  import opened ConnectSteps
  import opened ConnectInvariant
  import opened ConnectRuns
  import opened ConnectSends
  import opened ConnectLaws

  // ------------------------------------------------------------ one request

  /** What stands in the way of an attempt through this proxy. */
  ghost predicate Blocked(n: Node, r: Request, proxy: NodeId) {
    || r.mode !in n.allowed
    || (r.mode == Direct && proxy != r.target) || (r.mode != Direct && proxy == r.target)
    || Tuple(n.own, proxy, r.target) in n.conns
    || exists k :: k in n.conns && k.src == r.target && k.dest == n.own
  }

  /** The record of a new attempt. */
  ghost predicate IsNew(c: Connection, n: Node, r: Request, proxy: PeerId, now: int) {
    && c.state == WaitingStart && c.point == StartPoint && c.mode == r.mode && c.lastEvent == now && c.startTS == now
    && c.bandwidth == 0 && c.lastStart == 0 && c.retry == 0 && !c.srcAck && !c.destAck && c.completedTS == 0
    && c.proxy == proxy && c.src == Bare(n.own) && c.srcAddr == PeerId(n.own, r.localAddr)
    && c.destAddr == Bare(r.target)
    && c.dest == (if r.mode == Direct then proxy else Bare(r.target))
    && c.maxDelay == (if r.mode == Direct then 0 else Most(0, r.requestTS + r.delay - now))
  }

  /** A ready request tries its first proxy: the attempt is announced, and a REQUEST
      says who asks, from where, for whom, and by when. */
  lemma AttemptStarts(n: Node, t: NodeId, now: int)
    requires RequestsOk(n) && t in n.reqs && n.reqs[t].state == Ready && n.reqs[t].good != []
    requires !Blocked(n, n.reqs[t], n.reqs[t].good[0].id.id)
    ensures var r, out := n.reqs[t], TickRequest(n, t, now);
            var proxy, k := r.good[0].id, Tuple(n.own, r.good[0].id.id, t);
            && out.node == n.(conns := n.conns[k := out.node.conns[k]], reqs := out.node.reqs)
            && out.node.reqs == n.reqs[t := r.(state := InProgress, stateTS := now, good := r.good[1..],
                                               current := proxy, currentSource := r.good[0].source)]
            && var c := out.node.conns[k];
               && IsNew(c, n, r, proxy, now)
               && out.sends == [Send(proxy, MsgRequest, c.srcAddr, c.destAddr, r.mode, c.maxDelay, OKAY)]
               && out.cbs == [Callback(c.srcAddr, proxy, Bare(t), r.mode, StartPoint, 0, CbRequest, OKAY)]
  {
    assert RequestOk(n.own, t, n.reqs[t]);
    assert n.reqs[t].good[0] in n.reqs[t].good;
  }

  /** A ready request that cannot try its first proxy, or has none, is done. */
  lemma AttemptFails(n: Node, t: NodeId, now: int)
    requires RequestsOk(n) && t in n.reqs && n.reqs[t].state == Ready
    requires n.reqs[t].good == [] || Blocked(n, n.reqs[t], n.reqs[t].good[0].id.id)
    ensures var r, out := n.reqs[t], TickRequest(n, t, now);
            && out.node == n.(reqs := n.reqs[t := out.node.reqs[t]]) && out.sends == [] && out.cbs == []
            && var r' := out.node.reqs[t];
               && r'.state == Done && r'.stateTS == now && r'.err == Code(OutOfProxy, SourceStart, 0)
               && r'.good == if r.good == [] then [] else r.good[1..]
  {
    assert RequestOk(n.own, t, n.reqs[t]);
    assert n.reqs[t].good != [] ==> n.reqs[t].good[0] in n.reqs[t].good;
  }

  /** The other requests: a pause ends, with proxies and turns left, in another try; an
      attempt or a connection is waited for 30 or 300 seconds; what is done is
      reported and forgotten. */
  lemma RequestWaits(n: Node, t: NodeId, now: int)
    requires t in n.reqs && n.reqs[t].state != Ready
    ensures var r, out := n.reqs[t], TickRequest(n, t, now);
            && out.sends == []
            && match r.state
               case Paused =>
                 out == Quiet(n.(reqs := n.reqs[t :=
                   if now <= r.pauseTS then r
                   else if |r.good| == 0 then r.(state := Done, stateTS := now, err := Code(OutOfProxy, SourceStart, 0))
                   else if r.recycled > 3 * |r.good| then
                     r.(state := Done, stateTS := now, err := Code(TooManyRetry, SourceStart, 0))
                   else r.(state := Ready, stateTS := now)]))
               case InProgress =>
                 out == Quiet(n.(reqs := n.reqs[t :=
                   if now - r.stateTS <= 30 then r else r.(state := Paused, stateTS := now, pauseTS := now + 1)]))
               case ExtConnect =>
                 out == Quiet(n.(reqs := n.reqs[t :=
                   if now - r.stateTS <= 300 then r
                   else r.(state := Done, stateTS := now, err := Code(Protocol, SourceStart, 0))]))
               case _ =>
                 && out.node == n.(reqs := n.reqs - {t})
                 && out.cbs == [Callback(NOBODY, NOBODY, Bare(r.target), r.mode, StartPoint, 0, CbRequest, r.err)]
  {
    assert n.reqs[t := n.reqs[t]] == n.reqs;
  }

  // ------------------------------------------------------------ the records

  /** A round of START is due: the record is not stale, waits for acks, and the last round is over three seconds old. */
  predicate RoundIsDue(c: Connection, now: int) {
    c.state == WaitingAck && now - c.lastEvent <= 20 && now - c.lastStart > 3
  }

  /** A tick drops the stale records and those whose four rounds are over, counts a
      round for those that send one, and leaves the others alone. */
  lemma TickedRecord(n: Node, i: Input, now: int, k: Tuple)
    requires NodeOk(n) && InputOk(n, i, now) && i.Clock? && k in n.conns
    ensures var c, out := n.conns[k], Step(n, i, now);
            && (k in out.node.conns <==> now - c.lastEvent <= 20 && !(RoundIsDue(c, now) && c.retry > 3))
            && (k in out.node.conns ==>
                  out.node.conns[k] == if RoundIsDue(c, now) then c.(lastStart := now, retry := c.retry + 1) else c)
  {
    TickRequestsInstalls(n, i.reqOrder, now);
  }

  /** The STARTs about one pair of ends. */
  function StartsAbout(sends: seq<Send>, src: NodeId, dest: NodeId): seq<Send> {
    if sends == [] then []
    else
      var s := sends[|sends| - 1];
      StartsAbout(sends[..|sends| - 1], src, dest) +
      if s.kind == MsgStart && s.src.id == src && s.dest.id == dest then [s] else []
  }

  lemma {:induction false} StartsAppend(a: seq<Send>, b: seq<Send>, src: NodeId, dest: NodeId)
    ensures StartsAbout(a + b, src, dest) == StartsAbout(a, src, dest) + StartsAbout(b, src, dest)
  {
    if b == [] {
      assert a + b == a;
    } else {
      StartsAppend(a, b[..|b| - 1], src, dest);
      assert (a + b)[..|a + b| - 1] == a + b[..|b| - 1];
    }
  }

  lemma {:induction false} NoStarts(sends: seq<Send>, src: NodeId, dest: NodeId)
    requires forall s :: s in sends ==> s.kind != MsgStart
    ensures StartsAbout(sends, src, dest) == []
  {
    if sends != [] {
      NoStarts(sends[..|sends| - 1], src, dest);
    }
  }

  function StartTo(to: PeerId, c: Connection, now: int): Send {
    Send(to, MsgStart, c.srcAddr, c.destAddr, c.mode,
         if c.mode == Relay then c.bandwidth else Most(0, c.Deadline() - now), OKAY)
  }

  /** The round a record is due: to the source unless it acked, and to the destination unless it acked. */
  function Round(c: Connection, now: int): seq<Send> {
    if !RoundIsDue(c, now) || c.retry > 3 then []
    else (if c.srcAck then [] else [StartTo(c.src, c, now)]) + (if c.destAck then [] else [StartTo(c.dest, c, now)])
  }

  lemma RecordStarts(k: Tuple, c: Connection, now: int, src: NodeId, dest: NodeId)
    requires Agrees(k, c)
    ensures StartsAbout(StartSends(c, now), src, dest) == if k.src == src && k.dest == dest then Round(c, now) else []
  {
    var a, b := StartTo(c.src, c, now), StartTo(c.dest, c, now);
    assert [a][..0] == [] && [b][..0] == [] && [a, b][..1] == [a] && [a] + [b] == [a, b];
    assert StartsAbout([a], src, dest) == if k.src == src && k.dest == dest then [a] else [];
    assert StartsAbout([b], src, dest) == if k.src == src && k.dest == dest then [b] else [];
    assert StartsAbout([a, b], src, dest) == StartsAbout([a], src, dest) + StartsAbout([b], src, dest);
    assert StartSends(c, now) == Round(c, now);
  }

  /** A node has at most one record between two ends that waits for acks. */
  lemma OneWaits(n: Node, k: Tuple, k': Tuple)
    requires RecordsOk(n) && k in n.conns && k' in n.conns && k.src == k'.src && k.dest == k'.dest
    requires n.conns[k].state == WaitingAck && n.conns[k'].state == WaitingAck
    ensures k == k'
  {
    assert RecordOk(n.own, k, n.conns[k]) && RecordOk(n.own, k', n.conns[k']);
  }

  lemma {:induction false} OutputStarts(n: Node, order: seq<Tuple>, now: int, k: Tuple)
    requires RecordsOk(n) && k in n.conns && n.conns[k].state == WaitingAck
    requires forall i, j :: 0 <= i < j < |order| ==> order[i] != order[j]
    ensures StartsAbout(TickOutput(n, order, now).sends, k.src, k.dest) ==
            if k in order then Round(n.conns[k], now) else []
  {
    if order != [] {
      var init, k1 := order[..|order| - 1], order[|order| - 1];
      OutputStarts(n, init, now, k);
      assert k in order <==> k in init || k == k1;
      if k1 in n.conns {
        assert RecordOk(n.own, k1, n.conns[k1]);
        StartsAppend(TickOutput(n, init, now).sends, StartSends(n.conns[k1], now), k.src, k.dest);
        RecordStarts(k1, n.conns[k1], now, k.src, k.dest);
        if k1 != k && k1.src == k.src && k1.dest == k.dest && n.conns[k1].state == WaitingAck {
          OneWaits(n, k, k1);
        }
      }
    }
  }

  /** Over a whole tick: for each record that waits for acks, the STARTs between its two
      ends are exactly those of its round.  So one goes to the source if and only if
      it has not acked, and one to the destination if and only if it has not, each
      with both addresses, the mode, and the delay that is left or the bandwidth. */
  lemma TickSendsRounds(n: Node, i: Input, now: int, k: Tuple)
    requires NodeOk(n) && InputOk(n, i, now) && i.Clock? && k in n.conns && n.conns[k].state == WaitingAck
    ensures StartsAbout(Step(n, i, now).sends, k.src, k.dest) == Round(n.conns[k], now)
  {
    var mid := TickRequests(n, i.reqOrder, now);
    TickRequestsInstalls(n, i.reqOrder, now);
    MidTickOk(n, i, now);
    forall s | s in mid.sends
      ensures s.kind != MsgStart
    {
      TickRequestsSends(n, i.reqOrder, now, s);
    }
    NoStarts(mid.sends, k.src, k.dest);
    StartsAppend(mid.sends, TickOutput(mid.node, i.connOrder, now).sends, k.src, k.dest);
    OutputStarts(mid.node, i.connOrder, now, k);
  }

  // ------------------------------------------------------------ what is reported

  lemma {:induction false} OutputReports(n: Node, order: seq<Tuple>, now: int, k: Tuple)
    requires k in order && k in n.conns && RoundIsDue(n.conns[k], now) && n.conns[k].retry > 3
    requires !ByItself(n, n.conns[k].mode)
    ensures var c := n.conns[k];
            Callback(c.src, c.proxy, c.dest, c.mode, c.point, 0, CbFailed, Code(Timeout, SourceBits(c.point), 0))
            in TickOutput(n, order, now).cbs
  {
    if order[|order| - 1] != k {
      OutputReports(n, order[..|order| - 1], now, k);
    }
  }

  /** A record that is given up after its four rounds is reported as timed out, unless the proxy acts by itself. */
  lemma GivingUpIsReported(n: Node, i: Input, now: int, k: Tuple)
    requires NodeOk(n) && InputOk(n, i, now) && i.Clock? && k in n.conns
    requires RoundIsDue(n.conns[k], now) && n.conns[k].retry > 3 && !ByItself(n, n.conns[k].mode)
    ensures k !in Step(n, i, now).node.conns
    ensures var c := n.conns[k];
            Callback(c.src, c.proxy, c.dest, c.mode, c.point, 0, CbFailed, Code(Timeout, SourceBits(c.point), 0))
            in Step(n, i, now).cbs
  {
    TickRequestsInstalls(n, i.reqOrder, now);
    OutputReports(TickRequests(n, i.reqOrder, now).node, i.connOrder, now, k);
    TickedRecord(n, i, now, k);
  }
}
