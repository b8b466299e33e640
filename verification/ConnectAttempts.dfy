/**
 Counting attempts.  An attempt is announced by a REQUEST callback without an
 error; a FAILED callback at the START_POINT ends one.
 */
module ConnectAttempts {
  import opened ConnectCodes
  import opened ConnectNode
  import opened ConnectSteps
  import opened ConnectInvariant
  import opened ConnectRuns
  import opened ConnectRequests

  datatype Kind = Attempt | Failure

  predicate Is(cb: Callback, what: Kind, t: NodeId) {
    && cb.point == StartPoint && cb.dest.id == t
    && if what == Attempt then cb.kind == CbRequest && cb.err == OKAY else cb.kind == CbFailed
  }

  function Count(cbs: seq<Callback>, what: Kind, t: NodeId): nat {
    if cbs == [] then 0
    else Count(cbs[..|cbs| - 1], what, t) + if Is(cbs[|cbs| - 1], what, t) then 1 else 0
  }

  lemma {:induction false} CountAppend(a: seq<Callback>, b: seq<Callback>, what: Kind, t: NodeId)
    ensures Count(a + b, what, t) == Count(a, what, t) + Count(b, what, t)
  {
    if b == [] {
      assert a + b == a;
    } else {
      CountAppend(a, b[..|b| - 1], what, t);
      assert (a + b)[..|a + b| - 1] == a + b[..|b| - 1];
    }
  }

  lemma CountOne(cb: Callback, what: Kind, t: NodeId)
    ensures Count([cb], what, t) == if Is(cb, what, t) then 1 else 0
  {
    assert [cb][..0] == [];
  }

  ghost function Live(n: Node, t: NodeId): nat { if exists k :: IsStart(n, k) && k.dest == t then 1 else 0 }

  // ------------------------------------------------------------ ticks

  lemma StartRequestCounts(n: Node, t: NodeId, now: int, u: NodeId)
    requires RequestsOk(n) && t in n.reqs
    ensures var out := StartRequest(n, t, now);
            && Count(out.cbs, Failure, u) == 0
            && Live(out.node, u) <= Live(n, u) + Count(out.cbs, Attempt, u)
            && Count(out.cbs, Attempt, u) <= 1
            && (u != t ==> Count(out.cbs, Attempt, u) == 0)
            && (Count(out.cbs, Attempt, u) == 1 ==> t in out.node.reqs && out.node.reqs[t].state == InProgress)
  {
    assert RequestOk(n.own, t, n.reqs[t]);
    var out := StartRequest(n, t, now);
    if out.cbs != [] {
      CountOne(out.cbs[0], Attempt, u);
      CountOne(out.cbs[0], Failure, u);
      assert out.cbs == [out.cbs[0]];
    }
    StartRequestInstalls(n, t, now);
    if exists k :: IsStart(out.node, k) && k.dest == u {
      var k :| IsStart(out.node, k) && k.dest == u;
      if k in n.conns {
        assert IsStart(n, k);
      }
    }
  }

  lemma TickRequestCounts(n: Node, t: NodeId, now: int, u: NodeId)
    requires RequestsOk(n)
    ensures var out := TickRequest(n, t, now);
            && Count(out.cbs, Failure, u) == 0
            && Live(out.node, u) <= Live(n, u) + Count(out.cbs, Attempt, u)
            && (u != t ==> Count(out.cbs, Attempt, u) == 0)
  {
    if t in n.reqs {
      assert RequestOk(n.own, t, n.reqs[t]);
      if n.reqs[t].state == Ready {
        StartRequestCounts(n, t, now, u);
      } else {
        var out := TickRequest(n, t, now);
        if out.cbs != [] {
          CountOne(out.cbs[0], Attempt, u);
          CountOne(out.cbs[0], Failure, u);
          assert out.cbs == [out.cbs[0]];
        }
        assert out.node.conns == n.conns;
        assert forall k :: IsStart(out.node, k) <==> IsStart(n, k);
      }
    }
  }

  lemma {:induction false} TickRequestsCounts(n: Node, order: seq<NodeId>, now: int, u: NodeId)
    requires RequestsOk(n)
    ensures var out := TickRequests(n, order, now);
            && Count(out.cbs, Failure, u) == 0
            && Live(out.node, u) <= Live(n, u) + Count(out.cbs, Attempt, u)
  {
    if order != [] {
      var init := TickRequests(n, order[..|order| - 1], now);
      var t := order[|order| - 1];
      TickRequestsCounts(n, order[..|order| - 1], now, u);
      TickRequestsOk(n, order[..|order| - 1], now);
      TickRequestCounts(init.node, t, now, u);
      CountAppend(init.cbs, TickRequest(init.node, t, now).cbs, Failure, u);
      CountAppend(init.cbs, TickRequest(init.node, t, now).cbs, Attempt, u);
    }
  }

  lemma TickReportsCounts(n: Node, k: Tuple, now: int, u: NodeId)
    requires RecordsOk(n) && k in n.conns
    ensures Count(TickReports(n, n.conns[k], now), Failure, u) == 0
    ensures Count(TickReports(n, n.conns[k], now), Attempt, u) == 0
  {
    var cbs := TickReports(n, n.conns[k], now);
    if cbs != [] {
      assert RecordOk(n.own, k, n.conns[k]);
      CountOne(cbs[0], Failure, u);
      CountOne(cbs[0], Attempt, u);
      assert cbs == [cbs[0]];
    }
  }

  lemma {:induction false} TickOutputCounts(n: Node, order: seq<Tuple>, now: int, u: NodeId)
    requires RecordsOk(n)
    ensures Count(TickOutput(n, order, now).cbs, Failure, u) == 0
    ensures Count(TickOutput(n, order, now).cbs, Attempt, u) == 0
  {
    if order != [] {
      var init, k := order[..|order| - 1], order[|order| - 1];
      TickOutputCounts(n, init, now, u);
      if k in n.conns {
        TickReportsCounts(n, k, now, u);
        CountAppend(TickOutput(n, init, now).cbs, TickReports(n, n.conns[k], now), Failure, u);
        CountAppend(TickOutput(n, init, now).cbs, TickReports(n, n.conns[k], now), Attempt, u);
      }
    }
  }

  lemma TickCounts(n: Node, i: Input, now: int, u: NodeId)
    requires NodeOk(n) && InputOk(n, i, now) && i.Clock?
    ensures var out := Step(n, i, now);
            var mid := TickRequests(n, i.reqOrder, now);
            && Count(out.cbs, Failure, u) == 0
            && Count(out.cbs, Attempt, u) == Count(mid.cbs, Attempt, u)
            && Live(out.node, u) <= Live(mid.node, u)
  {
    var mid := TickRequests(n, i.reqOrder, now);
    var out := Step(n, i, now);
    TickRequestsCounts(n, i.reqOrder, now, u);
    TickRequestsOk(n, i.reqOrder, now);
    TickRequestsInstalls(n, i.reqOrder, now);
    assert RecordsOk(mid.node) by {
      forall k | k in mid.node.conns
        ensures RecordOk(n.own, k, mid.node.conns[k])
      {
        if k !in n.conns {
          InstalledOk(n, k, mid.node.conns[k], i, now);
        }
      }
    }
    var tail := TickOutput(mid.node, i.connOrder, now);
    TickOutputCounts(mid.node, i.connOrder, now, u);
    CountAppend(mid.cbs, tail.cbs, Failure, u);
    CountAppend(mid.cbs, tail.cbs, Attempt, u);
    assert out.cbs == mid.cbs + tail.cbs;
    forall k | IsStart(out.node, k)
      ensures IsStart(mid.node, k)
    {
      assert out.node.conns[k] == mid.node.conns[k].Ticked(now);
    }
  }

  // ------------------------------------------------------------ messages

  lemma ReplyEndsAttempt(n: Node, m: Msg, now: int, u: NodeId)
    requires NodeOk(n) && AllLinked(n)
    ensures var n' := RecvReply(n, m, now).node;
            && Live(n', u) <= Live(n, u)
            && (IsStart(n, KeyOf(n, m)) && KeyOf(n, m).dest == u ==> Live(n', u) == 0 && Live(n, u) == 1)
  {
    var n' := RecvReply(n, m, now).node;
    forall k | IsStart(n', k)
      ensures IsStart(n, k) && k != KeyOf(n, m)
    {
    }
    if IsStart(n, KeyOf(n, m)) {
      forall k | IsStart(n', k) && k.dest == u
        ensures KeyOf(n, m).dest != u
      {
        if KeyOf(n, m).dest == u {
          OneAttemptAtATime(n, k, KeyOf(n, m));
        }
      }
    }
  }

  lemma ReplyCounts(n: Node, m: Msg, now: int, u: NodeId)
    requires NodeOk(n) && AllLinked(n)
    ensures var out := RecvReply(n, m, now);
            && Count(out.cbs, Attempt, u) == 0
            && Count(out.cbs, Failure, u) + Live(out.node, u) <= Live(n, u)
  {
    var out := RecvReply(n, m, now);
    var key := KeyOf(n, m);
    ReplyEndsAttempt(n, m, now, u);
    assert key in n.conns ==> RecordOk(n.own, key, n.conns[key]);
    if out.cbs != [] {
      CountOne(out.cbs[0], Failure, u);
      CountOne(out.cbs[0], Attempt, u);
      assert out.cbs == [out.cbs[0]];
    }
  }

  lemma StartAckCounts(n: Node, m: Msg, now: int, u: NodeId)
    requires NodeOk(n) && (m.kind == MsgStart || m.kind == MsgAck)
    ensures var out := Receive(n, m, None, now);
            && Count(out.cbs, Attempt, u) == 0 && Count(out.cbs, Failure, u) == 0
            && Live(out.node, u) <= Live(n, u)
  {
    var out := Receive(n, m, None, now);
    if out.cbs != [] {
      CountOne(out.cbs[0], Failure, u);
      CountOne(out.cbs[0], Attempt, u);
      assert out.cbs == [out.cbs[0]];
    }
    assert forall k :: IsStart(out.node, k) ==> IsStart(n, k);
  }

  lemma OtherInputsCounts(n: Node, i: Input, now: int, u: NodeId)
    requires NodeOk(n) && InputOk(n, i, now)
    requires !i.Clock? && (i.Recv? ==> i.m.kind == MsgRequest)
    ensures var out := Step(n, i, now);
            && Count(out.cbs, Attempt, u) == 0 && Count(out.cbs, Failure, u) == 0
            && Live(out.node, u) <= Live(n, u)
  {
    var out := Step(n, i, now);
    if out.cbs != [] {
      assert out.cbs == [out.cbs[0]] && out.cbs[0].kind == CbAuth;
      CountOne(out.cbs[0], Failure, u);
      CountOne(out.cbs[0], Attempt, u);
    }
    forall k | IsStart(out.node, k)
      ensures IsStart(n, k)
    {
      OtherInputsKeepStarts(n, i, now, k);
    }
  }

  /** Each step pays for a failure with an attempt that is then over. */
  lemma StepCounts(n: Node, i: Input, now: int, u: NodeId)
    requires NodeOk(n) && AllLinked(n) && InputOk(n, i, now)
    ensures var out := Step(n, i, now);
            Count(out.cbs, Failure, u) + Live(out.node, u) <= Live(n, u) + Count(out.cbs, Attempt, u)
  {
    if i.Clock? {
      TickCounts(n, i, now, u);
      TickRequestsCounts(n, i.reqOrder, now, u);
    } else if i.Recv? && i.m.kind == MsgReply {
      ReplyCounts(n, i.m, now, u);
    } else if i.Recv? && i.m.kind != MsgRequest {
      StartAckCounts(n, i.m, now, u);
    } else {
      OtherInputsCounts(n, i, now, u);
    }
  }

  /** At every moment of a run without cancellation the failures reported for a
      target, and the attempt still under way, are covered by attempts announced:
      no attempt ever fails twice. */
  lemma {:induction false} FailuresCovered(n: Node, es: seq<Event>, u: NodeId)
    requires Fresh(n) && Legal(n, es) && NeverCancelled(es)
    ensures var out := Run(n, es);
            Count(out.cbs, Failure, u) + Live(out.node, u) <= Count(out.cbs, Attempt, u)
  {
    if es != [] {
      var init := Run(n, es[..|es| - 1]);
      var e := es[|es| - 1];
      FailuresCovered(n, es[..|es| - 1], u);
      RunOk(n, es[..|es| - 1]);
      RunLinked(n, es[..|es| - 1]);
      StepCounts(init.node, e.i, e.now, u);
      CountAppend(init.cbs, Last(n, es).cbs, Failure, u);
      CountAppend(init.cbs, Last(n, es).cbs, Attempt, u);
    }
  }
}
