/**
 A request cannot try for ever.  However its attempts end -- refused, timed out,
 dropped, or the proxy put back for another turn -- a request that was given n
 proxies in all makes at most 3n + 1 connection attempts.
 */
module ConnectBudget {
  import opened ConnectCodes
  import opened ConnectNode
  import opened ConnectSteps
  import opened ConnectInvariant
  import opened ConnectRuns
  import opened ConnectRequests
  import opened ConnectAttempts

  /** The proxies the request for t has been given since it was made. */
  function Given(n: Node, es: seq<Event>, t: NodeId): int {
    if es == [] then 0
    else
      var before, after := Before(n, es), Last(n, es).node;
      if t !in after.reqs then 0
      else if t !in before.reqs then |after.reqs[t].good|
      else
        Given(n, es[..|es| - 1], t) +
        if es[|es| - 1].i.Offer? || es[|es| - 1].i.Alive? then |after.reqs[t].good| - |before.reqs[t].good| else 0
  }

  /** The attempts announced for t since its request was made. */
  function Made(n: Node, es: seq<Event>, t: NodeId): nat {
    if es == [] then 0
    else if t !in Last(n, es).node.reqs || t !in Before(n, es).reqs then 0
    else Made(n, es[..|es| - 1], t) + Count(Last(n, es).cbs, Attempt, t)
  }

  ghost predicate Budget(n: Node, t: NodeId, given: int, made: int) {
    t in n.reqs ==>
      && var r := n.reqs[t];
         && made + |r.good| <= given + r.recycled
         && r.recycled + Live(n, t) <= made
         && (r.state == Ready ==> made <= 3 * given)
         && made <= 3 * given + 1
  }

  lemma TickRequestBudget(n: Node, t: NodeId, now: int, u: NodeId, given: int, made: int)
    requires RequestsOk(n) && u in n.reqs && Budget(n, u, given, made)
    ensures var out := TickRequest(n, t, now);
            u in out.node.reqs ==> Budget(out.node, u, given, made + Count(out.cbs, Attempt, u))
  {
    var out := TickRequest(n, t, now);
    TickRequestCounts(n, t, now, u);
    if t == u && n.reqs[t].state == Ready {
      StartRequestCounts(n, t, now, u);
    }
  }

  lemma TickRequestForgets(n: Node, t: NodeId, now: int)
    ensures TickRequest(n, t, now).node.reqs.Keys <= n.reqs.Keys
  {
  }

  lemma {:induction false} TickRequestsBudget(n: Node, order: seq<NodeId>, now: int, u: NodeId, given: int, made: int)
    requires RequestsOk(n) && u in n.reqs && Budget(n, u, given, made)
    ensures var out := TickRequests(n, order, now);
            u in out.node.reqs ==> Budget(out.node, u, given, made + Count(out.cbs, Attempt, u))
    ensures TickRequests(n, order, now).node.reqs.Keys <= n.reqs.Keys
  {
    if order != [] {
      var init := TickRequests(n, order[..|order| - 1], now);
      var t := order[|order| - 1];
      var next := TickRequest(init.node, t, now);
      TickRequestsBudget(n, order[..|order| - 1], now, u, given, made);
      TickRequestsOk(n, order[..|order| - 1], now);
      TickRequestForgets(init.node, t, now);
      if u in init.node.reqs {
        TickRequestBudget(init.node, t, now, u, given, made + Count(init.cbs, Attempt, u));
        CountAppend(init.cbs, next.cbs, Attempt, u);
      }
    }
  }

  lemma TickBudget(n: Node, i: Input, now: int, u: NodeId, given: int, made: int)
    requires NodeOk(n) && InputOk(n, i, now) && i.Clock? && u in n.reqs && Budget(n, u, given, made)
    ensures var out := Step(n, i, now);
            u in out.node.reqs ==> Budget(out.node, u, given, made + Count(out.cbs, Attempt, u))
  {
    TickRequestsBudget(n, i.reqOrder, now, u, given, made);
    TickCounts(n, i, now, u);
  }

  lemma ReplyBudget(n: Node, m: Msg, now: int, u: NodeId, given: int, made: int)
    requires NodeOk(n) && AllLinked(n) && u in n.reqs && Budget(n, u, given, made)
    ensures Budget(RecvReply(n, m, now).node, u, given, made)
  {
    ReplyCounts(n, m, now, u);
    var out := RecvReply(n, m, now);
    var key := KeyOf(n, m);
    if key in n.conns {
      assert RecordOk(n.own, key, n.conns[key]);
      if IsStart(n, key) && key.dest == u {
        assert Linked(n, key);
        assert out.cbs == [out.cbs[0]];
        CountOne(out.cbs[0], Failure, u);
      }
    }
  }

  lemma StartAckBudget(n: Node, m: Msg, now: int, u: NodeId, given: int, made: int)
    requires NodeOk(n) && (m.kind == MsgStart || m.kind == MsgAck) && u in n.reqs && Budget(n, u, given, made)
    ensures Budget(Receive(n, m, None, now).node, u, given, made)
  {
    StartAckCounts(n, m, now, u);
  }

  lemma BudgetFromParts(n: Node, n': Node, u: NodeId, given: int, given': int, made: int)
    requires u in n.reqs && u in n'.reqs && Budget(n, u, given, made) && Live(n', u) <= Live(n, u)
    requires n'.reqs[u].state == n.reqs[u].state && n'.reqs[u].recycled == n.reqs[u].recycled
    requires given' - given == |n'.reqs[u].good| - |n.reqs[u].good| >= 0
    ensures Budget(n', u, given', made)
  {
  }

  lemma OtherInputsGive(n: Node, i: Input, now: int, u: NodeId)
    requires u in n.reqs && !i.Cancel? && !i.Clock? && !i.Shutdown? && (i.Recv? ==> i.m.kind == MsgRequest)
    ensures var n' := Step(n, i, now).node;
            && u in n'.reqs && n'.reqs[u].state == n.reqs[u].state && n'.reqs[u].recycled == n.reqs[u].recycled
            && |n'.reqs[u].good| >= |n.reqs[u].good|
            && (!i.Offer? && !i.Alive? ==> n'.reqs[u].good == n.reqs[u].good)
  {
    if i.Recv? {
      RecvRequestKeepsRequests(n, i.m, i.found, now);
    }
  }

  lemma OtherInputsBudget(n: Node, i: Input, now: int, u: NodeId, given: int, made: int)
    requires NodeOk(n) && InputOk(n, i, now) && u in n.reqs && Budget(n, u, given, made)
    requires !i.Cancel? && !i.Clock? && !i.Shutdown? && (i.Recv? ==> i.m.kind == MsgRequest)
    ensures var n' := Step(n, i, now).node;
            && u in n'.reqs
            && var more := if i.Offer? || i.Alive? then |n'.reqs[u].good| - |n.reqs[u].good| else 0;
               Budget(n', u, given + more, made)
  {
    OtherInputsCounts(n, i, now, u);
    OtherInputsGive(n, i, now, u);
    var n' := Step(n, i, now).node;
    BudgetFromParts(n, n', u, given, given + |n'.reqs[u].good| - |n.reqs[u].good|, made);
  }

  lemma StepBudget(n: Node, i: Input, now: int, u: NodeId, given: int, made: int)
    requires NodeOk(n) && AllLinked(n) && InputOk(n, i, now) && !i.Cancel?
    requires u in n.reqs && u in Step(n, i, now).node.reqs && Budget(n, u, given, made)
    ensures var out := Step(n, i, now);
            var more := if i.Offer? || i.Alive? then |out.node.reqs[u].good| - |n.reqs[u].good| else 0;
            Budget(out.node, u, given + more, made + Count(out.cbs, Attempt, u))
  {
    if i.Clock? {
      TickBudget(n, i, now, u, given, made);
    } else if i.Recv? && i.m.kind == MsgReply {
      ReplyBudget(n, i.m, now, u, given, made);
      ReplyCounts(n, i.m, now, u);
    } else if i.Recv? && i.m.kind != MsgRequest {
      StartAckBudget(n, i.m, now, u, given, made);
      StartAckCounts(n, i.m, now, u);
    } else {
      OtherInputsBudget(n, i, now, u, given, made);
      OtherInputsCounts(n, i, now, u);
    }
  }

  /** Only an Ask adds a request; until then nothing for its target is under way. */
  lemma NewRequestBudget(n: Node, i: Input, now: int, u: NodeId)
    requires NodeOk(n) && AllLinked(n) && InputOk(n, i, now)
    requires u !in n.reqs && u in Step(n, i, now).node.reqs
    ensures Budget(Step(n, i, now).node, u, |Step(n, i, now).node.reqs[u].good|, 0)
  {
    if i.Clock? {
      TickRequestsForget(n, i.reqOrder, now);
    } else if i.Recv? {
      ReceiveForgets(n, i.m, i.found, now);
    }
    var n' := Step(n, i, now).node;
    assert i.Ask? && n'.conns == n.conns;
    forall k | IsStart(n', k)
      ensures k.dest != u
    {
      assert IsStart(n, k) && Linked(n, k);
    }
  }

  lemma {:induction false} TickRequestsForget(n: Node, order: seq<NodeId>, now: int)
    ensures TickRequests(n, order, now).node.reqs.Keys <= n.reqs.Keys
  {
    if order != [] {
      TickRequestsForget(n, order[..|order| - 1], now);
      TickRequestForgets(TickRequests(n, order[..|order| - 1], now).node, order[|order| - 1], now);
    }
  }

  lemma ReceiveForgets(n: Node, m: Msg, found: Option<PeerId>, now: int)
    ensures Receive(n, m, found, now).node.reqs.Keys <= n.reqs.Keys
  {
  }

  lemma {:induction false} RunBudget(n: Node, es: seq<Event>, t: NodeId)
    requires Fresh(n) && Legal(n, es) && NeverCancelled(es)
    ensures Budget(Run(n, es).node, t, Given(n, es, t), Made(n, es, t))
  {
    if es != [] && t in Run(n, es).node.reqs {
      var before := Before(n, es);
      var e := es[|es| - 1];
      RunOk(n, es[..|es| - 1]);
      RunLinked(n, es[..|es| - 1]);
      if t in before.reqs {
        RunBudget(n, es[..|es| - 1], t);
        StepBudget(before, e.i, e.now, t, Given(n, es[..|es| - 1], t), Made(n, es[..|es| - 1], t));
      } else {
        NewRequestBudget(before, e.i, e.now, t);
      }
    }
  }

  /** The bound. */
  lemma AttemptsAreBounded(n: Node, es: seq<Event>, t: NodeId)
    requires Fresh(n) && Legal(n, es) && NeverCancelled(es) && t in Run(n, es).node.reqs
    ensures Made(n, es, t) <= 3 * Given(n, es, t) + 1
  {
    RunBudget(n, es, t);
  }
}
