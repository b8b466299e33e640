/**
 The two tables together: which request a START_POINT record belongs to, how
 many failures an attempt can report, and how many attempts a request can make.
 */
module ConnectRequests {
  import opened ConnectCodes
  import opened ConnectNode
  import opened ConnectSteps
  import opened ConnectInvariant
  import opened ConnectRuns

  // ------------------------------------------------------------ the cross-table invariant

  /** The record at k is the current attempt of a live request for its destination. */
  ghost predicate Linked(n: Node, k: Tuple)
    requires k in n.conns
  {
    && k.dest in n.reqs
    && var r := n.reqs[k.dest];
       && r.state in {InProgress, ExtConnect}
       && r.current.id == k.proxy
       && n.conns[k].lastEvent <= r.stateTS
  }

  ghost predicate IsStart(n: Node, k: Tuple) { k in n.conns && n.conns[k].point == StartPoint }

  ghost predicate AllLinked(n: Node) { forall k :: IsStart(n, k) ==> Linked(n, k) }

  /** Within a tick the requests are moved on before the stale records go. */
  ghost predicate FreshLinked(n: Node, now: int) {
    forall k :: IsStart(n, k) && !n.conns[k].Expired(now) ==> Linked(n, k)
  }

  ghost predicate StampedBy(n: Node, now: int) { forall k :: k in n.conns ==> n.conns[k].lastEvent <= now }

  lemma StepStampedBy(n: Node, i: Input, now: int)
    requires NodeOk(n) && InputOk(n, i, now) && StampedBy(n, now)
    ensures StampedBy(Step(n, i, now).node, now)
  {
    StepCame(n, i, now);
    var n' := Step(n, i, now).node;
    forall k | k in n'.conns
      ensures n'.conns[k].lastEvent <= now
    {
      assert Came(n, k, n'.conns[k], i, now);
    }
  }

  lemma StartRequestLinked(n: Node, t: NodeId, now: int)
    requires RequestsOk(n) && FreshLinked(n, now) && t in n.reqs && n.reqs[t].state == Ready
    ensures FreshLinked(StartRequest(n, t, now).node, now)
  {
    assert RequestOk(n.own, t, n.reqs[t]);
    var n' := StartRequest(n, t, now).node;
    StartRequestInstalls(n, t, now);
    forall k | IsStart(n', k) && !n'.conns[k].Expired(now)
      ensures Linked(n', k)
    {
      if k in n.conns {
        assert Linked(n, k);
      }
    }
  }

  lemma TickRequestLinked(n: Node, t: NodeId, now: int)
    requires RequestsOk(n) && FreshLinked(n, now)
    ensures FreshLinked(TickRequest(n, t, now).node, now)
  {
    if t in n.reqs {
      if n.reqs[t].state == Ready {
        StartRequestLinked(n, t, now);
      } else {
        var n' := TickRequest(n, t, now).node;
        assert n'.conns == n.conns;
        forall k | IsStart(n', k) && !n'.conns[k].Expired(now)
          ensures Linked(n', k)
        {
          assert Linked(n, k);
        }
      }
    }
  }

  lemma {:induction false} TickRequestsLinked(n: Node, order: seq<NodeId>, now: int)
    requires RequestsOk(n) && FreshLinked(n, now)
    ensures FreshLinked(TickRequests(n, order, now).node, now)
  {
    if order != [] {
      TickRequestsLinked(n, order[..|order| - 1], now);
      TickRequestsOk(n, order[..|order| - 1], now);
      TickRequestLinked(TickRequests(n, order[..|order| - 1], now).node, order[|order| - 1], now);
    }
  }

  /** The tick restores the invariant: a request gives its attempt up after 30 or
      300 seconds, and by then the record, stale after 20, goes in the same tick. */
  lemma TickLinked(n: Node, i: Input, now: int)
    requires RequestsOk(n) && AllLinked(n) && i.Clock?
    ensures AllLinked(Step(n, i, now).node)
  {
    TickRequestsLinked(n, i.reqOrder, now);
    var mid := TickRequests(n, i.reqOrder, now).node;
    var n' := Step(n, i, now).node;
    forall k | IsStart(n', k)
      ensures Linked(n', k)
    {
      assert k in mid.conns && !mid.conns[k].Expired(now) && n'.conns[k] == mid.conns[k].Ticked(now);
      assert Linked(mid, k);
    }
  }

  lemma ReplyLinked(n: Node, m: Msg, now: int)
    requires RecordsOk(n) && AllLinked(n)
    ensures AllLinked(RecvReply(n, m, now).node)
  {
    var key := KeyOf(n, m);
    var n' := RecvReply(n, m, now).node;
    forall k | IsStart(n', k)
      ensures Linked(n', k)
    {
      assert k in n.conns && n'.conns[k].point == n.conns[k].point;
      assert Linked(n, k);
      if key in n.conns && n.conns[key].point == StartPoint {
        assert Linked(n, key);
        assert RecordOk(n.own, key, n.conns[key]) && RecordOk(n.own, k, n.conns[k]);
      }
    }
  }

  lemma StartLinked(n: Node, m: Msg, now: int)
    requires RecordsOk(n) && AllLinked(n) && StampedBy(n, now)
    ensures AllLinked(RecvStart(n, m, now).node)
  {
    var key := KeyOf(n, m);
    var n' := RecvStart(n, m, now).node;
    forall k | IsStart(n', k)
      ensures Linked(n', k)
    {
      assert k in n.conns && n'.conns[k].point == n.conns[k].point;
      assert Linked(n, k);
      assert key in n.conns ==> RecordOk(n.own, key, n.conns[key]);
    }
  }

  lemma AckLinked(n: Node, m: Msg, now: int)
    requires RecordsOk(n) && AllLinked(n) && StampedBy(n, now)
    ensures AllLinked(RecvAck(n, m, now).node)
  {
    var n' := RecvAck(n, m, now).node;
    forall k | IsStart(n', k)
      ensures Linked(n', k)
    {
      assert k in n.conns && n'.conns[k].point == n.conns[k].point;
      assert Linked(n, k);
    }
  }

  /** The requests that matter to the records go on as they were. */
  ghost predicate RequestsStay(n: Node, n': Node) {
    forall t :: t in n.reqs ==>
      && t in n'.reqs
      && n'.reqs[t].state == n.reqs[t].state && n'.reqs[t].stateTS == n.reqs[t].stateTS
      && n'.reqs[t].current == n.reqs[t].current
  }

  lemma OtherInputsStay(n: Node, i: Input, now: int)
    requires !i.Cancel? && !i.Clock? && !i.Shutdown? && (i.Recv? ==> i.m.kind == MsgRequest)
    ensures RequestsStay(n, Step(n, i, now).node)
  {
    if i.Recv? {
      RecvRequestKeepsRequests(n, i.m, i.found, now);
    }
  }

  lemma OtherInputsKeepStarts(n: Node, i: Input, now: int, k: Tuple)
    requires RecordsOk(n) && InputOk(n, i, now)
    requires !i.Clock? && (i.Recv? ==> i.m.kind == MsgRequest)
    requires IsStart(Step(n, i, now).node, k)
    ensures k in n.conns && Step(n, i, now).node.conns[k] == n.conns[k]
  {
    StepCame(n, i, now);
    assert Came(n, k, Step(n, i, now).node.conns[k], i, now);
    assert k in n.conns ==> RecordOk(n.own, k, n.conns[k]);
  }

  lemma OtherInputsLinked(n: Node, i: Input, now: int)
    requires NodeOk(n) && AllLinked(n) && InputOk(n, i, now)
    requires !i.Cancel? && !i.Clock? && (i.Recv? ==> i.m.kind == MsgRequest)
    ensures AllLinked(Step(n, i, now).node)
  {
    var n' := Step(n, i, now).node;
    if !i.Shutdown? {
      OtherInputsStay(n, i, now);
      forall k | IsStart(n', k)
        ensures Linked(n', k)
      {
        OtherInputsKeepStarts(n, i, now, k);
        assert Linked(n, k);
      }
    }
  }

  lemma StepLinked(n: Node, i: Input, now: int)
    requires NodeOk(n) && AllLinked(n) && StampedBy(n, now) && InputOk(n, i, now) && !i.Cancel?
    ensures AllLinked(Step(n, i, now).node)
  {
    if i.Clock? {
      TickLinked(n, i, now);
    } else if i.Recv? && i.m.kind == MsgReply {
      ReplyLinked(n, i.m, now);
    } else if i.Recv? && i.m.kind == MsgStart {
      StartLinked(n, i.m, now);
    } else if i.Recv? && i.m.kind == MsgAck {
      AckLinked(n, i.m, now);
    } else {
      OtherInputsLinked(n, i, now);
    }
  }

  ghost predicate NeverCancelled(es: seq<Event>) { forall j :: 0 <= j < |es| ==> !es[j].i.Cancel? }

  /** In every run without user cancellation, each START_POINT record has a live
      request for its target whose current attempt is that record. */
  lemma {:induction false} RunLinked(n: Node, es: seq<Event>)
    requires Fresh(n) && Legal(n, es) && NeverCancelled(es)
    ensures AllLinked(Run(n, es).node)
    ensures es != [] ==> StampedBy(Run(n, es).node, es[|es| - 1].now)
  {
    if es != [] {
      var e := es[|es| - 1];
      var before := Before(n, es);
      RunLinked(n, es[..|es| - 1]);
      RunOk(n, es[..|es| - 1]);
      assert StampedBy(before, e.now) by {
        if |es| > 1 {
          assert es[..|es| - 1][|es| - 2] == es[|es| - 2];
        }
      }
      StepLinked(before, e.i, e.now);
      StepStampedBy(before, e.i, e.now);
    }
  }

  /** Hence a target never has two START_POINT records at once. */
  lemma OneAttemptAtATime(n: Node, k1: Tuple, k2: Tuple)
    requires RecordsOk(n) && AllLinked(n) && IsStart(n, k1) && IsStart(n, k2) && k1.dest == k2.dest
    ensures k1 == k2
  {
    assert RecordOk(n.own, k1, n.conns[k1]) && RecordOk(n.own, k2, n.conns[k2]);
    assert Linked(n, k1) && Linked(n, k2);
  }
}
