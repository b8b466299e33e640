/**
 What a user sees of a connection that runs through its node, and how many
 rounds of START messages a record sends.
 */
module ConnectTrace {
  import opened ConnectCodes
  import opened ConnectNode
  import opened ConnectSteps
  import opened ConnectInvariant
  import opened ConnectRuns
  import opened ConnectSends

  // ------------------------------------------------------------ callbacks at the proxy

  predicate About(cb: Callback, k: Tuple) {
    cb.point == MidPoint && cb.src.id == k.src && cb.proxy.id == k.proxy && cb.dest.id == k.dest
  }

  /** The MID_POINT callbacks for k, from the AUTH that announced its latest record. */
  function Traced(prev: seq<CbKind>, cbs: seq<Callback>, k: Tuple): seq<CbKind> {
    if cbs == [] then prev
    else
      var init := Traced(prev, cbs[..|cbs| - 1], k);
      var cb := cbs[|cbs| - 1];
      if !About(cb, k) then init
      else if cb.kind == CbAuth then [CbAuth]
      else init + [cb.kind]
  }

  lemma {:induction false} TracedAppend(prev: seq<CbKind>, a: seq<Callback>, b: seq<Callback>, k: Tuple)
    ensures Traced(prev, a + b, k) == Traced(Traced(prev, a, k), b, k)
  {
    if b == [] {
      assert a + b == a;
    } else {
      TracedAppend(prev, a, b[..|b| - 1], k);
      assert (a + b)[..|a + b| - 1] == a + b[..|b| - 1];
    }
  }

  lemma TracedOne(prev: seq<CbKind>, cb: Callback, k: Tuple)
    ensures Traced(prev, [cb], k) ==
            if !About(cb, k) then prev else if cb.kind == CbAuth then [CbAuth] else prev + [cb.kind]
  {
    assert [cb][..0] == [];
  }

  lemma {:induction false} TracedNone(prev: seq<CbKind>, cbs: seq<Callback>, k: Tuple)
    requires forall cb :: cb in cbs ==> !About(cb, k)
    ensures Traced(prev, cbs, k) == prev
  {
    if cbs != [] {
      TracedNone(prev, cbs[..|cbs| - 1], k);
    }
  }

  predicate Complete(tr: seq<CbKind>) {
    || tr == [CbAuth, CbFailed]
    || tr == [CbAuth, CbPending, CbFailed]
    || tr == [CbAuth, CbPending, CbProxy]
  }

  predicate Story(tr: seq<CbKind>) {
    || tr == [] || tr == [CbAuth] || tr == [CbAuth, CbPending] || Complete(tr)
  }

  /** The stories are the prefixes of the three complete ones. */
  lemma StoriesArePrefixes(tr: seq<CbKind>)
    ensures Story(tr) <==> exists full :: Complete(full) && tr <= full
  {
    var a := [CbAuth, CbPending, CbFailed];
    assert Complete(a);
    if Story(tr) {
      if Complete(tr) {
        assert tr <= tr;
      } else {
        assert tr <= a;
      }
    }
  }

  ghost predicate Told(n: Node, k: Tuple, tr: seq<CbKind>) {
    && Story(tr)
    && (k in n.conns && n.conns[k].point == MidPoint && !Silent(n, n.conns[k]) ==>
          tr == if n.conns[k].state == WaitingAck then [CbAuth, CbPending] else [CbAuth])
  }

  lemma {:induction false} TickRequestsSilent(n: Node, order: seq<NodeId>, now: int)
    ensures forall cb :: cb in TickRequests(n, order, now).cbs ==> cb.point == StartPoint
  {
    if order != [] {
      TickRequestsSilent(n, order[..|order| - 1], now);
    }
  }

  lemma {:induction false} TickOutputTraced(n: Node, order: seq<Tuple>, now: int, k: Tuple, prev: seq<CbKind>)
    requires RecordsOk(n)
    requires forall i, j :: 0 <= i < j < |order| ==> order[i] != order[j]
    ensures Traced(prev, TickOutput(n, order, now).cbs, k) ==
            if k in order && k in n.conns && n.conns[k].point == MidPoint && n.conns[k].GivesUp(now) &&
               !Silent(n, n.conns[k])
            then prev + [CbFailed] else prev
  {
    if order != [] {
      var init := order[..|order| - 1];
      var k1 := order[|order| - 1];
      TickOutputTraced(n, init, now, k, prev);
      assert k in order <==> k in init || k == k1;
      if k1 in n.conns {
        assert RecordOk(n.own, k1, n.conns[k1]);
        var cbs := TickReports(n, n.conns[k1], now);
        TracedAppend(prev, TickOutput(n, init, now).cbs, cbs, k);
        if cbs != [] {
          assert cbs == [cbs[0]];
          TracedOne(Traced(prev, TickOutput(n, init, now).cbs, k), cbs[0], k);
          assert About(cbs[0], k) <==> k == k1 && n.conns[k1].point == MidPoint;
        }
      }
    }
  }

  lemma TickTraced(n: Node, i: Input, now: int, k: Tuple, tr: seq<CbKind>)
    requires NodeOk(n) && InputOk(n, i, now) && i.Clock?
    ensures var mid := TickRequests(n, i.reqOrder, now).node;
            Traced(tr, Step(n, i, now).cbs, k) ==
            if k in mid.conns && mid.conns[k].point == MidPoint && mid.conns[k].GivesUp(now) &&
               !Silent(mid, mid.conns[k])
            then tr + [CbFailed] else tr
  {
    var mid := TickRequests(n, i.reqOrder, now);
    MidTickOk(n, i, now);
    TickRequestsSilent(n, i.reqOrder, now);
    TracedNone(tr, mid.cbs, k);
    TracedAppend(tr, mid.cbs, TickOutput(mid.node, i.connOrder, now).cbs, k);
    TickOutputTraced(mid.node, i.connOrder, now, k, tr);
  }

  lemma ToldAfterTick(n: Node, mid: Node, n': Node, k: Tuple, tr: seq<CbKind>, now: int)
    requires Told(n, k, tr) && OnlyStarts(n, mid, now) && SameConfig(mid, n')
    requires n'.conns == TickedConns(mid.conns, now)
    ensures var failed := k in mid.conns && mid.conns[k].point == MidPoint && mid.conns[k].GivesUp(now) &&
                          !Silent(mid, mid.conns[k]);
            Told(n', k, if failed then tr + [CbFailed] else tr)
  {
    if k in n'.conns {
      assert n'.conns[k] == mid.conns[k].Ticked(now);
    }
  }

  lemma TickTold(n: Node, i: Input, now: int, k: Tuple, tr: seq<CbKind>)
    requires NodeOk(n) && InputOk(n, i, now) && i.Clock? && Told(n, k, tr)
    ensures Told(Step(n, i, now).node, k, Traced(tr, Step(n, i, now).cbs, k))
  {
    TickTraced(n, i, now, k, tr);
    TickRequestsInstalls(n, i.reqOrder, now);
    ToldAfterTick(n, TickRequests(n, i.reqOrder, now).node, Step(n, i, now).node, k, tr, now);
  }

  lemma RequestTold(n: Node, i: Input, now: int, k: Tuple, tr: seq<CbKind>)
    requires NodeOk(n) && InputOk(n, i, now) && i.Recv? && i.m.kind == MsgRequest && Told(n, k, tr)
    ensures Told(Step(n, i, now).node, k, Traced(tr, Step(n, i, now).cbs, k))
  {
    var out := Step(n, i, now);
    if out.cbs != [] {
      assert out.cbs == [out.cbs[0]];
      TracedOne(tr, out.cbs[0], k);
    }
  }

  lemma ReplyTold(n: Node, m: Msg, now: int, k: Tuple, tr: seq<CbKind>)
    requires NodeOk(n) && Told(n, k, tr)
    ensures Told(RecvReply(n, m, now).node, k, Traced(tr, RecvReply(n, m, now).cbs, k))
  {
    var out := RecvReply(n, m, now);
    var key := KeyOf(n, m);
    if key in n.conns {
      assert RecordOk(n.own, key, n.conns[key]);
      if out.cbs != [] {
        assert out.cbs == [out.cbs[0]];
        TracedOne(tr, out.cbs[0], k);
      }
      if k != key || n.conns[key].point != MidPoint {
        assert Traced(tr, out.cbs, k) == tr;
      }
    }
  }

  lemma StartTold(n: Node, m: Msg, now: int, k: Tuple, tr: seq<CbKind>)
    requires NodeOk(n) && Told(n, k, tr)
    ensures Told(RecvStart(n, m, now).node, k, Traced(tr, RecvStart(n, m, now).cbs, k))
  {
    var out := RecvStart(n, m, now);
    var key := KeyOf(n, m);
    if key in n.conns {
      assert RecordOk(n.own, key, n.conns[key]);
      if out.cbs != [] {
        assert out.cbs == [out.cbs[0]];
        TracedOne(tr, out.cbs[0], k);
      }
      assert Traced(tr, out.cbs, k) == tr;
    }
  }

  lemma AckTold(n: Node, m: Msg, now: int, k: Tuple, tr: seq<CbKind>)
    requires NodeOk(n) && Told(n, k, tr)
    ensures Told(RecvAck(n, m, now).node, k, Traced(tr, RecvAck(n, m, now).cbs, k))
  {
    var out := RecvAck(n, m, now);
    var key := KeyOf(n, m);
    if key in n.conns {
      assert RecordOk(n.own, key, n.conns[key]);
      if out.cbs != [] {
        assert out.cbs == [out.cbs[0]];
        TracedOne(tr, out.cbs[0], k);
      }
      if k != key || n.conns[key].point != MidPoint {
        assert Traced(tr, out.cbs, k) == tr;
      }
    }
  }

  lemma OtherInputsTold(n: Node, i: Input, now: int, k: Tuple, tr: seq<CbKind>)
    requires NodeOk(n) && InputOk(n, i, now) && !i.Clock? && !i.Recv? && Told(n, k, tr)
    ensures Told(Step(n, i, now).node, k, Traced(tr, Step(n, i, now).cbs, k))
  {
    StepCame(n, i, now);
    var out := Step(n, i, now);
    if k in out.node.conns {
      assert Came(n, k, out.node.conns[k], i, now);
      assert RecordOk(n.own, k, n.conns[k]);
    }
  }

  lemma StepTold(n: Node, i: Input, now: int, k: Tuple, tr: seq<CbKind>)
    requires NodeOk(n) && InputOk(n, i, now) && Told(n, k, tr)
    ensures Told(Step(n, i, now).node, k, Traced(tr, Step(n, i, now).cbs, k))
  {
    if i.Clock? {
      TickTold(n, i, now, k, tr);
    } else if !i.Recv? {
      OtherInputsTold(n, i, now, k, tr);
    } else if i.m.kind == MsgRequest {
      RequestTold(n, i, now, k, tr);
    } else if i.m.kind == MsgReply {
      ReplyTold(n, i.m, now, k, tr);
    } else if i.m.kind == MsgStart {
      StartTold(n, i.m, now, k, tr);
    } else {
      AckTold(n, i.m, now, k, tr);
    }
  }

  /** In every run, what the user is told of a record at the proxy is a prefix of
      AUTH FAILED, AUTH PENDING FAILED or AUTH PENDING PROXY, and while the record
      lives the story is at the point its state says. */
  lemma {:induction false} ProxyStories(n: Node, es: seq<Event>, k: Tuple)
    requires Fresh(n) && Legal(n, es)
    ensures Told(Run(n, es).node, k, Traced([], Run(n, es).cbs, k))
  {
    if es != [] {
      var init := Run(n, es[..|es| - 1]);
      var e := es[|es| - 1];
      ProxyStories(n, es[..|es| - 1], k);
      RunOk(n, es[..|es| - 1]);
      StepTold(init.node, e.i, e.now, k, Traced([], init.cbs, k));
      TracedAppend([], init.cbs, Last(n, es).cbs, k);
    }
  }

  // ------------------------------------------------------------ rounds of START

  /** The step sends a START for the attempt at k. */
  ghost predicate SendsStartFor(out: Out, k: Tuple) {
    exists s :: s in out.sends && s.kind == MsgStart && s.src.id == k.src && s.dest.id == k.dest
  }

  /** The rounds of START sent for k while its present record waited for acks. */
  ghost function Rounds(n: Node, es: seq<Event>, k: Tuple): nat {
    if es == [] then 0
    else if k !in Before(n, es).conns || k !in Last(n, es).node.conns then 0
    else
      Rounds(n, es[..|es| - 1], k) +
      if Before(n, es).conns[k].state == WaitingAck && SendsStartFor(Last(n, es), k) then 1 else 0
  }

  ghost predicate RoundsCounted(n: Node, k: Tuple, rounds: nat) {
    k in n.conns ==>
      && (n.conns[k].state == WaitingAck ==> rounds <= n.conns[k].retry <= START_MAX_RETRY + 1)
      && (n.conns[k].state != WaitingAck ==> rounds == 0)
  }

  lemma SameRecord(own: NodeId, k1: Tuple, c1: Connection, k2: Tuple, c2: Connection)
    requires RecordOk(own, k1, c1) && RecordOk(own, k2, c2)
    requires c1.state == WaitingAck && c2.state == WaitingAck && k1.src == k2.src && k1.dest == k2.dest
    ensures k1 == k2
  {
  }

  lemma StartComesFromRecord(mid: Node, order: seq<Tuple>, now: int, s: Send, k: Tuple)
    requires NodeOk(mid) && s in TickOutput(mid, order, now).sends
    requires k in mid.conns && mid.conns[k].state == WaitingAck && s.src.id == k.src && s.dest.id == k.dest
    ensures mid.conns[k].SendsStart(now)
  {
    var k1 := TickOutputSends(mid, order, now, s);
    assert RecordOk(mid.own, k1, mid.conns[k1]) && RecordOk(mid.own, k, mid.conns[k]);
    SameRecord(mid.own, k, mid.conns[k], k1, mid.conns[k1]);
  }

  /** A record counts every round it sends. */
  lemma StartCountsAsRetry(n: Node, i: Input, now: int, k: Tuple)
    requires NodeOk(n) && InputOk(n, i, now)
    requires k in n.conns && n.conns[k].state == WaitingAck && k in Step(n, i, now).node.conns
    requires SendsStartFor(Step(n, i, now), k)
    ensures i.Clock? && n.conns[k].SendsStart(now) && Step(n, i, now).node.conns[k] == n.conns[k].Ticked(now)
  {
    var s :| s in Step(n, i, now).sends && s.kind == MsgStart && s.src.id == k.src && s.dest.id == k.dest;
    OnlyTicksSendStarts(n, i, now, s);
    var mid := TickRequests(n, i.reqOrder, now);
    MidTickOk(n, i, now);
    TickRequestsInstalls(n, i.reqOrder, now);
    if s in mid.sends {
      TickRequestsSends(n, i.reqOrder, now, s);
    } else {
      StartComesFromRecord(mid.node, i.connOrder, now, s, k);
    }
  }

  lemma StepRounds(n: Node, i: Input, now: int, k: Tuple, rounds: nat)
    requires NodeOk(n) && InputOk(n, i, now) && k in n.conns && RoundsCounted(n, k, rounds)
    ensures var out := Step(n, i, now);
            RoundsCounted(out.node, k,
                          rounds + if n.conns[k].state == WaitingAck && SendsStartFor(out, k) then 1 else 0)
  {
    var out := Step(n, i, now);
    if k in out.node.conns {
      StepCame(n, i, now);
      assert Came(n, k, out.node.conns[k], i, now);
      assert RecordOk(n.own, k, n.conns[k]);
      if n.conns[k].state == WaitingAck && SendsStartFor(out, k) {
        StartCountsAsRetry(n, i, now, k);
      }
    }
  }

  /** However long the acks stay out, a record sends at most four rounds of START. */
  lemma {:induction false} RoundsAreBounded(n: Node, es: seq<Event>, k: Tuple)
    requires Fresh(n) && Legal(n, es)
    ensures RoundsCounted(Run(n, es).node, k, Rounds(n, es, k))
    ensures Rounds(n, es, k) <= 4
  {
    if es != [] {
      var before := Before(n, es);
      var e := es[|es| - 1];
      RunOk(n, es[..|es| - 1]);
      if k in before.conns {
        RoundsAreBounded(n, es[..|es| - 1], k);
        StepRounds(before, e.i, e.now, k, Rounds(n, es[..|es| - 1], k));
      } else {
        StepCame(before, e.i, e.now);
        assert k in Run(n, es).node.conns ==> Came(before, k, Run(n, es).node.conns[k], e.i, e.now);
      }
    }
  }
}
