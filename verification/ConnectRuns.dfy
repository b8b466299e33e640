/**
 Whole runs of one node: any sequence of inputs at non-decreasing times.
 */
module ConnectRuns {
  import opened ConnectCodes
  import opened ConnectNode
  import opened ConnectSteps
  import opened ConnectInvariant

  datatype Event = Event(i: Input, now: int)

  /** The node after the events, and everything it sent and called back on the way. */
  function Run(n: Node, es: seq<Event>): Out {
    if es == [] then Quiet(n)
    else
      var init := Run(n, es[..|es| - 1]);
      var e := es[|es| - 1];
      Then(init, Step(init.node, e.i, e.now))
  }

  function Before(n: Node, es: seq<Event>): Node
    requires es != []
  {
    Run(n, es[..|es| - 1]).node
  }

  function Last(n: Node, es: seq<Event>): Out
    requires es != []
  {
    Step(Before(n, es), es[|es| - 1].i, es[|es| - 1].now)
  }

  ghost predicate Legal(n: Node, es: seq<Event>) {
    es != [] ==>
      && Legal(n, es[..|es| - 1])
      && InputOk(Before(n, es), es[|es| - 1].i, es[|es| - 1].now)
      && (|es| > 1 ==> es[|es| - 2].now <= es[|es| - 1].now)
  }

  ghost predicate Fresh(n: Node) { n.own != 0 && n.conns == map[] && n.reqs == map[] }

  /** In every reachable state keys and records agree, records are in a state of
      their role, and no two records run in opposite directions. */
  lemma {:induction false} RunOk(n: Node, es: seq<Event>)
    requires Fresh(n) && Legal(n, es)
    ensures NodeOk(Run(n, es).node)
    ensures NoOpposites(Run(n, es).node.conns)
    ensures SameConfig(n, Run(n, es).node)
  {
    if es != [] {
      var e := es[|es| - 1];
      RunOk(n, es[..|es| - 1]);
      StepOk(Before(n, es), e.i, e.now);
      StepNoOpposites(Before(n, es), e.i, e.now);
      StepCame(Before(n, es), e.i, e.now);
    }
  }

  // ------------------------------------------------------------ what the ids of a record are good for

  /** Over every run, the ids of an AUTH callback find the record they came from,
      and a message of any of the three parties about the attempt does too. */
  lemma IdsResolve(n: Node, es: seq<Event>, k: Tuple, sender: NodeId)
    requires Fresh(n) && Legal(n, es) && k in Run(n, es).node.conns
    requires n.own == k.proxy || sender == k.proxy
    ensures var c := Run(n, es).node.conns[k];
            && Tuple(c.src.id, c.proxy.id, c.dest.id) == k
            && KeyBySender(n.own, sender, c.srcAddr.id, c.destAddr.id) == k
            && KeyBySender(n.own, sender, c.src.id, c.dest.id) == k
  {
    RunOk(n, es);
    assert RecordOk(n.own, k, Run(n, es).node.conns[k]);
  }

  // ------------------------------------------------------------ bounded life

  /** How many times a record in this state has been stamped. */
  function Stage(c: Connection): nat {
    match c.state
    case WaitingAuth => 1
    case WaitingReply => 2
    case WaitingStart => if c.point == StartPoint then 1 else 2
    case WaitingAck => if c.point == MidPoint then 3 else 2
    case Completed => if c.point == StartPoint then 2 else 3
  }

  lemma CameMeansProgress(n: Node, i: Input, now: int, k: Tuple, c': Connection)
    requires InputOk(n, i, now) && k in n.conns && RecordOk(n.own, k, n.conns[k]) && RecordOk(n.own, k, c')
    requires Came(n, k, c', i, now)
    ensures var c := n.conns[k];
            && c'.startTS == c.startTS
            && Stage(c) <= Stage(c') <= 3
            && (c'.lastEvent != c.lastEvent || c'.state != c.state ==> Stage(c') == Stage(c) + 1 && c'.lastEvent == now)
  {
  }

  /** A record is stamped only when it moves to its next stage: duplicates,
      retries and acks never refresh it. */
  lemma StampMeansProgress(n: Node, i: Input, now: int, k: Tuple)
    requires NodeOk(n) && InputOk(n, i, now)
    requires k in n.conns && k in Step(n, i, now).node.conns
    ensures var c, c' := n.conns[k], Step(n, i, now).node.conns[k];
            && c'.startTS == c.startTS
            && Stage(c) <= Stage(c') <= 3
            && (c'.lastEvent != c.lastEvent || c'.state != c.state ==> Stage(c') == Stage(c) + 1 && c'.lastEvent == now)
  {
    StepCame(n, i, now);
    StepOk(n, i, now);
    CameMeansProgress(n, i, now, k, Step(n, i, now).node.conns[k]);
  }

  /** The last tick of the run, or its start. */
  function LastTick(es: seq<Event>, t0: int): int {
    if es == [] then t0
    else if es[|es| - 1].i.Clock? then es[|es| - 1].now
    else LastTick(es[..|es| - 1], t0)
  }

  /** Every event comes at most gap seconds after the tick before it. */
  ghost predicate TicksEvery(es: seq<Event>, t0: int, gap: nat) {
    es != [] ==>
      && TicksEvery(es[..|es| - 1], t0, gap)
      && LastTick(es[..|es| - 1], t0) <= es[|es| - 1].now <= LastTick(es[..|es| - 1], t0) + gap
  }

  ghost predicate Young(c: Connection, tick: int, gap: nat) {
    && tick - MAX_TIMEOUT <= c.lastEvent
    && c.lastEvent - c.startTS <= (Stage(c) - 1) * (MAX_TIMEOUT + gap)
  }

  lemma StepYoung(n: Node, i: Input, now: int, tick: int, gap: nat, k: Tuple)
    requires NodeOk(n) && InputOk(n, i, now) && tick <= now <= tick + gap
    requires k in n.conns ==> Young(n.conns[k], tick, gap)
    requires k in Step(n, i, now).node.conns
    ensures Young(Step(n, i, now).node.conns[k], if i.Clock? then now else tick, gap)
  {
    StepCame(n, i, now);
    var c' := Step(n, i, now).node.conns[k];
    assert Came(n, k, c', i, now);
    if k in n.conns {
      var c := n.conns[k];
      assert RecordOk(n.own, k, c);
      StampMeansProgress(n, i, now, k);
      assert now - c.lastEvent <= MAX_TIMEOUT + gap;
      if Stage(c') == Stage(c) {
      } else {
        assert (Stage(c') - 1) * (MAX_TIMEOUT + gap) == (Stage(c) - 1) * (MAX_TIMEOUT + gap) + (MAX_TIMEOUT + gap);
      }
      if i.Clock? {
        TickSurvivorsAreRecent(n, i, now, k);
      }
    }
  }

  lemma TickSurvivorsAreRecent(n: Node, i: Input, now: int, k: Tuple)
    requires i.Clock? && k in Step(n, i, now).node.conns
    ensures now - Step(n, i, now).node.conns[k].lastEvent <= MAX_TIMEOUT
  {
  }

  lemma {:induction false} RunYoung(n: Node, es: seq<Event>, t0: int, gap: nat, k: Tuple)
    requires Fresh(n) && Legal(n, es) && TicksEvery(es, t0, gap)
    requires k in Run(n, es).node.conns
    ensures Young(Run(n, es).node.conns[k], LastTick(es, t0), gap)
  {
    if es != [] {
      var e := es[|es| - 1];
      RunOk(n, es[..|es| - 1]);
      if k in Before(n, es).conns {
        RunYoung(n, es[..|es| - 1], t0, gap, k);
      }
      StepYoung(Before(n, es), e.i, e.now, LastTick(es[..|es| - 1], t0), gap, k);
    }
  }

  /** However its messages are lost, repeated or delayed, a record that is still
      there has lived for at most twenty seconds and one tick gap per stage. */
  lemma LifeIsBounded(n: Node, es: seq<Event>, t0: int, gap: nat, k: Tuple)
    requires Fresh(n) && Legal(n, es) && TicksEvery(es, t0, gap)
    requires es != [] && k in Run(n, es).node.conns
    ensures var c := Run(n, es).node.conns[k];
            es[|es| - 1].now - c.startTS <= Stage(c) * (MAX_TIMEOUT + gap) <= 3 * (MAX_TIMEOUT + gap)
  {
    RunYoung(n, es, t0, gap, k);
    YoungMeansShortLived(Run(n, es).node.conns[k], LastTick(es, t0), es[|es| - 1].now, gap);
  }

  lemma YoungMeansShortLived(c: Connection, tick: int, now: int, gap: nat)
    requires Young(c, tick, gap) && now <= tick + gap
    ensures now - c.startTS <= Stage(c) * (MAX_TIMEOUT + gap) <= 3 * (MAX_TIMEOUT + gap)
  {
    StagesAddUp(Stage(c), MAX_TIMEOUT + gap, c.lastEvent - c.startTS, now - c.lastEvent);
  }

  lemma StagesAddUp(stage: nat, span: nat, earlier: int, since: int)
    requires 1 <= stage <= 3 && earlier <= (stage - 1) * span && since <= span
    ensures earlier + since <= stage * span <= 3 * span
  {
  }
}
