/**
 What one step can do to the connection table.  Every record of the new table
 was kept, or installed by this step, or moved on by exactly one operation of
 the record; the theorems about runs only argue about these cases.
 */
module ConnectSteps {
  import opened ConnectCodes
  import opened ConnectNode

  // ------------------------------------------------------------ what the surroundings promise

  /** The three shapes a request may have: a direct one from its source, the first
      leg of a proxied one, from its source to the proxy, and the second leg, from
      the proxy to the destination. */
  predicate WellFormed(own: NodeId, m: Msg) {
    && m.src.id != m.dest.id
    && if m.mode == Direct then m.from.id == m.src.id && own == m.dest.id
       else if m.from.id == m.src.id then own != m.src.id && own != m.dest.id
       else m.from.id != m.dest.id && own == m.dest.id
  }

  /** A user's answer carries the ids, mode and point its AUTH callback handed out.
      A node plays one role for a key, so only direct or not, and the point, matter. */
  predicate Echoes(own: NodeId, src: NodeId, proxy: NodeId, dest: NodeId, mode: Mode, loc: Point) {
    && own != src
    && loc == PositionOf(own, src, dest)
    && (mode == Direct) == (proxy == src)
  }

  predicate NotListed(own: NodeId, ps: seq<PeerId>) { forall p :: p in ps ==> p.id != own }

  /** Peers a node is offered as proxies are other nodes, and its own table, asked
      for an address of the destination, answers with the destination. */
  ghost predicate InputOk(n: Node, i: Input, now: int) {
    match i
    case Ask(_, _, _, _, cs) =>
      && NotListed(n.own, cs.results) && NotListed(n.own, cs.matches) && NotListed(n.own, cs.proxies)
      && NotListed(n.own, cs.relays) && NotListed(n.own, cs.friends)
      && (forall x :: x in cs.potentials ==> x.0.id != n.own)
    case Cancel(_) => true
    case Offer(p, _, _) => p.id != n.own
    case Alive(p) => p.id != n.own
    case Clock(reqOrder, connOrder) =>
      && Enumerates(reqOrder, n.reqs.Keys)
      && Enumerates(connOrder, TickRequests(n, reqOrder, now).node.conns.Keys)
    case Grant(src, proxy, dest, mode, loc, _, _) => Echoes(n.own, src.id, proxy.id, dest.id, mode, loc)
    case Deny(src, proxy, dest, mode, loc, _) => Echoes(n.own, src.id, proxy.id, dest.id, mode, loc)
    case Recv(m, found) =>
      m.kind == MsgRequest ==> WellFormed(n.own, m) && (found.Some? ==> found.value.id == m.dest.id)
    case Shutdown => true
  }

  // ------------------------------------------------------------ how a record got where it is

  function Started(own: NodeId, dest: NodeId, c: Connection, now: int): Connection {
    var src := PeerId(own, c.srcAddr.addr);
    if c.mode == Direct then SetupDirect(c.proxy, src, now)
    else SetupProxied(c.proxy, src, PeerId(dest, NO_ADDR), c.mode, c.maxDelay, now)
  }

  /** The record a START_POINT attempt installs under key k. */
  ghost predicate InstalledByTick(n: Node, k: Tuple, c: Connection, now: int) {
    && k == Tuple(n.own, c.proxy.id, k.dest)
    && (c.mode == Direct) == (k.dest == c.proxy.id)
    && c == Started(n.own, k.dest, c, now)
  }

  ghost predicate InstalledByRequest(n: Node, k: Tuple, c: Connection, m: Msg, found: Option<PeerId>, now: int) {
    && m.kind == MsgRequest
    && k == KeyOf(n, m)
    && if m.mode == Direct then
         c == RequestedDirect(m.from, m.src, m.dest, now)
       else if m.src.id != m.from.id then
         c == RequestedAsEnd(m.from, m.src, m.dest, m.mode, now)
       else
         && found.Some?
         && var c0 := RequestedAsProxy(m.from, m.src, n.own, found.value, m.mode, m.param, now);
            c == if n.autoProxy && m.mode == Proxy then c0.AuthorisedAsProxy(0, now) else c0
  }

  ghost predicate Installed(n: Node, k: Tuple, c: Connection, i: Input, now: int) {
    || (i.Clock? && InstalledByTick(n, k, c, now))
    || (i.Recv? && InstalledByRequest(n, k, c, i.m, i.found, now))
  }

  ghost predicate AdvancedByGrant(k: Tuple, c: Connection, c': Connection, i: Input, now: int)
    requires i.Grant?
  {
    && k == Tuple(i.src.id, i.proxy.id, i.dest.id)
    && c.state == WaitingAuth
    && c' == if i.mode == Direct then c.AuthorisedDirect(i.dest, now)
             else if i.loc == EndPoint then c.AuthorisedAsEnd(i.dest, i.delay, now)
             else c.AuthorisedAsProxy(i.bandwidth, now)
  }

  ghost predicate AdvancedByMsg(n: Node, k: Tuple, c: Connection, c': Connection, m: Msg, now: int) {
    && k == KeyOf(n, m)
    && match m.kind
       case MsgRequest => false
       case MsgReply =>
         && c.point == MidPoint && c.state == WaitingReply && m.status == OKAY
         && c' == c.UpgradedToFinish(m.dest, m.param, now)
       case MsgStart =>
         && c.state == WaitingStart
         && c' == c.WithCompletion(m.src, m.dest, if c.mode == Relay then m.param else 0,
                                   if c.mode == Relay then 0 else m.param, now)
       case MsgAck =>
         && c.point != StartPoint && c.state == WaitingAck
         && !(c'.srcAck && c'.destAck)
         && (if m.from.id == m.src.id then c' == c.(srcAck := true)
             else m.from.id == m.dest.id && c' == c.(destAck := true))
  }

  ghost predicate Advanced(n: Node, k: Tuple, c: Connection, c': Connection, i: Input, now: int) {
    || (i.Grant? && AdvancedByGrant(k, c, c', i, now))
    || (i.Recv? && AdvancedByMsg(n, k, c, c', i.m, now))
    || (i.Clock? && !c.Dropped(now) && c' == c.Ticked(now))
  }

  ghost predicate Came(n: Node, k: Tuple, c: Connection, i: Input, now: int) {
    if k in n.conns then c == n.conns[k] || Advanced(n, k, n.conns[k], c, i, now)
    else Installed(n, k, c, i, now)
  }

  // ------------------------------------------------------------ the handlers leave nothing else

  /** Between n and n' records were only added, each by a START_POINT attempt. */
  ghost predicate OnlyStarts(n: Node, n': Node, now: int) {
    && SameConfig(n, n')
    && n.conns.Keys <= n'.conns.Keys
    && forall k :: k in n'.conns ==>
         if k in n.conns then n'.conns[k] == n.conns[k] else InstalledByTick(n, k, n'.conns[k], now)
  }

  ghost predicate SameConfig(n: Node, n': Node) {
    n'.own == n.own && n'.autoProxy == n.autoProxy && n'.allowed == n.allowed && n'.relay == n.relay
  }

  lemma StartRequestInstalls(n: Node, t: NodeId, now: int)
    requires t in n.reqs
    ensures OnlyStarts(n, StartRequest(n, t, now).node, now)
  {
  }

  lemma TickRequestInstalls(n: Node, t: NodeId, now: int)
    ensures OnlyStarts(n, TickRequest(n, t, now).node, now)
  {
    if t in n.reqs {
      StartRequestInstalls(n, t, now);
    }
  }

  lemma OnlyStartsCompose(n: Node, mid: Node, n': Node, now: int)
    requires OnlyStarts(n, mid, now) && OnlyStarts(mid, n', now)
    ensures OnlyStarts(n, n', now)
  {
  }

  lemma {:induction false} TickRequestsInstalls(n: Node, order: seq<NodeId>, now: int)
    ensures OnlyStarts(n, TickRequests(n, order, now).node, now)
  {
    if order != [] {
      var init := TickRequests(n, order[..|order| - 1], now).node;
      TickRequestsInstalls(n, order[..|order| - 1], now);
      TickRequestInstalls(init, order[|order| - 1], now);
      OnlyStartsCompose(n, init, TickRequests(n, order, now).node, now);
    }
  }

  lemma {:induction false} TickOutputKeeps(n: Node, order: seq<Tuple>, now: int)
    ensures TickOutput(n, order, now).node == n
  {
    if order != [] {
      TickOutputKeeps(n, order[..|order| - 1], now);
    }
  }

  lemma TickCame(n: Node, i: Input, now: int)
    requires i.Clock?
    ensures var n' := Step(n, i, now).node; forall k :: k in n'.conns ==> Came(n, k, n'.conns[k], i, now)
  {
    TickRequestsInstalls(n, i.reqOrder, now);
    var mid := TickRequests(n, i.reqOrder, now).node;
    var n' := Step(n, i, now).node;
    forall k | k in n'.conns
      ensures Came(n, k, n'.conns[k], i, now)
    {
      assert k in mid.conns && !mid.conns[k].Dropped(now) && n'.conns[k] == mid.conns[k].Ticked(now);
    }
  }

  lemma GrantCame(n: Node, i: Input, now: int)
    requires i.Grant?
    ensures var n' := Step(n, i, now).node; forall k :: k in n'.conns ==> Came(n, k, n'.conns[k], i, now)
  {
  }

  lemma RequestCame(n: Node, i: Input, now: int)
    requires i.Recv? && i.m.kind == MsgRequest && InputOk(n, i, now)
    ensures var n' := Step(n, i, now).node; forall k :: k in n'.conns ==> Came(n, k, n'.conns[k], i, now)
  {
  }

  lemma ReplyCame(n: Node, i: Input, now: int)
    requires i.Recv? && i.m.kind == MsgReply
    ensures var n' := Step(n, i, now).node; forall k :: k in n'.conns ==> Came(n, k, n'.conns[k], i, now)
  {
  }

  lemma StartCame(n: Node, i: Input, now: int)
    requires i.Recv? && i.m.kind == MsgStart
    ensures var n' := Step(n, i, now).node; forall k :: k in n'.conns ==> Came(n, k, n'.conns[k], i, now)
  {
  }

  lemma AckCame(n: Node, i: Input, now: int)
    requires i.Recv? && i.m.kind == MsgAck
    ensures var n' := Step(n, i, now).node; forall k :: k in n'.conns ==> Came(n, k, n'.conns[k], i, now)
  {
  }

  lemma QuietCame(n: Node, i: Input, now: int)
    requires !i.Clock? && !i.Grant? && !i.Recv?
    ensures var n' := Step(n, i, now).node;
            SameConfig(n, n') && forall k :: k in n'.conns ==> Came(n, k, n'.conns[k], i, now)
  {
  }

  lemma ReceiveCame(n: Node, i: Input, now: int)
    requires InputOk(n, i, now) && i.Recv?
    ensures var n' := Step(n, i, now).node;
            SameConfig(n, n') && forall k :: k in n'.conns ==> Came(n, k, n'.conns[k], i, now)
  {
    match i.m.kind
    case MsgRequest => RequestCame(n, i, now);
    case MsgReply => ReplyCame(n, i, now);
    case MsgStart => StartCame(n, i, now);
    case MsgAck => AckCame(n, i, now);
  }

  /** Every record of the new table was kept, installed or advanced. */
  lemma StepCame(n: Node, i: Input, now: int)
    requires InputOk(n, i, now)
    ensures var n' := Step(n, i, now).node;
            SameConfig(n, n') && forall k :: k in n'.conns ==> Came(n, k, n'.conns[k], i, now)
  {
    match i
    case Clock(_, _) => TickRequestsInstalls(n, i.reqOrder, now); TickCame(n, i, now);
    case Grant(_, _, _, _, _, _, _) => GrantCame(n, i, now);
    case Recv(_, _) => ReceiveCame(n, i, now);
    case _ => QuietCame(n, i, now);
  }
}
