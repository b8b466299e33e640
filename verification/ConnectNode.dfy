/**
 One BitDHT node's connection manager, as functions from the node's two tables
 and one input to the new tables, the messages sent and the callbacks made.
 */
module ConnectNode {
  import opened ConnectCodes

  datatype Option<T> = None | Some(value: T)

  // ------------------------------------------------------------ identities

  type NodeId = nat
  datatype Addr = Addr(ip: nat, port: nat)
  datatype PeerId = PeerId(id: NodeId, addr: Addr) {
    function Blanked(): PeerId { PeerId(id, NO_ADDR) }
  }

  const NO_ADDR := Addr(0, 0)
  const NOBODY := PeerId(0, NO_ADDR)

  datatype Tuple = Tuple(src: NodeId, proxy: NodeId, dest: NodeId)

  // ------------------------------------------------------------ records

  datatype ConnState = WaitingAuth | WaitingReply | WaitingStart | WaitingAck | Completed

  const START_RETRY_PERIOD := 3
  const START_MAX_RETRY := 3
  const MAX_TIMEOUT := 20

  datatype Connection = Connection(
    state: ConnState, lastEvent: int,
    src: PeerId, dest: PeerId, proxy: PeerId,
    point: Point, mode: Mode,
    srcAddr: PeerId, destAddr: PeerId,
    bandwidth: int, maxDelay: int, startTS: int,
    lastStart: int, retry: nat, srcAck: bool, destAck: bool, completedTS: int)
  {
    /** The absolute time by which this node expects the connection to be up. */
    function Deadline(): int { startTS + maxDelay }

    function WithDefaultAddrs(): Connection {
      this.(srcAddr := if srcAddr.addr.ip == 0 then PeerId(srcAddr.id, src.addr) else srcAddr,
            destAddr := if destAddr.addr.ip == 0 then PeerId(destAddr.id, dest.addr) else destAddr)
    }

    function AuthorisedAsProxy(bandwidth: int, now: int): Connection {
      this.(state := WaitingReply, lastEvent := now, bandwidth := bandwidth,
            proxy := proxy.Blanked(), destAddr := destAddr.Blanked())
    }

    function AuthorisedAsEnd(destAddr: PeerId, delay: int, now: int): Connection {
      this.(state := WaitingStart, lastEvent := now, maxDelay := delay + (now - startTS),
            src := src.Blanked(), dest := dest.Blanked(), srcAddr := srcAddr.Blanked(), destAddr := destAddr,
            retry := 0, lastStart := 0, srcAck := false, destAck := true, completedTS := 0)
    }

    function AuthorisedDirect(destAddr: PeerId, now: int): Connection {
      this.(state := WaitingAck, lastEvent := now, dest := dest.Blanked(), destAddr := destAddr)
          .WithDefaultAddrs()
          .(retry := 0, lastStart := 0, srcAck := false, destAck := true, completedTS := 0)
    }

    function UpgradedToFinish(destAddr: PeerId, secondDelay: int, now: int): Connection {
      var elapsed := now - startTS;
      this.(state := WaitingAck, lastEvent := now,
            maxDelay := if secondDelay > maxDelay - elapsed then secondDelay + elapsed else maxDelay,
            proxy := proxy.Blanked(), destAddr := destAddr)
          .WithDefaultAddrs()
          .(retry := 0, lastStart := 0, srcAck := false, destAck := false, completedTS := 0)
    }

    function WithCompletion(srcAddr: PeerId, destAddr: PeerId, bandwidth: int, delay: int, now: int): Connection {
      var elapsed := now - startTS;
      this.(state := Completed, lastEvent := now, completedTS := now, bandwidth := bandwidth,
            maxDelay := if delay > maxDelay - elapsed then delay + elapsed else maxDelay,
            srcAddr := srcAddr, destAddr := destAddr)
          .WithDefaultAddrs()
    }

    predicate Expired(now: int) { now - lastEvent > MAX_TIMEOUT }

    predicate StartDue(now: int) {
      !Expired(now) && state == WaitingAck && now - lastStart > START_RETRY_PERIOD
    }

    predicate GivesUp(now: int) { StartDue(now) && retry > START_MAX_RETRY }

    predicate SendsStart(now: int) { StartDue(now) && retry <= START_MAX_RETRY }

    predicate Dropped(now: int) { Expired(now) || GivesUp(now) }

    function Ticked(now: int): Connection {
      if SendsStart(now) then this.(lastStart := now, retry := retry + 1) else this
    }

    /** What a START message carries: the bandwidth of a relay, else the delay still left. */
    function StartParam(now: int): int {
      var remaining := maxDelay - (now - startTS);
      if mode == Relay then bandwidth else if remaining < 0 then 0 else remaining
    }
  }

  function NewRecord(state: ConnState, point: Point, mode: Mode, src: PeerId, proxy: PeerId, dest: PeerId,
                     srcAddr: PeerId, destAddr: PeerId, maxDelay: int, now: int): Connection
  {
    Connection(state, now, src, dest, proxy, point, mode, srcAddr, destAddr,
               0, maxDelay, now, 0, 0, false, false, 0)
  }

  function SetupProxied(proxy: PeerId, srcAddr: PeerId, dest: PeerId, mode: Mode, delay: int, now: int): Connection {
    NewRecord(WaitingStart, StartPoint, mode, srcAddr.Blanked(), proxy, dest.Blanked(),
              srcAddr, dest.Blanked(), delay, now)
  }

  function SetupDirect(dest: PeerId, srcAddr: PeerId, now: int): Connection {
    NewRecord(WaitingStart, StartPoint, Direct, srcAddr.Blanked(), dest, dest, srcAddr, dest.Blanked(), 0, now)
  }

  function RequestedDirect(sender: PeerId, srcAddr: PeerId, dest: PeerId, now: int): Connection {
    NewRecord(WaitingAuth, EndPoint, Direct, sender, sender, dest.Blanked(), srcAddr, dest.Blanked(), 0, now)
  }

  function RequestedAsProxy(sender: PeerId, srcAddr: PeerId, own: NodeId, dest: PeerId,
                            mode: Mode, delay: int, now: int): Connection
  {
    NewRecord(WaitingAuth, MidPoint, mode, sender, PeerId(own, NO_ADDR), dest, srcAddr, dest.Blanked(), delay, now)
  }

  function RequestedAsEnd(sender: PeerId, src: PeerId, dest: PeerId, mode: Mode, now: int): Connection {
    NewRecord(WaitingAuth, EndPoint, mode, src.Blanked(), sender, dest.Blanked(),
              src.Blanked(), dest.Blanked(), 0, now)
  }

  datatype ReqState = Ready | Paused | InProgress | ExtConnect | Done
  datatype ProxySource =
    | QueryResult | QueryProxy | SpaceFriend | SpaceServer | SpaceVersion | AddedProxy | UnknownSource

  datatype ProxyEntry = ProxyEntry(id: PeerId, source: ProxySource, err: Code)

  const TIMEOUT_CONNECT := 300
  const TIMEOUT_INPROGRESS := 30
  const PAUSE_SHORT_PERIOD := 1
  const PAUSE_START_PERIOD := 10
  const MAX_NUM_RETRIES := 3
  const MIN_START_PROXY_COUNT := 3
  const MED_START_PROXY_COUNT := 5

  datatype Request = Request(
    target: NodeId, localAddr: Addr, mode: Mode, state: ReqState, stateTS: int, pauseTS: int, err: Code,
    delay: int, requestTS: int, good: seq<ProxyEntry>, potential: seq<PeerId>, recycled: nat,
    current: PeerId, currentSource: ProxySource, tried: seq<ProxyEntry>)
  {
    function Moved(state: ReqState, now: int): Request { this.(state := state, stateTS := now) }

    function Killed(err: Code, now: int): Request { Moved(Done, now).(err := err) }

    /** The CB_FAILED branch of callbackConnectRequest. */
    function Failed(err: Code, mode: Mode, now: int): Request {
      var verdict := Judge(err, mode);
      var entry := ProxyEntry(current, currentSource, err);
      if verdict == Fatal then
        Killed(err, now)
      else if verdict == Recycle then
        Killed(err, now).(state := Paused, pauseTS := now + PAUSE_SHORT_PERIOD,
                          good := good + [entry], recycled := recycled + 1)
      else
        Killed(err, now).(state := Paused, pauseTS := now + PAUSE_SHORT_PERIOD, tried := tried + [entry])
    }

    predicate Knows(p: PeerId) {
      || p == current
      || (exists e :: e in tried && e.id == p)
      || (exists e :: e in good && e.id == p)
    }

    function WithGoodProxy(p: PeerId): Request {
      if Knows(p) then this
      else this.(good := good + [ProxyEntry(p, AddedProxy, OKAY)], potential := Without(potential, p))
    }

    function WithPing(p: PeerId): Request {
      if p in potential then this.(potential := Without(potential, p)).WithGoodProxy(p) else this
    }
  }

  /** The list without its first occurrence of p. */
  function Without(ps: seq<PeerId>, p: PeerId): (r: seq<PeerId>)
    ensures forall q :: q in r ==> q in ps
    ensures p in ps ==> multiset(r) == multiset(ps) - multiset{p}
    ensures p !in ps ==> r == ps
  {
    if ps == [] then []
    else if ps[0] == p then assert ps == [p] + ps[1..]; ps[1..]
    else assert ps == [ps[0]] + ps[1..]; [ps[0]] + Without(ps[1..], p)
  }

  function NewRequest(target: NodeId, localAddr: Addr, mode: Mode, delay: int, now: int): Request {
    Request(target, localAddr, mode, Ready, now, 0, OKAY, delay, now, [], [], 0, NOBODY, UnknownSource, [])
  }

  // ------------------------------------------------------------ outputs

  datatype MsgKind = MsgRequest | MsgReply | MsgStart | MsgAck

  datatype Send = Send(to: PeerId, kind: MsgKind, src: PeerId, dest: PeerId, mode: Mode, param: int, status: Code)

  datatype CbKind = CbAuth | CbPending | CbStart | CbProxy | CbFailed | CbRequest

  datatype Callback = Callback(src: PeerId, proxy: PeerId, dest: PeerId, mode: Mode, point: Point,
                               param: int, kind: CbKind, err: Code)

  datatype RelayMode = RelayOff | RelayOn | RelayOnly | RelayServer

  datatype Node = Node(own: NodeId, allowed: set<Mode>, autoProxy: bool, relay: RelayMode,
                       conns: map<Tuple, Connection>, reqs: map<NodeId, Request>)

  datatype Out = Out(node: Node, sends: seq<Send>, cbs: seq<Callback>)

  function Quiet(n: Node): Out { Out(n, [], []) }

  // ------------------------------------------------------------ lookups

  function PositionOf(own: NodeId, src: NodeId, dest: NodeId): Point {
    if own == src then StartPoint else if own == dest then EndPoint else MidPoint
  }

  function KeyBySender(own: NodeId, sender: NodeId, src: NodeId, dest: NodeId): Tuple {
    Tuple(src, if PositionOf(own, src, dest) == MidPoint then own else sender, dest)
  }

  predicate HasRoute(conns: map<Tuple, Connection>, src: NodeId, dest: NodeId) {
    exists k :: k in conns && k.src == src && k.dest == dest
  }

  function CallbackOf(c: Connection, kind: CbKind, err: Code): Callback {
    Callback(c.src, c.proxy, c.dest, c.mode, c.point, 0, kind, err)
  }

  /** A proxy that authorises PROXY connections by itself does not report on them. */
  predicate Silent(n: Node, c: Connection) { c.mode == Proxy && n.autoProxy }

  function Reports(n: Node, c: Connection, kind: CbKind, err: Code): seq<Callback> {
    if Silent(n, c) then [] else [CallbackOf(c, kind, err)]
  }

  // ------------------------------------------------------------ requests made by the user

  datatype Candidates = Candidates(results: seq<PeerId>, matches: seq<PeerId>,
                                   proxies: seq<PeerId>, potentials: seq<(PeerId, bool)>,
                                   relays: seq<PeerId>, friends: seq<PeerId>)

  function Entries(ps: seq<PeerId>, source: ProxySource): (es: seq<ProxyEntry>)
    ensures |es| == |ps|
    ensures forall i :: 0 <= i < |ps| ==> es[i] == ProxyEntry(ps[i], source, OKAY)
  {
    seq(|ps|, i requires 0 <= i < |ps| => ProxyEntry(ps[i], source, OKAY))
  }

  /** The match list merged in, each peer once. */
  function Merged(good: seq<ProxyEntry>, matches: seq<PeerId>): (es: seq<ProxyEntry>)
    ensures forall e :: e in es ==> e in good || e.id in matches
    decreases |matches|
  {
    if matches == [] then good
    else if exists e :: e in good && e.id == matches[0] then Merged(good, matches[1..])
    else Merged(good + [ProxyEntry(matches[0], SpaceVersion, OKAY)], matches[1..])
  }

  function Flagged(ps: seq<(PeerId, bool)>, flag: bool): (r: seq<PeerId>)
    ensures forall q :: q in r ==> (q, flag) in ps
  {
    if ps == [] then []
    else
      var last := ps[|ps| - 1];
      Flagged(ps[..|ps| - 1], flag) + if last.1 == flag then [last.0] else []
  }

  function DirectRequest(target: NodeId, localAddr: Addr, cs: Candidates, now: int): Request {
    var found := Entries(cs.results, QueryResult);
    NewRequest(target, localAddr, Direct, 0, now).(
      good := if |found| < 1 then Merged(found, cs.matches) else found)
  }

  function ProxyRequest(target: NodeId, localAddr: Addr, mode: Mode, delay: int, relay: RelayMode,
                        cs: Candidates, now: int): Request
  {
    var known := Entries(cs.proxies + Flagged(cs.potentials, true), QueryProxy);
    var first := if mode == Proxy then known else [];
    var servers := if relay == RelayOff then [] else Entries(cs.relays, SpaceServer);
    var last := if mode == Relay then known else [];
    var good := first + servers + Entries(cs.friends, SpaceFriend) + last;
    var r := NewRequest(target, localAddr, mode, delay, now).(
      good := good,
      potential := if |good| < MED_START_PROXY_COUNT then Flagged(cs.potentials, false) else []);
    if |good| < MIN_START_PROXY_COUNT then r.(state := Paused, pauseTS := now + PAUSE_START_PERIOD) else r
  }

  function AskConnection(n: Node, localAddr: Addr, target: NodeId, mode: Mode, delay: int,
                         cs: Candidates, now: int): Out
  {
    if mode !in n.allowed || target == n.own || target in n.reqs then Quiet(n)
    else
      var r := if mode == Direct then DirectRequest(target, localAddr, cs, now)
               else ProxyRequest(target, localAddr, mode, delay, n.relay, cs, now);
      Quiet(n.(reqs := n.reqs[target := r]))
  }

  function CancelRequest(n: Node, target: NodeId, now: int): Out {
    if target !in n.reqs then Quiet(n)
    else Quiet(n.(reqs := n.reqs[target := n.reqs[target].Killed(StartError(User), now)]))
  }

  function OfferProxy(n: Node, p: PeerId, target: NodeId, flagged: bool): Out {
    if target !in n.reqs || n.reqs[target].mode == Direct || p.id == target || !flagged then Quiet(n)
    else Quiet(n.(reqs := n.reqs[target := n.reqs[target].WithGoodProxy(p)]))
  }

  function PeerAlive(n: Node, p: PeerId): Out {
    Quiet(n.(reqs := map t | t in n.reqs :: n.reqs[t].WithPing(p)))
  }

  // ------------------------------------------------------------ the tick

  function StartAttempt(n: Node, proxy: PeerId, srcAddr: PeerId, destAddr: PeerId, mode: Mode, delay: int,
                        now: int): Option<Out>
  {
    var key := KeyBySender(n.own, proxy.id, srcAddr.id, destAddr.id);
    if mode !in n.allowed || key in n.conns || HasRoute(n.conns, destAddr.id, srcAddr.id) then None
    else
      var c := if mode == Direct then SetupDirect(proxy, srcAddr, now)
               else SetupProxied(proxy, srcAddr, destAddr, mode, delay, now);
      Some(Out(n.(conns := n.conns[key := c]),
               [Send(c.proxy, MsgRequest, c.srcAddr, c.destAddr, c.mode, c.maxDelay, OKAY)],
               [Callback(srcAddr, proxy, destAddr, mode, StartPoint, 0, CbRequest, OKAY)]))
  }

  /** startConnectionAttempt(req): takes the front proxy even when the attempt then fails. */
  function StartRequest(n: Node, t: NodeId, now: int): Out
    requires t in n.reqs
  {
    var r := n.reqs[t];
    var failed := StartError(OutOfProxy);
    if r.good == [] then Quiet(n.(reqs := n.reqs[t := r.Killed(failed, now)]))
    else
      var remaining := r.delay - (now - r.requestTS);
      var delay := if remaining > 0 then remaining else 0;
      var proxy := r.good[0].id;
      var r' := r.(good := r.good[1..], current := proxy, currentSource := r.good[0].source)
                 .Moved(InProgress, now);
      var attempt :=
        if (r.mode == Direct) != (r.target == proxy.id) then None
        else StartAttempt(n, proxy, PeerId(n.own, r.localAddr), PeerId(r.target, NO_ADDR), r.mode, delay, now);
      match attempt
      case None => Quiet(n.(reqs := n.reqs[t := r'.Killed(failed, now)]))
      case Some(out) => out.(node := out.node.(reqs := n.reqs[t := r']))
  }

  function Unpaused(r: Request, now: int): Request {
    if now <= r.pauseTS then r
    else if r.good == [] then r.Killed(StartError(OutOfProxy), now)
    else if r.recycled > |r.good| * MAX_NUM_RETRIES then r.Killed(StartError(TooManyRetry), now)
    else r.Moved(Ready, now)
  }

  function TickRequest(n: Node, t: NodeId, now: int): Out {
    if t !in n.reqs then Quiet(n)
    else
      var r := n.reqs[t];
      match r.state
      case Ready => StartRequest(n, t, now)
      case Paused => Quiet(n.(reqs := n.reqs[t := Unpaused(r, now)]))
      case InProgress =>
        if now - r.stateTS > TIMEOUT_INPROGRESS then
          Quiet(n.(reqs := n.reqs[t := r.Moved(Paused, now).(pauseTS := now + PAUSE_SHORT_PERIOD)]))
        else Quiet(n)
      case ExtConnect =>
        if now - r.stateTS > TIMEOUT_CONNECT then
          Quiet(n.(reqs := n.reqs[t := r.Killed(StartError(Protocol), now)]))
        else Quiet(n)
      case Done =>
        Out(n.(reqs := n.reqs - {t}), [],
            [Callback(NOBODY, NOBODY, PeerId(r.target, NO_ADDR), r.mode, StartPoint, 0, CbRequest, r.err)])
  }

  function Then(out: Out, next: Out): Out { Out(next.node, out.sends + next.sends, out.cbs + next.cbs) }

  /** iterateConnectionRequests, visiting the targets in the given order. */
  function TickRequests(n: Node, order: seq<NodeId>, now: int): Out {
    if order == [] then Quiet(n)
    else
      var init := TickRequests(n, order[..|order| - 1], now);
      Then(init, TickRequest(init.node, order[|order| - 1], now))
  }

  function StartSends(c: Connection, now: int): seq<Send> {
    if !c.SendsStart(now) then []
    else
      (if c.srcAck then [] else [Send(c.src, MsgStart, c.srcAddr, c.destAddr, c.mode, c.StartParam(now), OKAY)]) +
      (if c.destAck then [] else [Send(c.dest, MsgStart, c.srcAddr, c.destAddr, c.mode, c.StartParam(now), OKAY)])
  }

  function TickReports(n: Node, c: Connection, now: int): seq<Callback> {
    if c.GivesUp(now) then Reports(n, c, CbFailed, ErrorCode(OKAY, Timeout, c.point)) else []
  }

  /** What iterateConnections leaves: every record is dropped, or kept, or has one more START round counted. */
  function TickedConns(conns: map<Tuple, Connection>, now: int): map<Tuple, Connection> {
    map k | k in conns && !conns[k].Dropped(now) :: conns[k].Ticked(now)
  }

  /** What iterateConnections puts out, visiting the records in the given order. */
  function TickOutput(n: Node, order: seq<Tuple>, now: int): Out {
    if order == [] then Quiet(n)
    else
      var init := TickOutput(n, order[..|order| - 1], now);
      var k := order[|order| - 1];
      if k !in n.conns then init
      else Then(init, Out(n, StartSends(n.conns[k], now), TickReports(n, n.conns[k], now)))
  }

  ghost predicate Enumerates<T(!new)>(order: seq<T>, s: set<T>) {
    (forall i, j :: 0 <= i < j < |order| ==> order[i] != order[j]) && (forall x :: x in order <==> x in s)
  }

  /** tickConnections: the requests first, then the connections. */
  function Tick(n: Node, reqOrder: seq<NodeId>, connOrder: seq<Tuple>, now: int): Out {
    var out := TickRequests(n, reqOrder, now);
    Then(out, TickOutput(out.node, connOrder, now).(
           node := out.node.(conns := TickedConns(out.node.conns, now))))
  }

  // ------------------------------------------------------------ authorisation by the user

  function AuthOk(n: Node, src: PeerId, proxy: PeerId, dest: PeerId, mode: Mode, loc: Point,
                  bandwidth: int, delay: int, now: int): Out
  {
    var key := Tuple(src.id, proxy.id, dest.id);
    if key !in n.conns || n.conns[key].state != WaitingAuth then Quiet(n)
    else
      var c := n.conns[key];
      if mode == Direct then
        Quiet(n.(conns := n.conns[key := c.AuthorisedDirect(dest, now)]))
      else if loc == EndPoint then
        var c' := c.AuthorisedAsEnd(dest, delay, now);
        Out(n.(conns := n.conns[key := c']),
            [Send(c'.proxy, MsgReply, c'.srcAddr, c'.destAddr, c'.mode, c'.maxDelay, OKAY)], [])
      else
        var c' := c.AuthorisedAsProxy(bandwidth, now);
        Out(n.(conns := n.conns[key := c']),
            [Send(c'.dest, MsgRequest, c'.srcAddr, c'.destAddr, c'.mode, 0, OKAY)], [])
  }

  function AuthNo(n: Node, src: PeerId, proxy: PeerId, dest: PeerId, mode: Mode, loc: Point, err: Code): Out {
    var key := Tuple(src.id, proxy.id, dest.id);
    if key !in n.conns then Quiet(n)
    else
      var c := n.conns[key];
      var to := if mode != Direct && loc == EndPoint then c.proxy else c.src;
      Out(n.(conns := n.conns - {key}),
          [Send(to, MsgReply, c.srcAddr, c.destAddr, mode, 0, ErrorCode(err, AuthDenied, c.point))], [])
  }

  // ------------------------------------------------------------ messages received

  datatype Msg = Msg(from: PeerId, kind: MsgKind, src: PeerId, dest: PeerId, mode: Mode, param: int, status: Code)

  function KeyOf(n: Node, m: Msg): Tuple { KeyBySender(n.own, m.from.id, m.src.id, m.dest.id) }

  function Refusal(n: Node, m: Msg, typ: ErrorType, point: Point): Out {
    Out(n, [Send(m.from, MsgReply, m.src, m.dest, m.mode, 0, ErrorCode(OKAY, typ, point))], [])
  }

  /** recvedConnectionRequest; found is the address the node's own tables give for the destination. */
  function RecvRequest(n: Node, m: Msg, found: Option<PeerId>, now: int): Out {
    var key := KeyOf(n, m);
    var pos := PositionOf(n.own, m.src.id, m.dest.id);
    if m.mode !in n.allowed then Refusal(n, m, Unsupported, pos)
    else if key in n.conns then Refusal(n, m, Duplicate, n.conns[key].point)
    else if HasRoute(n.conns, m.dest.id, m.src.id) then Refusal(n, m, Duplicate, pos)
    else if m.mode == Direct then
      var c := RequestedDirect(m.from, m.src, m.dest, now);
      Out(n.(conns := n.conns[key := c]), [], [CallbackOf(c, CbAuth, OKAY)])
    else if m.src.id == m.from.id then
      match found
      case None =>
        Refusal(n, m, NoAddress, MidPoint).(
          cbs := if n.relay != RelayServer then []
                 else [Callback(m.src, PeerId(n.own, NO_ADDR), m.dest, m.mode, MidPoint, 0, CbAuth,
                                Code(NoAddress, NoSource, 0))])
      case Some(dest) =>
        var c := RequestedAsProxy(m.from, m.src, n.own, dest, m.mode, m.param, now);
        var n' := n.(conns := n.conns[key := c]);
        if n.autoProxy && m.mode == Proxy then
          AuthOk(n', c.src, c.proxy, c.dest, c.mode, c.point, 0, 0, now)
        else
          Out(n', [], [CallbackOf(c, CbAuth, OKAY)])
    else
      var c := RequestedAsEnd(m.from, m.src, m.dest, m.mode, now);
      Out(n.(conns := n.conns[key := c]), [], [CallbackOf(c, CbAuth, OKAY)])
  }

  /** callbackConnectRequest: the request table learns of the callback before the user does. */
  function NotifyRequest(n: Node, cb: Callback, now: int): Out {
    if cb.point != StartPoint then
      if cb.kind == CbStart && cb.point == EndPoint then
        Out(if cb.src.id !in n.reqs then n
            else n.(reqs := n.reqs[cb.src.id := n.reqs[cb.src.id].Moved(ExtConnect, now)]), [], [cb])
      else Quiet(n)
    else if cb.dest.id !in n.reqs then Quiet(n)
    else if cb.kind == CbFailed then
      Out(n.(reqs := n.reqs[cb.dest.id := n.reqs[cb.dest.id].Failed(cb.err, cb.mode, now)]), [], [cb])
    else if cb.kind == CbStart then
      Out(n.(reqs := n.reqs[cb.dest.id := n.reqs[cb.dest.id].Moved(ExtConnect, now)]), [], [cb])
    else Quiet(n)
  }

  function RecvReply(n: Node, m: Msg, now: int): Out {
    var key := KeyOf(n, m);
    if key !in n.conns then Quiet(n)
    else
      var c := n.conns[key];
      var without := n.(conns := n.conns - {key});
      if c.point == MidPoint then
        if m.status == OKAY && c.state == WaitingReply then
          var c' := c.UpgradedToFinish(m.dest, m.param, now);
          Out(n.(conns := n.conns[key := c']), [], Reports(n, c', CbPending, OKAY))
        else
          var err := if m.status == OKAY then ErrorCode(OKAY, Protocol, c.point) else m.status;
          Out(without, [Send(c.src, MsgReply, c.srcAddr, c.destAddr, m.mode, 0, err)], Reports(n, c, CbFailed, err))
      else if c.point == StartPoint then
        var err := if m.status != OKAY then m.status else ErrorCode(OKAY, Protocol, c.point);
        NotifyRequest(without, CallbackOf(c, CbFailed, err), now)
      else
        Out(without, [], [CallbackOf(c, CbFailed, ErrorCode(OKAY, Protocol, c.point))])
  }

  function RecvStart(n: Node, m: Msg, now: int): Out {
    var key := KeyOf(n, m);
    if key !in n.conns || (n.conns[key].state != WaitingStart && n.conns[key].state != Completed) then Quiet(n)
    else
      var c := n.conns[key];
      var ack := [Send(m.from, MsgAck, c.src, c.dest, m.mode, 0, OKAY)];
      if c.state == Completed then Out(n, ack, [])
      else
        var c' := c.WithCompletion(m.src, m.dest, if c.mode == Relay then m.param else 0,
                                   if c.mode == Relay then 0 else m.param, now);
        var out := NotifyRequest(n.(conns := n.conns[key := c']),
                                 Callback(c'.srcAddr, c'.proxy, c'.destAddr, c'.mode, c'.point, m.param, CbStart, OKAY),
                                 now);
        out.(sends := ack)
  }

  function RecvAck(n: Node, m: Msg, now: int): Out {
    var key := KeyOf(n, m);
    if key !in n.conns || n.conns[key].point == StartPoint || n.conns[key].state != WaitingAck then Quiet(n)
    else
      var c := n.conns[key];
      var c' := if m.from.id == m.src.id then c.(srcAck := true)
                else if m.from.id == m.dest.id then c.(destAck := true)
                else c;
      if !(c'.srcAck && c'.destAck) then Quiet(n.(conns := n.conns[key := c']))
      else
        var without := n.(conns := n.conns - {key});
        if c.mode == Direct then
          NotifyRequest(without, Callback(c.srcAddr, c.proxy, c.dest, c.mode, c.point, 0, CbStart, OKAY), now)
        else
          Out(without, [], Reports(n, c, CbProxy, OKAY))
  }

  // ------------------------------------------------------------ one step of a node

  datatype Input =
    | Ask(localAddr: Addr, target: NodeId, mode: Mode, delay: int, cs: Candidates)
    | Cancel(target: NodeId)
    | Offer(p: PeerId, target: NodeId, flagged: bool)
    | Alive(p: PeerId)
    | Clock(reqOrder: seq<NodeId>, connOrder: seq<Tuple>)
    | Grant(src: PeerId, proxy: PeerId, dest: PeerId, mode: Mode, loc: Point, bandwidth: int, delay: int)
    | Deny(src: PeerId, proxy: PeerId, dest: PeerId, mode: Mode, loc: Point, err: Code)
    | Recv(m: Msg, found: Option<PeerId>)
    | Shutdown

  function Receive(n: Node, m: Msg, found: Option<PeerId>, now: int): Out {
    match m.kind
    case MsgRequest => RecvRequest(n, m, found, now)
    case MsgReply => RecvReply(n, m, now)
    case MsgStart => RecvStart(n, m, now)
    case MsgAck => RecvAck(n, m, now)
  }

  function Step(n: Node, i: Input, now: int): Out {
    match i
    case Ask(localAddr, target, mode, delay, cs) => AskConnection(n, localAddr, target, mode, delay, cs, now)
    case Cancel(target) => CancelRequest(n, target, now)
    case Offer(p, target, flagged) => OfferProxy(n, p, target, flagged)
    case Alive(p) => PeerAlive(n, p)
    case Clock(reqOrder, connOrder) => Tick(n, reqOrder, connOrder, now)
    case Grant(src, proxy, dest, mode, loc, bandwidth, delay) =>
      AuthOk(n, src, proxy, dest, mode, loc, bandwidth, delay, now)
    case Deny(src, proxy, dest, mode, loc, err) => AuthNo(n, src, proxy, dest, mode, loc, err)
    case Recv(m, found) => Receive(n, m, found, now)
    case Shutdown => Quiet(n.(conns := map[], reqs := map[]))
  }
}
