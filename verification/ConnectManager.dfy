/**
 The connection manager as an object: two tables that its methods update in
 place, and what it hands to the publisher.  Each method is proved to do what
 the step functions of ConnectNode say, which is what the theorems are about.
 */
module ConnectManager {
  import opened ConnectCodes
  import opened ConnectNode
  import opened ConnectSteps

  class Manager {
    const own: NodeId
    var allowed: set<Mode>
    var autoProxy: bool
    var relay: RelayMode
    var conns: map<Tuple, Connection>
    var reqs: map<NodeId, Request>
    var sent: seq<Send>
    var calls: seq<Callback>

    constructor (own: NodeId, relay: RelayMode)
      ensures View() == Node(own, {Proxy}, true, relay, map[], map[])
      ensures sent == [] && calls == []
    {
      this.own := own;
      this.relay := relay;
      allowed, autoProxy := {Proxy}, true;
      conns, reqs, sent, calls := map[], map[], [], [];
    }

    ghost function View(): Node
      reads this
    {
      Node(own, allowed, autoProxy, relay, conns, reqs)
    }

    /** The object moved to the node of out, having put out what out says. */
    twostate predicate Did(out: Out)
      reads this
    {
      View() == out.node && sent == old(sent) + out.sends && calls == old(calls) + out.cbs
    }

    // ---------------------------------------------------------- configuration

    method SetConnectionOptions(allowedModes: set<Mode>, auto: bool)
      modifies this
      ensures View() == old(View()).(allowed := allowedModes, autoProxy := auto)
      ensures sent == old(sent) && calls == old(calls)
    {
      allowed := allowedModes;
      autoProxy := auto;
    }

    method ShutdownConnections(now: int)
      modifies this
      ensures Did(Step(old(View()), Shutdown, now))
    {
      reqs := map[];
      conns := map[];
    }

    // ---------------------------------------------------------- the publisher

    method SendMsg(to: PeerId, kind: MsgKind, src: PeerId, dest: PeerId, mode: Mode, param: int, status: Code)
      modifies this`sent
      ensures sent == old(sent) + [Send(to, kind, src, dest, mode, param, status)]
    {
      sent := sent + [Send(to, kind, src, dest, mode, param, status)];
    }

    method CallbackConnect(cb: Callback)
      modifies this`calls
      ensures calls == old(calls) + [cb]
    {
      calls := calls + [cb];
    }

    // ---------------------------------------------------------- lookups

    method FindSimilarConnection(src: NodeId, dest: NodeId) returns (found: bool)
      ensures found == HasRoute(conns, src, dest)
    {
      var rest := conns.Keys;
      while rest != {}
        invariant rest <= conns.Keys
        invariant forall k :: k in conns && k !in rest ==> !(k.src == src && k.dest == dest)
        decreases |rest|
      {
        var k :| k in rest;
        if k.src == src && k.dest == dest {
          return true;
        }
        rest := rest - {k};
      }
      return false;
    }

    // ---------------------------------------------------------- requests by the user

    method RequestConnection(localAddr: Addr, target: NodeId, mode: Mode, delay: int, start: bool,
                             cs: Candidates, now: int) returns (ok: bool)
      modifies this
      ensures start ==> Did(AskConnection(old(View()), localAddr, target, mode, delay, cs, now))
      ensures !start ==> Did(CancelRequest(old(View()), target, now))
      ensures ok == if start then mode in allowed && target != own && target !in old(reqs) else target in old(reqs)
    {
      if !start {
        ok := KillConnectionRequest(target, now);
        return;
      }
      if mode !in allowed || target == own {
        return false;
      }
      if mode == Direct {
        ok := RequestDirect(localAddr, target, cs, now);
      } else {
        ok := RequestProxied(localAddr, target, mode, delay, cs, now);
      }
    }

    method KillConnectionRequest(target: NodeId, now: int) returns (ok: bool)
      modifies this
      ensures Did(CancelRequest(old(View()), target, now))
      ensures ok == (target in old(reqs))
    {
      if target !in reqs {
        return false;
      }
      reqs := reqs[target := reqs[target].(state := Done, stateTS := now, err := StartError(User))];
      return true;
    }

    method CollectEntries(ps: seq<PeerId>, source: ProxySource) returns (es: seq<ProxyEntry>)
      ensures es == Entries(ps, source)
    {
      es := [];
      for j := 0 to |ps|
        invariant es == Entries(ps[..j], source)
      {
        es := es + [ProxyEntry(ps[j], source, OKAY)];
      }
      assert ps[..|ps|] == ps;
    }

    method MergeMatches(good: seq<ProxyEntry>, matches: seq<PeerId>) returns (es: seq<ProxyEntry>)
      ensures es == Merged(good, matches)
    {
      es := good;
      var j := 0;
      while j < |matches|
        invariant 0 <= j <= |matches|
        invariant Merged(good, matches) == Merged(es, matches[j..])
      {
        if forall e :: e in es ==> e.id != matches[j] {
          es := es + [ProxyEntry(matches[j], SpaceVersion, OKAY)];
        }
        j := j + 1;
      }
    }

    method RequestDirect(localAddr: Addr, target: NodeId, cs: Candidates, now: int) returns (ok: bool)
      modifies this
      ensures ok == (target !in old(reqs))
      ensures Did(if ok then Quiet(old(View()).(reqs := old(reqs)[target := DirectRequest(target, localAddr, cs, now)]))
                  else Quiet(old(View())))
    {
      if target in reqs {
        return false;
      }
      var good := CollectEntries(cs.results, QueryResult);
      if |good| < 1 {
        good := MergeMatches(good, cs.matches);
      }
      reqs := reqs[target := NewRequest(target, localAddr, Direct, 0, now).(good := good)];
      return true;
    }

    /** Moves the potential proxies that pass the flag check to the good ones. */
    method ShiftPotentials(proxies: seq<PeerId>, potentials: seq<(PeerId, bool)>)
      returns (good: seq<PeerId>, rest: seq<PeerId>)
      ensures good == proxies + Flagged(potentials, true)
      ensures rest == Flagged(potentials, false)
    {
      good, rest := proxies, [];
      for j := 0 to |potentials|
        invariant good == proxies + Flagged(potentials[..j], true)
        invariant rest == Flagged(potentials[..j], false)
      {
        assert potentials[..j + 1][..j] == potentials[..j];
        if potentials[j].1 {
          good := good + [potentials[j].0];
        } else {
          rest := rest + [potentials[j].0];
        }
      }
      assert potentials[..|potentials|] == potentials;
    }

    method RequestProxied(localAddr: Addr, target: NodeId, mode: Mode, delay: int, cs: Candidates, now: int)
      returns (ok: bool)
      requires mode != Direct
      modifies this
      ensures ok == (target !in old(reqs))
      ensures Did(if ok then Quiet(old(View()).(
                    reqs := old(reqs)[target := ProxyRequest(target, localAddr, mode, delay, relay, cs, now)]))
                  else Quiet(old(View())))
    {
      if target in reqs {
        return false;
      }
      var r := NewRequest(target, localAddr, mode, delay, now);
      var proxies, potentials := ShiftPotentials(cs.proxies, cs.potentials);
      var known := CollectEntries(proxies, QueryProxy);
      var first, servers, last := [], [], [];
      if mode == Proxy {
        first := known;
      }
      if relay != RelayOff {
        servers := CollectEntries(cs.relays, SpaceServer);
      }
      var friends := CollectEntries(cs.friends, SpaceFriend);
      if mode == Relay {
        last := known;
      }
      var good := first + servers + friends + last;
      r := r.(good := good);
      if |r.good| < MED_START_PROXY_COUNT {
        r := r.(potential := potentials);
      }
      if |r.good| < MIN_START_PROXY_COUNT {
        r := r.(state := Paused, pauseTS := now + PAUSE_START_PERIOD);
      }
      reqs := reqs[target := r];
      return true;
    }

    method AddPotentialConnectionProxy(p: PeerId, target: NodeId, flagged: bool)
      modifies this
      ensures Did(OfferProxy(old(View()), p, target, flagged))
    {
      if target !in reqs {
        return;
      }
      if reqs[target].mode == Direct || p.id == target {
        return;
      }
      if flagged {
        reqs := reqs[target := reqs[target].WithGoodProxy(p)];
      }
    }

    method UpdatePotentialConnectionProxy(p: PeerId, flagged: bool)
      modifies this
      ensures Did(if flagged then PeerAlive(old(View()), p) else Quiet(old(View())))
    {
      if !flagged {
        return;
      }
      ghost var was := reqs;
      var rest := reqs.Keys;
      while rest != {}
        invariant rest <= was.Keys && reqs == HalfPinged(was, rest, p)
        invariant unchanged(`allowed, `autoProxy, `relay, `conns, `sent, `calls)
        decreases |rest|
      {
        var t :| t in rest;
        HalfPingedNext(was, rest, t, p);
        reqs := reqs[t := reqs[t].WithPing(p)];
        rest := rest - {t};
      }
      assert reqs == map t | t in was :: was[t].WithPing(p);
    }

    // ---------------------------------------------------------- the tick

    method TickConnections(now: int) returns (ghost reqOrder: seq<NodeId>, ghost connOrder: seq<Tuple>)
      modifies this
      ensures Enumerates(reqOrder, old(reqs).Keys)
      ensures Enumerates(connOrder, TickRequests(old(View()), reqOrder, now).node.conns.Keys)
      ensures Did(Step(old(View()), Clock(reqOrder, connOrder), now))
    {
      reqOrder := IterateConnectionRequests(now);
      ghost var mid := TickRequests(old(View()), reqOrder, now);
      connOrder := IterateConnections(now);
      assert View() == mid.node.(conns := TickedConns(mid.node.conns, now));
    }

    method IterateConnectionRequests(now: int) returns (ghost order: seq<NodeId>)
      modifies this
      ensures Enumerates(order, old(reqs).Keys)
      ensures Did(TickRequests(old(View()), order, now))
    {
      order := [];
      var rest := reqs.Keys;
      var eraseList: set<NodeId> := {};
      ghost var n := View();
      ghost var out := Quiet(n);
      assert reqs - eraseList == reqs;
      while rest != {}
        invariant rest <= reqs.Keys && rest <= n.reqs.Keys && rest !! eraseList
        invariant Enumerates(order, n.reqs.Keys - rest)
        invariant out == TickRequests(n, order, now)
        invariant View().(reqs := reqs - eraseList) == out.node
        invariant sent == old(sent) + out.sends && calls == old(calls) + out.cbs
        decreases |rest|
      {
        var t :| t in rest;
        TickRequestsNext(n, order, t, now);
        EnumeratesNext(order, n.reqs.Keys, rest, t);
        ghost var next := TickRequest(out.node, t, now);
        Associates(old(sent), out.sends, next.sends);
        Associates(old(calls), out.cbs, next.cbs);
        eraseList := VisitRequest(t, eraseList, out.node, now);
        out := Then(out, next);
        rest := rest - {t};
        order := order + [t];
      }
      assert n.reqs.Keys - rest == n.reqs.Keys;
      reqs := reqs - eraseList;
    }

    /** One round of the loop in iterateConnectionRequests: a DONE request is
        reported and marked, and goes when the loop is over. */
    method VisitRequest(t: NodeId, eraseList: set<NodeId>, ghost before: Node, now: int)
      returns (eraseList': set<NodeId>)
      requires t in reqs && t !in eraseList && before == View().(reqs := reqs - eraseList)
      modifies this
      ensures eraseList' == eraseList || eraseList' == eraseList + {t}
      ensures reqs.Keys == old(reqs).Keys
      ensures var out := TickRequest(before, t, now);
              && View().(reqs := reqs - eraseList') == out.node
              && sent == old(sent) + out.sends && calls == old(calls) + out.cbs
    {
      WithoutErased(View(), t, eraseList, now);
      if reqs[t].state == Done {
        CallbackConnect(Callback(NOBODY, NOBODY, PeerId(reqs[t].target, NO_ADDR), reqs[t].mode, StartPoint, 0,
                                 CbRequest, reqs[t].err));
        return eraseList + {t};
      }
      IterateRequest(t, now);
      return eraseList;
    }

    /** What iterateConnectionRequests does to a request that is not yet DONE. */
    method IterateRequest(t: NodeId, now: int)
      requires t in reqs && reqs[t].state != Done
      modifies this
      ensures Did(TickRequest(old(View()), t, now))
    {
      var r := reqs[t];
      if r.state == Ready {
        var ok := StartConnectionRequest(t, now);
        if !ok {
          reqs := reqs[t := reqs[t].(err := StartError(OutOfProxy), state := Done, stateTS := now)];
        }
      } else if r.state == Paused {
        if now > r.pauseTS {
          if |r.good| == 0 {
            reqs := reqs[t := r.(err := StartError(OutOfProxy), state := Done, stateTS := now)];
          } else if r.recycled > |r.good| * MAX_NUM_RETRIES {
            reqs := reqs[t := r.(err := StartError(TooManyRetry), state := Done, stateTS := now)];
          } else {
            reqs := reqs[t := r.(state := Ready, stateTS := now)];
          }
        }
      } else if r.state == InProgress {
        if now - r.stateTS > TIMEOUT_INPROGRESS {
          reqs := reqs[t := r.(state := Paused, stateTS := now, pauseTS := now + PAUSE_SHORT_PERIOD)];
        }
      } else {
        if now - r.stateTS > TIMEOUT_CONNECT {
          reqs := reqs[t := r.(err := StartError(Protocol), state := Done, stateTS := now)];
        }
      }
    }

    /** startConnectionAttempt(req): on failure the front proxy is gone all the same. */
    method StartConnectionRequest(t: NodeId, now: int) returns (ok: bool)
      requires t in reqs
      modifies this
      ensures ok ==> Did(StartRequest(old(View()), t, now))
      ensures !ok ==> && t in reqs
                      && StartRequest(old(View()), t, now) ==
                         Quiet(View().(reqs := reqs[t := reqs[t].Killed(StartError(OutOfProxy), now)]))
                      && sent == old(sent) && calls == old(calls)
    {
      var r := reqs[t];
      if |r.good| < 1 {
        return false;
      }
      var remaining := r.delay - (now - r.requestTS);
      var delay := 0;
      if remaining > 0 {
        delay := remaining;
      }
      var front := r.good[0];
      r := r.(good := r.good[1..], current := front.id, currentSource := front.source,
              state := InProgress, stateTS := now);
      reqs := reqs[t := r];
      UpdatedTwice(old(reqs), t, r, r.Killed(StartError(OutOfProxy), now));
      if (r.mode == Direct) != (r.target == front.id.id) {
        return false;
      }
      ok := StartConnectionAttempt(front.id, PeerId(own, r.localAddr), PeerId(r.target, NO_ADDR), r.mode, delay, now);
    }

    method StartConnectionAttempt(proxy: PeerId, srcAddr: PeerId, destAddr: PeerId, mode: Mode, delay: int, now: int)
      returns (ok: bool)
      modifies this
      ensures var attempt := StartAttempt(old(View()), proxy, srcAddr, destAddr, mode, delay, now);
              && ok == attempt.Some?
              && Did(if ok then attempt.value else Quiet(old(View())))
    {
      if mode !in allowed {
        return false;
      }
      var key := KeyBySender(own, proxy.id, srcAddr.id, destAddr.id);
      if key in conns {
        return false;
      }
      var opposite := FindSimilarConnection(destAddr.id, srcAddr.id);
      if opposite {
        return false;
      }
      CallbackConnect(Callback(srcAddr, proxy, destAddr, mode, StartPoint, 0, CbRequest, OKAY));
      var c;
      if mode == Direct {
        c := SetupDirect(proxy, srcAddr, now);
      } else {
        c := SetupProxied(proxy, srcAddr, destAddr, mode, delay, now);
      }
      conns := conns[key := c];
      SendMsg(c.proxy, MsgRequest, c.srcAddr, c.destAddr, c.mode, c.maxDelay, OKAY);
      return true;
    }

    method IterateConnections(now: int) returns (ghost order: seq<Tuple>)
      modifies this
      ensures Enumerates(order, old(conns).Keys)
      ensures Did(TickOutput(old(View()), order, now).(
                    node := old(View()).(conns := TickedConns(old(conns), now))))
    {
      var eraseList;
      ghost var n := View();
      order, eraseList := VisitConnections(now);
      TickOutputKeeps(n, order, now);
      HalfTickedAll(n.conns, conns, eraseList, now);
      conns := conns - eraseList;
    }

    /** The loop of iterateConnections; what is to be erased is left to its caller. */
    method VisitConnections(now: int) returns (ghost order: seq<Tuple>, eraseList: set<Tuple>)
      modifies this
      ensures Enumerates(order, old(conns).Keys)
      ensures HalfTicked(old(conns), conns, {}, eraseList, now)
      ensures sent == old(sent) + TickOutput(old(View()), order, now).sends
      ensures calls == old(calls) + TickOutput(old(View()), order, now).cbs
      ensures unchanged(`allowed, `autoProxy, `relay, `reqs)
    {
      order, eraseList := [], {};
      var rest := conns.Keys;
      ghost var n := View();
      while rest != {}
        invariant HalfTicked(n.conns, conns, rest, eraseList, now)
        invariant Enumerates(order, n.conns.Keys - rest)
        invariant sent == old(sent) + TickOutput(n, order, now).sends
        invariant calls == old(calls) + TickOutput(n, order, now).cbs
        invariant unchanged(`allowed, `autoProxy, `relay, `reqs)
        decreases |rest|
      {
        var k :| k in rest;
        ghost var out := TickOutput(n, order, now);
        TickOutputNext(n, order, k, now);
        EnumeratesNext(order, n.conns.Keys, rest, k);
        ReportsDependOnConfig(n, View(), n.conns[k], now);
        Associates(old(sent), out.sends, StartSends(n.conns[k], now));
        Associates(old(calls), out.cbs, TickReports(n, n.conns[k], now));
        HalfTickedNext(n.conns, conns, rest, eraseList, k, now);
        var dropped := IterateConnection(k, now);
        if dropped {
          eraseList := eraseList + {k};
        }
        rest := rest - {k};
        order := order + [k];
      }
      assert n.conns.Keys - rest == n.conns.Keys;
    }

    /** One round of the loop in iterateConnections; true when the record is to be erased. */
    method IterateConnection(k: Tuple, now: int) returns (drop: bool)
      requires k in conns
      modifies this
      ensures drop == old(conns)[k].Dropped(now)
      ensures conns == old(conns)[k := if drop then old(conns)[k] else old(conns)[k].Ticked(now)]
      ensures sent == old(sent) + StartSends(old(conns)[k], now)
      ensures calls == old(calls) + TickReports(old(View()), old(conns)[k], now)
      ensures unchanged(`allowed, `autoProxy, `relay, `reqs)
    {
      var c := conns[k];
      assert conns[k := c] == conns;
      if now - c.lastEvent > MAX_TIMEOUT {
        return true;
      }
      if c.state == WaitingAck && now - c.lastStart > START_RETRY_PERIOD {
        if c.retry > START_MAX_RETRY {
          if c.mode != Proxy || !autoProxy {
            CallbackConnect(CallbackOf(c, CbFailed, ErrorCode(OKAY, Timeout, c.point)));
          }
          return true;
        }
        conns := conns[k := c.(lastStart := now, retry := c.retry + 1)];
        var delayOrBandwidth := c.maxDelay - (now - c.startTS);
        if delayOrBandwidth < 0 {
          delayOrBandwidth := 0;
        }
        if c.mode == Relay {
          delayOrBandwidth := c.bandwidth;
        }
        if !c.srcAck {
          SendMsg(c.src, MsgStart, c.srcAddr, c.destAddr, c.mode, delayOrBandwidth, OKAY);
        }
        if !c.destAck {
          SendMsg(c.dest, MsgStart, c.srcAddr, c.destAddr, c.mode, delayOrBandwidth, OKAY);
        }
      }
      return false;
    }

    // ---------------------------------------------------------- authorisation

    method AuthConnectionOk(src: PeerId, proxy: PeerId, dest: PeerId, mode: Mode, loc: Point,
                            bandwidth: int, delay: int, now: int)
      modifies this
      ensures Did(AuthOk(old(View()), src, proxy, dest, mode, loc, bandwidth, delay, now))
    {
      var key := Tuple(src.id, proxy.id, dest.id);
      if key !in conns {
        return;
      }
      var c := conns[key];
      if mode == Direct {
        if c.state == WaitingAuth {
          conns := conns[key := c.AuthorisedDirect(dest, now)];
        }
        return;
      }
      if loc == EndPoint {
        if c.state == WaitingAuth {
          c := c.AuthorisedAsEnd(dest, delay, now);
          conns := conns[key := c];
          SendMsg(c.proxy, MsgReply, c.srcAddr, c.destAddr, c.mode, c.maxDelay, OKAY);
          return;
        }
      }
      if c.state == WaitingAuth {
        c := c.AuthorisedAsProxy(bandwidth, now);
        conns := conns[key := c];
        SendMsg(c.dest, MsgRequest, c.srcAddr, c.destAddr, c.mode, 0, OKAY);
      }
    }

    method AuthConnectionNo(src: PeerId, proxy: PeerId, dest: PeerId, mode: Mode, loc: Point, err: Code)
      modifies this
      ensures Did(AuthNo(old(View()), src, proxy, dest, mode, loc, err))
    {
      var key := Tuple(src.id, proxy.id, dest.id);
      if key !in conns {
        return;
      }
      var c := conns[key];
      var status := ErrorCode(err, AuthDenied, c.point);
      if mode == Direct {
        SendMsg(c.src, MsgReply, c.srcAddr, c.destAddr, mode, 0, status);
      } else if loc == EndPoint {
        SendMsg(c.proxy, MsgReply, c.srcAddr, c.destAddr, mode, 0, status);
      } else {
        SendMsg(c.src, MsgReply, c.srcAddr, c.destAddr, mode, 0, status);
      }
      conns := conns - {key};
    }

    // ---------------------------------------------------------- messages

    method RecvedConnectionRequest(m: Msg, found: Option<PeerId>, now: int) returns (ok: bool)
      modifies this
      ensures Did(RecvRequest(old(View()), m, found, now))
      ensures ok == (m.mode in old(allowed) && KeyOf(old(View()), m) !in old(conns)
                     && !HasRoute(old(conns), m.dest.id, m.src.id))
    {
      var pos := PositionOf(own, m.src.id, m.dest.id);
      if m.mode !in allowed {
        SendMsg(m.from, MsgReply, m.src, m.dest, m.mode, 0, ErrorCode(OKAY, Unsupported, pos));
        return false;
      }
      var key := KeyBySender(own, m.from.id, m.src.id, m.dest.id);
      if key in conns {
        SendMsg(m.from, MsgReply, m.src, m.dest, m.mode, 0, ErrorCode(OKAY, Duplicate, conns[key].point));
        return false;
      }
      var opposite := FindSimilarConnection(m.dest.id, m.src.id);
      if opposite {
        SendMsg(m.from, MsgReply, m.src, m.dest, m.mode, 0, ErrorCode(OKAY, Duplicate, pos));
        return false;
      }
      if m.mode == Direct {
        var c := RequestedDirect(m.from, m.src, m.dest, now);
        conns := conns[key := c];
        CallbackConnect(CallbackOf(c, CbAuth, OKAY));
      } else if m.src.id == m.from.id {
        if found.Some? {
          var c := RequestedAsProxy(m.from, m.src, own, found.value, m.mode, m.param, now);
          conns := conns[key := c];
          if autoProxy && m.mode == Proxy {
            AuthConnectionOk(c.src, c.proxy, c.dest, c.mode, c.point, 0, 0, now);
          } else {
            CallbackConnect(CallbackOf(c, CbAuth, OKAY));
          }
        } else {
          SendMsg(m.from, MsgReply, m.src, m.dest, m.mode, 0, ErrorCode(OKAY, NoAddress, MidPoint));
          if relay == RelayServer {
            CallbackConnect(Callback(m.src, PeerId(own, NO_ADDR), m.dest, m.mode, MidPoint, 0, CbAuth,
                                     Code(NoAddress, NoSource, 0)));
          }
        }
      } else {
        var c := RequestedAsEnd(m.from, m.src, m.dest, m.mode, now);
        conns := conns[key := c];
        CallbackConnect(CallbackOf(c, CbAuth, OKAY));
      }
      return true;
    }

    method CallbackConnectRequest(cb: Callback, now: int)
      modifies this
      ensures Did(NotifyRequest(old(View()), cb, now))
    {
      if cb.point != StartPoint {
        if cb.kind == CbStart && cb.point == EndPoint {
          if cb.src.id in reqs {
            reqs := reqs[cb.src.id := reqs[cb.src.id].(state := ExtConnect, stateTS := now)];
          }
          CallbackConnect(cb);
        }
        return;
      }
      var t := cb.dest.id;
      if t !in reqs {
        return;
      }
      var r := reqs[t];
      match cb.kind {
        case CbFailed =>
          var verdict := Judge(cb.err, cb.mode);
          if verdict == Fatal {
            r := r.(state := Done);
          } else {
            var entry := ProxyEntry(r.current, r.currentSource, cb.err);
            if verdict == Recycle {
              r := r.(good := r.good + [entry], recycled := r.recycled + 1);
            } else {
              r := r.(tried := r.tried + [entry]);
            }
            r := r.(state := Paused, pauseTS := now + PAUSE_SHORT_PERIOD);
          }
          reqs := reqs[t := r.(stateTS := now, err := cb.err)];
          CallbackConnect(cb);
        case CbStart =>
          reqs := reqs[t := r.(state := ExtConnect, stateTS := now)];
          CallbackConnect(cb);
        case _ =>
      }
    }

    method RecvedConnectionReply(m: Msg, now: int) returns (ok: bool)
      modifies this
      ensures Did(RecvReply(old(View()), m, now))
      ensures ok == var k := KeyOf(old(View()), m);
                    && m.status == OKAY && k in old(conns)
                    && old(conns)[k].point == MidPoint && old(conns)[k].state == WaitingReply
    {
      var key := KeyBySender(own, m.from.id, m.src.id, m.dest.id);
      if key !in conns {
        return false;
      }
      var c := conns[key];
      if c.point != MidPoint {
        var errCode := ErrorCode(OKAY, Protocol, c.point);
        if m.status != OKAY && c.point == StartPoint {
          errCode := m.status;
        }
        conns := conns - {key};
        if c.point == StartPoint {
          CallbackConnectRequest(CallbackOf(c, CbFailed, errCode), now);
        } else {
          CallbackConnect(CallbackOf(c, CbFailed, errCode));
        }
        return false;
      }
      if m.status == OKAY && c.state == WaitingReply {
        c := c.UpgradedToFinish(m.dest, m.param, now);
        conns := conns[key := c];
        if c.mode != Proxy || !autoProxy {
          CallbackConnect(CallbackOf(c, CbPending, OKAY));
        }
        return true;
      }
      var errCode := m.status;
      if errCode == OKAY {
        errCode := ErrorCode(OKAY, Protocol, c.point);
      }
      if c.mode != Proxy || !autoProxy {
        CallbackConnect(CallbackOf(c, CbFailed, errCode));
      }
      SendMsg(c.src, MsgReply, c.srcAddr, c.destAddr, m.mode, 0, errCode);
      conns := conns - {key};
      return false;
    }

    method RecvedConnectionStart(m: Msg, now: int) returns (ok: bool)
      modifies this
      ensures Did(RecvStart(old(View()), m, now))
      ensures ok == var k := KeyOf(old(View()), m); k in old(conns) && old(conns)[k].state in {WaitingStart, Completed}
    {
      var key := KeyBySender(own, m.from.id, m.src.id, m.dest.id);
      if key !in conns {
        return false;
      }
      var c := conns[key];
      if c.state != WaitingStart && c.state != Completed {
        return false;
      }
      SendMsg(m.from, MsgAck, c.src, c.dest, m.mode, 0, OKAY);
      if c.state != Completed {
        var bandwidth, delay := 0, 0;
        if c.mode == Relay {
          bandwidth := m.param;
        } else {
          delay := m.param;
        }
        c := c.WithCompletion(m.src, m.dest, bandwidth, delay, now);
        conns := conns[key := c];
        CallbackConnectRequest(Callback(c.srcAddr, c.proxy, c.destAddr, c.mode, c.point, m.param, CbStart, OKAY), now);
      }
      return true;
    }

    method RecvedConnectionAck(m: Msg, now: int) returns (ok: bool)
      modifies this
      ensures Did(RecvAck(old(View()), m, now))
      ensures ok == var k := KeyOf(old(View()), m);
                    k in old(conns) && old(conns)[k].point != StartPoint && old(conns)[k].state == WaitingAck
    {
      var key := KeyBySender(own, m.from.id, m.src.id, m.dest.id);
      if key !in conns {
        return false;
      }
      var c := conns[key];
      if c.point == StartPoint || c.state != WaitingAck {
        return false;
      }
      if m.from.id == m.src.id {
        c := c.(srcAck := true);
      } else if m.from.id == m.dest.id {
        c := c.(destAck := true);
      }
      conns := conns[key := c];
      if c.srcAck && c.destAck {
        assert conns - {key} == old(conns) - {key};
        conns := conns - {key};
        assert View() == old(View()).(conns := old(conns) - {key});
        if c.mode == Direct {
          CallbackConnectRequest(Callback(c.srcAddr, c.proxy, c.dest, c.mode, c.point, 0, CbStart, OKAY), now);
        } else if c.mode != Proxy || !autoProxy {
          CallbackConnect(CallbackOf(c, CbProxy, OKAY));
        }
      }
      return true;
    }
  }

  lemma UpdatedTwice<K, V>(m: map<K, V>, k: K, v: V, v': V)
    ensures m[k := v][k := v'] == m[k := v']
  {
  }

  lemma Associates<T>(a: seq<T>, b: seq<T>, c: seq<T>)
    ensures a + b + c == a + (b + c)
  {
  }

  lemma TickRequestsNext(n: Node, order: seq<NodeId>, t: NodeId, now: int)
    ensures var out := TickRequests(n, order, now);
            TickRequests(n, order + [t], now) == Then(out, TickRequest(out.node, t, now))
  {
    assert (order + [t])[..|order|] == order;
  }

  lemma EnumeratesNext<T(!new)>(order: seq<T>, all: set<T>, rest: set<T>, x: T)
    requires Enumerates(order, all - rest) && rest <= all && x in rest
    ensures Enumerates(order + [x], all - (rest - {x}))
  {
    assert forall y :: y in order + [x] <==> y in order || y == x;
  }

  /** The loop of updatePotentialConnectionProxy half way: rest still to come. */
  ghost function HalfPinged(was: map<NodeId, Request>, rest: set<NodeId>, p: PeerId): map<NodeId, Request> {
    map t | t in was :: if t in rest then was[t] else was[t].WithPing(p)
  }

  lemma HalfPingedNext(was: map<NodeId, Request>, rest: set<NodeId>, t: NodeId, p: PeerId)
    requires t in rest && t in was
    ensures HalfPinged(was, rest, p)[t] == was[t]
    ensures HalfPinged(was, rest, p)[t := was[t].WithPing(p)] == HalfPinged(was, rest - {t}, p)
  {
  }

  /** The loop of iterateConnections half way: rest still to come, erased marked. */
  ghost predicate HalfTicked(before: map<Tuple, Connection>, conns: map<Tuple, Connection>, rest: set<Tuple>,
                             erased: set<Tuple>, now: int)
  {
    && conns.Keys == before.Keys && rest <= conns.Keys
    && forall k :: k in conns ==>
         && (k in erased <==> k !in rest && before[k].Dropped(now))
         && conns[k] == if k in rest || k in erased then before[k] else before[k].Ticked(now)
  }

  lemma HalfTickedNext(before: map<Tuple, Connection>, conns: map<Tuple, Connection>, rest: set<Tuple>,
                       erased: set<Tuple>, k: Tuple, now: int)
    requires HalfTicked(before, conns, rest, erased, now) && k in rest
    ensures conns[k] == before[k]
    ensures if before[k].Dropped(now) then HalfTicked(before, conns[k := before[k]], rest - {k}, erased + {k}, now)
            else HalfTicked(before, conns[k := before[k].Ticked(now)], rest - {k}, erased, now)
  {
  }

  lemma HalfTickedAll(before: map<Tuple, Connection>, conns: map<Tuple, Connection>, erased: set<Tuple>, now: int)
    requires HalfTicked(before, conns, {}, erased, now)
    ensures conns - erased == TickedConns(before, now)
  {
  }

  lemma TickOutputNext(n: Node, order: seq<Tuple>, k: Tuple, now: int)
    requires k in n.conns
    ensures TickOutput(n, order + [k], now) ==
            Then(TickOutput(n, order, now), Out(n, StartSends(n.conns[k], now), TickReports(n, n.conns[k], now)))
  {
    assert (order + [k])[..|order|] == order;
  }

  lemma ReportsDependOnConfig(n: Node, n': Node, c: Connection, now: int)
    requires n.autoProxy == n'.autoProxy
    ensures TickReports(n, c, now) == TickReports(n', c, now)
  {
  }

  lemma UpdateThenErase<K, V>(m: map<K, V>, k: K, v: V, erased: set<K>)
    requires k !in erased
    ensures (m - erased)[k := v] == m[k := v] - erased
  {
  }

  /** A request that is marked for erasure does not affect the others. */
  lemma WithoutErased(n: Node, t: NodeId, erased: set<NodeId>, now: int)
    requires t in n.reqs && t !in erased
    ensures var rest := n.(reqs := n.reqs - erased);
            if n.reqs[t].state == Done then
              TickRequest(rest, t, now).node == n.(reqs := n.reqs - (erased + {t}))
            else
              && t in TickRequest(n, t, now).node.reqs
              && TickRequest(n, t, now).node.reqs.Keys == n.reqs.Keys
              && TickRequest(rest, t, now) ==
                 var out := TickRequest(n, t, now);
                 out.(node := out.node.(reqs := out.node.reqs - erased))
  {
    var rest := n.(reqs := n.reqs - erased);
    if n.reqs[t].state == Done {
      assert n.reqs - erased - {t} == n.reqs - (erased + {t});
    } else {
      var r := TickRequest(n, t, now).node.reqs[t];
      assert TickRequest(n, t, now).node.reqs == n.reqs[t := r];
      assert n.reqs[t := n.reqs[t]] == n.reqs;
      UpdateThenErase(n.reqs, t, r, erased);
      UpdateThenErase(n.reqs, t, n.reqs[t], erased);
      assert rest.reqs[t := n.reqs[t]] == rest.reqs;
    }
  }
}
