/**
 Which peers a request has to try, in which order, and how peers that turn up
 later join them.
 */
module ConnectCandidates {
  import opened ConnectCodes
  import opened ConnectNode
  import opened ConnectSteps

  /** The ids of one source, in order. */
  function From(es: seq<ProxyEntry>, source: ProxySource): seq<PeerId> {
    if es == [] then []
    else
      var last := es[|es| - 1];
      From(es[..|es| - 1], source) + if last.source == source then [last.id] else []
  }

  lemma {:induction false} FromAppend(a: seq<ProxyEntry>, b: seq<ProxyEntry>, source: ProxySource)
    ensures From(a + b, source) == From(a, source) + From(b, source)
  {
    if b == [] {
      assert a + b == a;
    } else {
      FromAppend(a, b[..|b| - 1], source);
      assert (a + b)[..|a + b| - 1] == a + b[..|b| - 1];
    }
  }

  lemma {:induction false} FromEntries(ps: seq<PeerId>, of: ProxySource, source: ProxySource)
    ensures From(Entries(ps, of), source) == if of == source then ps else []
  {
    var es := Entries(ps, of);
    if ps != [] {
      FromEntries(ps[..|ps| - 1], of, source);
      assert es[..|es| - 1] == Entries(ps[..|ps| - 1], of);
      assert ps == ps[..|ps| - 1] + [ps[|ps| - 1]];
    }
  }

  /** How early candidates of a source are tried: PROXY wants proxies on the way to the
      target first, RELAY wants them last; relay servers come before friends. */
  function Turn(mode: Mode, source: ProxySource): nat {
    match source
    case QueryProxy => if mode == Proxy then 0 else 3
    case SpaceServer => 1
    case SpaceFriend => 2
    case _ => 4
  }

  ghost predicate InTurn(es: seq<ProxyEntry>, mode: Mode) {
    forall i, j :: 0 <= i < j < |es| ==> Turn(mode, es[i].source) <= Turn(mode, es[j].source)
  }

  /** The peers that pass the flag check, or those that do not, each as often as listed and in their order. */
  lemma {:induction false} FlaggedMeans(ps: seq<(PeerId, bool)>, more: seq<(PeerId, bool)>, p: PeerId, flag: bool)
    ensures Flagged(ps + more, flag) == Flagged(ps, flag) + Flagged(more, flag)
    ensures Flagged([(p, flag)], flag) == [p] && Flagged([(p, !flag)], flag) == [] && Flagged([], flag) == []
  {
    assert [(p, flag)][..0] == [] && [(p, !flag)][..0] == [];
    if more == [] {
      assert ps + more == ps;
    } else {
      FlaggedMeans(ps, more[..|more| - 1], p, flag);
      assert (ps + more)[..|ps + more| - 1] == ps + more[..|more| - 1];
    }
  }

  /** A request is new unless there is one, its mode is not allowed, or it is for the node itself. */
  lemma AskMakesRequest(n: Node, i: Input, now: int)
    requires i.Ask?
    ensures var out := Step(n, i, now);
            && out.sends == [] && out.cbs == [] && out.node == n.(reqs := out.node.reqs)
            && if i.mode !in n.allowed || i.target == n.own || i.target in n.reqs then out.node == n
               else
                 && out.node.reqs == n.reqs[i.target := out.node.reqs[i.target]]
                 && var r := out.node.reqs[i.target];
                    && r.target == i.target && r.localAddr == i.localAddr && r.mode == i.mode
                    && r.delay == (if i.mode == Direct then 0 else i.delay) && r.requestTS == now && r.stateTS == now
                    && r.err == OKAY && r.recycled == 0 && r.current == NOBODY && r.currentSource == UnknownSource
                    && r.tried == [] && (i.mode == Direct ==> r.state == Ready && r.potential == [])
  {
  }

  /** A proxied request has all its candidates, in the order of their turns and each
      source in its own order; with fewer than five it keeps the unflagged peers in
      mind, and with fewer than three it waits ten seconds for more. */
  lemma ProxiedRequestHas(n: Node, i: Input, now: int)
    requires i.Ask? && i.mode != Direct && i.mode in n.allowed && i.target != n.own && i.target !in n.reqs
    ensures i.target in Step(n, i, now).node.reqs
    ensures var r, cs := Step(n, i, now).node.reqs[i.target], i.cs;
            && InTurn(r.good, i.mode)
            && From(r.good, QueryProxy) == cs.proxies + Flagged(cs.potentials, true)
            && From(r.good, SpaceServer) == (if n.relay == RelayOff then [] else cs.relays)
            && From(r.good, SpaceFriend) == cs.friends
            && (forall e :: e in r.good ==> e.err == OKAY && e.source in {QueryProxy, SpaceServer, SpaceFriend})
            && r.potential == (if |r.good| < 5 then Flagged(cs.potentials, false) else [])
            && (if |r.good| < 3 then r.state == Paused && r.pauseTS == now + 10 else r.state == Ready)
  {
    var cs := i.cs;
    var r := ProxyRequest(i.target, i.localAddr, i.mode, i.delay, n.relay, cs, now);
    var known := cs.proxies + Flagged(cs.potentials, true);
    var servers := if n.relay == RelayOff then [] else cs.relays;
    AllFrom(i.mode, known, servers, cs.friends);
    assert Step(n, i, now).node.reqs[i.target] == r;
    assert r.good ==
           AllOf(i.mode, Entries(known, QueryProxy), Entries(servers, SpaceServer), Entries(cs.friends, SpaceFriend));
  }

  lemma AllFrom(mode: Mode, known: seq<PeerId>, servers: seq<PeerId>, friends: seq<PeerId>)
    requires mode != Direct
    ensures var k, s, f := Entries(known, QueryProxy), Entries(servers, SpaceServer), Entries(friends, SpaceFriend);
            var es := AllOf(mode, k, s, f);
            && InTurn(es, mode)
            && From(es, QueryProxy) == known && From(es, SpaceServer) == servers && From(es, SpaceFriend) == friends
            && forall e :: e in es ==> e.err == OKAY && e.source in {QueryProxy, SpaceServer, SpaceFriend}
  {
    var k, s, f := Entries(known, QueryProxy), Entries(servers, SpaceServer), Entries(friends, SpaceFriend);
    KnownAre(mode, k, s, f);
    ServersAre(mode, k, s, f);
    FriendsAre(mode, k, s, f);
    FromEntries(known, QueryProxy, QueryProxy);
    FromEntries(servers, SpaceServer, SpaceServer);
    FromEntries(friends, SpaceFriend, SpaceFriend);
    InOrder(mode, k, s, f);
  }

  function AllOf(mode: Mode, known: seq<ProxyEntry>, servers: seq<ProxyEntry>, friends: seq<ProxyEntry>)
    : seq<ProxyEntry>
  {
    (if mode == Proxy then known else []) + servers + friends + (if mode == Relay then known else [])
  }

  lemma InOrder(mode: Mode, known: seq<ProxyEntry>, servers: seq<ProxyEntry>, friends: seq<ProxyEntry>)
    requires mode != Direct && forall e :: e in known ==> e.source == QueryProxy && e.err == OKAY
    requires forall e :: e in servers ==> e.source == SpaceServer && e.err == OKAY
    requires forall e :: e in friends ==> e.source == SpaceFriend && e.err == OKAY
    ensures InTurn(AllOf(mode, known, servers, friends), mode)
    ensures forall e :: e in AllOf(mode, known, servers, friends) ==>
              e.err == OKAY && e.source in {QueryProxy, SpaceServer, SpaceFriend}
  {
    var es := AllOf(mode, known, servers, friends);
    var k := if mode == Proxy then |known| else 0;
    forall i | 0 <= i < |es|
      ensures Turn(mode, es[i].source) == if i < k then 0 else if i < k + |servers| then 1
                                          else if i < k + |servers| + |friends| then 2 else 3
      ensures es[i].err == OKAY && es[i].source in {QueryProxy, SpaceServer, SpaceFriend}
    {
      assert es[i] == if i < k then known[i] else if i < k + |servers| then servers[i - k]
                      else if i < k + |servers| + |friends| then friends[i - k - |servers|]
                      else known[i - k - |servers| - |friends|];
    }
  }

  lemma {:induction false} FromNone(es: seq<ProxyEntry>, source: ProxySource)
    requires forall e :: e in es ==> e.source != source
    ensures From(es, source) == []
  {
    if es != [] {
      FromNone(es[..|es| - 1], source);
    }
  }

  lemma FromFour(a: seq<ProxyEntry>, b: seq<ProxyEntry>, c: seq<ProxyEntry>, d: seq<ProxyEntry>, source: ProxySource)
    ensures From(a + b + c + d, source) == From(a, source) + From(b, source) + From(c, source) + From(d, source)
  {
    FromAppend(a, b, source);
    FromAppend(a + b, c, source);
    FromAppend(a + b + c, d, source);
  }

  ghost predicate AllOfSource(es: seq<ProxyEntry>, source: ProxySource) { forall e :: e in es ==> e.source == source }

  lemma Alone<T>(x: seq<T>)
    ensures x + [] + [] + [] == x && [] + x + [] + [] == x && [] + [] + x + [] == x && [] + [] + [] + x == x
  {
  }

  lemma KnownAre(mode: Mode, known: seq<ProxyEntry>, servers: seq<ProxyEntry>, friends: seq<ProxyEntry>)
    requires mode != Direct && AllOfSource(servers, SpaceServer) && AllOfSource(friends, SpaceFriend)
    ensures From(AllOf(mode, known, servers, friends), QueryProxy) == From(known, QueryProxy)
  {
    var first, last := if mode == Proxy then known else [], if mode == Relay then known else [];
    FromFour(first, servers, friends, last, QueryProxy);
    FromNone(servers, QueryProxy);
    FromNone(friends, QueryProxy);
    Alone(From(known, QueryProxy));
  }

  lemma ServersAre(mode: Mode, known: seq<ProxyEntry>, servers: seq<ProxyEntry>, friends: seq<ProxyEntry>)
    requires mode != Direct && AllOfSource(known, QueryProxy) && AllOfSource(friends, SpaceFriend)
    ensures From(AllOf(mode, known, servers, friends), SpaceServer) == From(servers, SpaceServer)
  {
    var first, last := if mode == Proxy then known else [], if mode == Relay then known else [];
    FromFour(first, servers, friends, last, SpaceServer);
    FromNone(first, SpaceServer);
    FromNone(friends, SpaceServer);
    FromNone(last, SpaceServer);
    Alone(From(servers, SpaceServer));
  }

  lemma FriendsAre(mode: Mode, known: seq<ProxyEntry>, servers: seq<ProxyEntry>, friends: seq<ProxyEntry>)
    requires mode != Direct && AllOfSource(known, QueryProxy) && AllOfSource(servers, SpaceServer)
    ensures From(AllOf(mode, known, servers, friends), SpaceFriend) == From(friends, SpaceFriend)
  {
    var first, last := if mode == Proxy then known else [], if mode == Relay then known else [];
    FromFour(first, servers, friends, last, SpaceFriend);
    FromNone(first, SpaceFriend);
    FromNone(servers, SpaceFriend);
    FromNone(last, SpaceFriend);
    Alone(From(friends, SpaceFriend));
  }

  // ------------------------------------------------------------ direct requests

  /** Where a peer is first listed. */
  function FirstAt(ps: seq<PeerId>, p: PeerId): nat { if ps == [] || ps[0] == p then 0 else 1 + FirstAt(ps[1..], p) }

  /** Each listed peer has exactly one entry. */
  ghost predicate OnceEach(es: seq<ProxyEntry>, ps: seq<PeerId>) {
    && (forall i, j :: 0 <= i < j < |es| ==> es[i].id != es[j].id)
    && (forall p :: p in ps <==> exists e :: e in es && e.id == p)
  }

  lemma {:induction false} MergedMeans(good: seq<ProxyEntry>, done: seq<PeerId>, matches: seq<PeerId>)
    requires OnceEach(good, done) && forall e :: e in good ==> e.source == SpaceVersion && e.err == OKAY
    ensures OnceEach(Merged(good, matches), done + matches) && good <= Merged(good, matches)
    ensures forall e :: e in Merged(good, matches) ==> e.source == SpaceVersion && e.err == OKAY
    decreases |matches|
  {
    if matches != [] {
      var p, next := matches[0], matches[1..];
      assert done + matches == done + [p] + next;
      if exists e :: e in good && e.id == p {
        assert OnceEach(good, done + [p]);
        MergedMeans(good, done + [p], next);
      } else {
        var good' := good + [ProxyEntry(p, SpaceVersion, OKAY)];
        OneMore(good, done, p);
        MergedMeans(good', done + [p], next);
      }
    } else {
      assert done + matches == done;
    }
  }

  lemma OneMore(good: seq<ProxyEntry>, done: seq<PeerId>, p: PeerId)
    requires OnceEach(good, done) && !exists e :: e in good && e.id == p
    ensures OnceEach(good + [ProxyEntry(p, SpaceVersion, OKAY)], done + [p])
  {
    var last := ProxyEntry(p, SpaceVersion, OKAY);
    var good' := good + [last];
    assert last in good';
    forall q
      ensures q in done + [p] <==> exists e :: e in good' && e.id == q
    {
      if q in done {
        var e :| e in good && e.id == q;
        assert e in good';
      }
    }
  }

  /** A direct request has the query's results as they are, and if there are none each match once. */
  lemma DirectRequestHas(n: Node, i: Input, now: int)
    requires i.Ask? && i.mode == Direct && i.mode in n.allowed && i.target != n.own && i.target !in n.reqs
    ensures i.target in Step(n, i, now).node.reqs
    ensures var good, cs := Step(n, i, now).node.reqs[i.target].good, i.cs;
            if cs.results != [] then
              && |good| == |cs.results|
              && forall j :: 0 <= j < |good| ==> good[j] == ProxyEntry(cs.results[j], QueryResult, OKAY)
            else OnceEach(good, cs.matches) && forall e :: e in good ==> e.source == SpaceVersion && e.err == OKAY
  {
    if i.cs.results == [] {
      MergedMeans([], [], i.cs.matches);
      assert [] + i.cs.matches == i.cs.matches;
    }
  }

  // ------------------------------------------------------------ peers that turn up later

  predicate IsNew(r: Request, p: PeerId) {
    p != r.current && (forall e :: e in r.tried ==> e.id != p) && (forall e :: e in r.good ==> e.id != p)
  }

  /** r' has p as its last candidate, which is no longer a potential one. */
  predicate Gains(r: Request, r': Request, p: PeerId) {
    && r' == r.(good := r.good + [ProxyEntry(p, AddedProxy, OKAY)], potential := r'.potential)
    && (p !in r.potential ==> r'.potential == r.potential)
    && (p in r.potential ==> multiset(r'.potential) == multiset(r.potential) - multiset{p})
  }

  /** A peer that is offered becomes a candidate if it has the flag, is not the target,
      and is new to the request, which is not a direct one. */
  lemma OfferedPeer(n: Node, i: Input, now: int)
    requires i.Offer?
    ensures var out := Step(n, i, now);
            && out.sends == [] && out.cbs == []
            && if i.target in n.reqs && n.reqs[i.target].mode != Direct && i.p.id != i.target && i.flagged
                  && IsNew(n.reqs[i.target], i.p) then
                 && out.node == n.(reqs := n.reqs[i.target := out.node.reqs[i.target]])
                 && Gains(n.reqs[i.target], out.node.reqs[i.target], i.p)
               else out.node == n
  {
    assert forall t :: t in n.reqs ==> n.reqs[t := n.reqs[t]] == n.reqs;
  }

  /** r' is r after p answered. */
  ghost predicate HasHeard(r: Request, r': Request, p: PeerId) {
    if p !in r.potential then r' == r
    else
      && r' == r.(good := r'.good, potential := r'.potential)
      && r'.good == (if IsNew(r, p) then r.good + [ProxyEntry(p, AddedProxy, OKAY)] else r.good)
      && multiset(r'.potential) <= multiset(r.potential) - multiset{p}
      && (!IsNew(r, p) ==> multiset(r'.potential) == multiset(r.potential) - multiset{p})
      && (forall q :: q != p ==> multiset(r'.potential)[q] == multiset(r.potential)[q])
  }

  lemma GoodProxyIs(r: Request, p: PeerId)
    ensures r.WithGoodProxy(p) ==
            if IsNew(r, p) then
              r.(good := r.good + [ProxyEntry(p, AddedProxy, OKAY)], potential := Without(r.potential, p))
            else r
  {
  }

  lemma WithoutTwice(ps: seq<PeerId>, p: PeerId)
    requires p in ps
    ensures multiset(Without(Without(ps, p), p)) <= multiset(ps) - multiset{p}
    ensures forall q :: q != p ==> multiset(Without(Without(ps, p), p))[q] == multiset(ps)[q]
    ensures multiset(Without(ps, p)) == multiset(ps) - multiset{p}
  {
  }

  lemma PingIsHeard(r: Request, p: PeerId)
    ensures HasHeard(r, r.WithPing(p), p)
  {
    if p in r.potential {
      GoodProxyIs(r.(potential := Without(r.potential, p)), p);
      WithoutTwice(r.potential, p);
    }
  }

  /** A peer that answered stops being a potential candidate wherever it is one, and is
      a candidate there if it is new. */
  lemma AnsweredPeer(n: Node, i: Input, now: int, t: NodeId)
    requires i.Alive? && t in n.reqs
    ensures var out := Step(n, i, now);
            && out.sends == [] && out.cbs == [] && out.node == n.(reqs := out.node.reqs)
            && out.node.reqs.Keys == n.reqs.Keys && HasHeard(n.reqs[t], out.node.reqs[t], i.p)
  {
    PingIsHeard(n.reqs[t], i.p);
    assert Step(n, i, now).node.reqs[t] == n.reqs[t].WithPing(i.p);
  }

  /** A cancelled request is done, with an error that says the user did it. */
  lemma CancelledRequest(n: Node, i: Input, now: int)
    requires i.Cancel?
    ensures Step(n, i, now) ==
            if i.target !in n.reqs then Quiet(n)
            else Quiet(n.(reqs := n.reqs[i.target :=
                            n.reqs[i.target].(state := Done, stateTS := now, err := Code(User, SourceStart, 0))]))
  {
  }
}
