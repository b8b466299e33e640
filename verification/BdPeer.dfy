/**
 The orders the node's tables are kept in.
 */
module BdPeer {
  import opened ConnectNode

  predicate TupleLess(a: Tuple, b: Tuple) {
    || a.src < b.src
    || (a.src == b.src && (a.proxy < b.proxy || (a.proxy == b.proxy && a.dest < b.dest)))
  }

  /** The connection table is keyed by a strict total order that agrees with equality. */
  lemma TupleOrderIsTotal(a: Tuple, b: Tuple, c: Tuple)
    ensures !(TupleLess(a, b) && TupleLess(b, a))
    ensures TupleLess(a, b) && TupleLess(b, c) ==> TupleLess(a, c)
    ensures !TupleLess(a, b) && !TupleLess(b, a) <==> a == b
  {
  }

  /** operator< on peers: the second test of the addresses repeats the first, so
      with a greater address the ports are compared all the same. */
  predicate PeerLess(a: PeerId, b: PeerId) {
    if a.id < b.id then true
    else if b.id < a.id then false
    else if a.addr.ip < b.addr.ip then true
    else if b.addr.ip > a.addr.ip then false
    else a.addr.port < b.addr.port
  }

  /** Two addresses of one node of which each is before the other. */
  predicate Crossed(a: PeerId, b: PeerId) {
    a.id == b.id &&
    ((a.addr.ip < b.addr.ip && b.addr.port < a.addr.port) || (b.addr.ip < a.addr.ip && a.addr.port < b.addr.port))
  }

  lemma PeerOrderIsNotAsymmetric()
    ensures exists a, b :: PeerLess(a, b) && PeerLess(b, a)
  {
    var a, b := PeerId(1, Addr(1, 2)), PeerId(1, Addr(2, 1));
    assert PeerLess(a, b) && PeerLess(b, a);
  }

  ghost predicate StrictTotalOn(peers: set<PeerId>) {
    && (forall a, b :: a in peers && b in peers ==> !(PeerLess(a, b) && PeerLess(b, a)))
    && (forall a, b :: a in peers && b in peers && !PeerLess(a, b) && !PeerLess(b, a) ==> a == b)
    && (forall a, b, c :: a in peers && b in peers && c in peers && PeerLess(a, b) && PeerLess(b, c) ==> PeerLess(a, c))
  }

  /** A table keyed by peers is kept in order exactly when no two of its peers are crossed. */
  lemma PeerOrderIsTotalIff(peers: set<PeerId>)
    ensures StrictTotalOn(peers) <==> forall a, b :: a in peers && b in peers ==> !Crossed(a, b)
  {
    if forall a, b :: a in peers && b in peers ==> !Crossed(a, b) {
      forall a, b, c | a in peers && b in peers && c in peers && PeerLess(a, b) && PeerLess(b, c)
        ensures PeerLess(a, c)
      {
        assert !Crossed(a, b) && !Crossed(b, c) && !Crossed(a, c);
      }
    } else {
      var a, b :| a in peers && b in peers && Crossed(a, b);
      assert PeerLess(a, b) && PeerLess(b, a);
    }
  }
}
