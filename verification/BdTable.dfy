/**
 Ordered maps and sets keyed by peers, as search trees that compare with the
 order of BdPeer.  A table is the sequence of its entries in tree order together
 with the shape of the tree, which may be any: rebalancing is not modelled, so
 what is said of every shape holds however the tree is kept.
 */
module BdTable {
  import opened ConnectNode
  import opened BdPeer

  datatype Tree = Empty | Fork(left: Tree, right: Tree)

  function Size(t: Tree): nat {
    match t
    case Empty => 0
    case Fork(left, right) => Size(left) + 1 + Size(right)
  }

  type Keys = seq<PeerId>

  function KeysOf<V>(es: seq<(PeerId, V)>): (r: Keys)
    ensures |r| == |es| && forall i :: 0 <= i < |es| ==> r[i] == es[i].0
  {
    seq(|es|, i requires 0 <= i < |es| => es[i].0)
  }

  /** lower_bound: the descent through the part of the tree that starts at position lo. */
  function LowerBound(keys: Keys, p: PeerId, t: Tree, lo: nat): (r: nat)
    requires lo + Size(t) <= |keys|
    ensures lo <= r <= lo + Size(t)
  {
    match t
    case Empty => lo
    case Fork(left, right) =>
      var root := lo + Size(left);
      if !PeerLess(keys[root], p) then LowerBound(keys, p, left, lo) else LowerBound(keys, p, right, root + 1)
  }

  function Find(keys: Keys, p: PeerId, t: Tree): (r: Option<nat>)
    requires Size(t) == |keys|
    ensures r.Some? ==> r.value < |keys|
  {
    var j := LowerBound(keys, p, t, 0);
    if j < |keys| && !PeerLess(p, keys[j]) then Some(j) else None
  }

  lemma {:induction false} LowerBoundStops(keys: Keys, p: PeerId, t: Tree, lo: nat)
    requires lo + Size(t) <= |keys|
    ensures var r := LowerBound(keys, p, t, lo); r < lo + Size(t) ==> !PeerLess(keys[r], p)
  {
    match t
    case Empty =>
    case Fork(left, right) =>
      LowerBoundStops(keys, p, left, lo);
      LowerBoundStops(keys, p, right, lo + Size(left) + 1);
  }

  /** What is found is always the peer itself: two peers that are not before one another are equal. */
  lemma FoundIsEqual(keys: Keys, p: PeerId, t: Tree)
    requires Size(t) == |keys|
    ensures Find(keys, p, t).Some? ==> keys[Find(keys, p, t).value] == p
  {
    LowerBoundStops(keys, p, t, 0);
  }

  // ------------------------------------------------------------ tables without crossed peers

  ghost predicate Ordered(keys: Keys) { forall i, j :: 0 <= i < j < |keys| ==> PeerLess(keys[i], keys[j]) }

  ghost predicate Uncrossed(peers: set<PeerId>) { forall a, b :: a in peers && b in peers ==> !Crossed(a, b) }

  ghost predicate Drawn(keys: Keys, peers: set<PeerId>) { forall k :: k in keys ==> k in peers }

  /** The keys before p are a front part of the table. */
  ghost predicate Splits(keys: Keys, p: PeerId) {
    forall i, j :: 0 <= i <= j < |keys| && PeerLess(keys[j], p) ==> PeerLess(keys[i], p)
  }

  lemma OrderedSplits(keys: Keys, p: PeerId, peers: set<PeerId>)
    requires Ordered(keys) && Drawn(keys, peers) && p in peers && StrictTotalOn(peers)
    ensures Splits(keys, p)
  {
    forall i, j | 0 <= i <= j < |keys| && PeerLess(keys[j], p)
      ensures PeerLess(keys[i], p)
    {
      assert keys[i] in peers && keys[j] in peers;
    }
  }

  lemma {:induction false} LowerBoundSplits(keys: Keys, p: PeerId, t: Tree, lo: nat)
    requires lo + Size(t) <= |keys| && Splits(keys, p)
    ensures var r := LowerBound(keys, p, t, lo);
            && (forall j :: lo <= j < r ==> PeerLess(keys[j], p))
            && (forall j :: r <= j < lo + Size(t) ==> !PeerLess(keys[j], p))
  {
    match t
    case Empty =>
    case Fork(left, right) =>
      var root := lo + Size(left);
      if PeerLess(keys[root], p) {
        LowerBoundSplits(keys, p, right, root + 1);
      } else {
        LowerBoundSplits(keys, p, left, lo);
      }
  }

  /** Among peers of which no two are crossed, every stored peer is found, whatever the tree looks like. */
  lemma FindsStored(keys: Keys, p: PeerId, t: Tree, peers: set<PeerId>)
    requires Size(t) == |keys| && Ordered(keys) && Drawn(keys, peers) && p in peers && Uncrossed(peers)
    ensures Find(keys, p, t).Some? <==> p in keys
    ensures forall i :: 0 <= i < |keys| && keys[i] == p ==> Find(keys, p, t) == Some(i)
  {
    PeerOrderIsTotalIff(peers);
    OrderedSplits(keys, p, peers);
    LowerBoundSplits(keys, p, t, 0);
    FoundIsEqual(keys, p, t);
  }

  lemma InsertKeepsOrder(keys: Keys, p: PeerId, t: Tree, peers: set<PeerId>)
    requires Size(t) == |keys| && Ordered(keys) && Drawn(keys, peers) && p in peers && Uncrossed(peers)
    requires Find(keys, p, t).None?
    ensures var j := LowerBound(keys, p, t, 0); Ordered(keys[..j] + [p] + keys[j..])
  {
    var j := LowerBound(keys, p, t, 0);
    PeerOrderIsTotalIff(peers);
    OrderedSplits(keys, p, peers);
    LowerBoundSplits(keys, p, t, 0);
    FindsStored(keys, p, t, peers);
    forall i | j <= i < |keys|
      ensures PeerLess(p, keys[i])
    {
      assert keys[i] in peers && keys[i] != p;
    }
  }

  // ------------------------------------------------------------ sets

  /** Where the descent of an insertion ends, in the part of the tree that starts at lo. */
  function UpperBound(keys: Keys, p: PeerId, t: Tree, lo: nat): (r: nat)
    requires lo + Size(t) <= |keys|
    ensures lo <= r <= lo + Size(t)
  {
    match t
    case Empty => lo
    case Fork(left, right) =>
      var root := lo + Size(left);
      if PeerLess(p, keys[root]) then UpperBound(keys, p, left, lo) else UpperBound(keys, p, right, root + 1)
  }

  /** set::insert: the peer before that place decides whether this one is there already. */
  function Joined(keys: Keys, p: PeerId, t: Tree): Keys
    requires Size(t) == |keys|
  {
    var r := UpperBound(keys, p, t, 0);
    if r == 0 || PeerLess(keys[r - 1], p) then keys[..r] + [p] + keys[r..] else keys
  }

  lemma {:induction false} UpperBoundStops(keys: Keys, p: PeerId, t: Tree, lo: nat)
    requires lo + Size(t) <= |keys|
    ensures var r := UpperBound(keys, p, t, lo); lo < r ==> !PeerLess(p, keys[r - 1])
  {
    match t
    case Empty =>
    case Fork(left, right) =>
      UpperBoundStops(keys, p, left, lo);
      UpperBoundStops(keys, p, right, lo + Size(left) + 1);
  }

  /** Crossed or not, a set never loses a member: it can only hold one twice. */
  lemma JoinedMembers(keys: Keys, p: PeerId, t: Tree, q: PeerId)
    requires Size(t) == |keys|
    ensures q in Joined(keys, p, t) <==> q in keys || q == p
  {
    var r := UpperBound(keys, p, t, 0);
    UpperBoundStops(keys, p, t, 0);
    assert keys == keys[..r] + keys[r..];
    assert r > 0 && !PeerLess(keys[r - 1], p) ==> keys[r - 1] == p;
  }
}
