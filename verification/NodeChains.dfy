/** The hash part of a Lua table: a chained scatter table with Brent's variation,
    as a vector of nodes with links between them. */
module NodeChains {

  /** Keys: integers, other values that are never collected, and objects. Nil
      marks a node that was never used; nil and NaN cannot be set. */
  datatype Key = KNil | KNaN | KInt(i: int) | KVal(id: nat) | KObj(id: nat)

  /** Numbers are told apart from the other values for the sake of the free list of references. */
  datatype Val = Nil | V(id: nat) | VInt(i: int)

  const NONE: int := -1

  /** A dead key belongs to an emptied entry and is not found by a lookup. */
  datatype Node = Node(key: Key, dead: bool, val: Val, next: int)

  const FREE: Node := Node(KNil, false, Nil, NONE)

  /** Proof device: which chain a node is on, and how far along it. */
  datatype Spot = Spot(chain: int, rank: real)

  predicate Live(n: Node, k: Key) {
    n.key == k && !n.dead
  }

  /** Links lead along a chain, and from a node one gets to all nodes of its
      chain that come after it. */
  ghost predicate Linked(ns: seq<Node>, sp: seq<Spot>) {
    && |sp| == |ns|
    && (forall i :: 0 <= i < |ns| ==> NONE <= ns[i].next < |ns|)
    && (forall i :: 0 <= i < |ns| && ns[i].next != NONE ==>
          sp[ns[i].next].chain == sp[i].chain && sp[i].rank < sp[ns[i].next].rank)
    && (forall i, j ::
          0 <= i < |ns| && 0 <= j < |ns| && i != j && sp[i].chain == sp[j].chain && sp[i].rank <= sp[j].rank ==>
          ns[i].next != NONE && sp[ns[i].next].rank <= sp[j].rank)
  }

  /** Unused nodes are on no chain but their own. */
  ghost predicate Unused(ns: seq<Node>, sp: seq<Spot>, i: int)
    requires 0 <= i < |ns| == |sp|
  {
    ns[i] == FREE && forall j :: 0 <= j < |ns| && j != i ==> sp[j].chain != sp[i].chain
  }

  /** The node of key k is on the chain from its main position, whose own key is
      at home there. */
  ghost predicate Placed(ns: seq<Node>, sp: seq<Spot>, mp: Key -> int, i: int)
    requires 0 <= i < |ns| == |sp|
  {
    var m := mp(ns[i].key);
    && 0 <= m < |ns|
    && sp[m].chain == sp[i].chain && sp[m].rank <= sp[i].rank
    && ns[m].key != KNil && mp(ns[m].key) == m
  }

  /** Of several nodes with the same key only the first on the chain can be live. */
  ghost predicate FirstLive(ns: seq<Node>, sp: seq<Spot>) {
    forall i, j :: 0 <= i < |ns| == |sp| && 0 <= j < |ns| && i != j && ns[i].key == ns[j].key != KNil ==>
      (sp[i].rank < sp[j].rank ==> ns[j].dead) && (sp[j].rank < sp[i].rank ==> ns[i].dead)
  }

  ghost predicate Chains(ns: seq<Node>, sp: seq<Spot>, mp: Key -> int) {
    && Linked(ns, sp) && FirstLive(ns, sp)
    && (forall k :: 0 <= mp(k) < |ns|)
    && (forall i :: 0 <= i < |ns| ==> if ns[i].key == KNil then Unused(ns, sp, i) else Placed(ns, sp, mp, i))
    && (forall i :: 0 <= i < |ns| && ns[i].dead ==> ns[i].val == Nil)
  }

  ghost predicate Absent(ns: seq<Node>, k: Key) {
    forall i :: 0 <= i < |ns| ==> !Live(ns[i], k)
  }

  // ----- What the links look like -----

  /** Where k steps along the links lead. */
  function Walk(ns: seq<Node>, i: int, k: nat): int
    decreases k
  {
    if k == 0 || !(0 <= i < |ns|) then i else Walk(ns, ns[i].next, k - 1)
  }

  ghost function Beyond(sp: seq<Spot>, i: int): set<int>
    requires 0 <= i < |sp|
  {
    set j | 0 <= j < |sp| && sp[j].chain == sp[i].chain && sp[i].rank < sp[j].rank
  }

  lemma NextBeyond(ns: seq<Node>, sp: seq<Spot>, i: int)
    requires Linked(ns, sp) && 0 <= i < |ns| && ns[i].next != NONE
    ensures Beyond(sp, ns[i].next) < Beyond(sp, i)
  {
    var n := ns[i].next;
    assert n in Beyond(sp, i) && n !in Beyond(sp, n);
    assert forall j :: j in Beyond(sp, n) ==> j in Beyond(sp, i);
  }

  /** Every chain ends, so the links have no cycle. */
  lemma {:induction false} ChainEnds(ns: seq<Node>, sp: seq<Spot>, i: int) returns (k: nat)
    requires Linked(ns, sp) && 0 <= i < |ns|
    ensures 0 < k && Walk(ns, i, k) == NONE
    decreases Beyond(sp, i)
  {
    if ns[i].next == NONE {
      k := 1;
      assert Walk(ns, NONE, 0) == NONE;
    } else {
      NextBeyond(ns, sp, i);
      var n := ChainEnds(ns, sp, ns[i].next);
      k := n + 1;
    }
  }

  /** No two nodes link to the same one. */
  lemma OnePredecessor(ns: seq<Node>, sp: seq<Spot>, i: int, j: int)
    requires Linked(ns, sp) && 0 <= i < |ns| && 0 <= j < |ns| && ns[i].next == ns[j].next != NONE
    ensures i == j
  {
  }

  /** A node later on the chain is reached along the links. */
  lemma {:induction false} Reached(ns: seq<Node>, sp: seq<Spot>, i: int, j: int) returns (k: nat)
    requires Linked(ns, sp) && 0 <= i < |ns| && 0 <= j < |ns|
    requires sp[i].chain == sp[j].chain && sp[i].rank <= sp[j].rank
    ensures Walk(ns, i, k) == j
    decreases Beyond(sp, i)
  {
    if i == j {
      k := 0;
    } else {
      NextBeyond(ns, sp, i);
      var n := Reached(ns, sp, ns[i].next, j);
      k := n + 1;
    }
  }

  /** The invariant of the table in its own terms: every key is reached from its
      main position, and the key found there is in its own main position. */
  lemma KeysReached(ns: seq<Node>, sp: seq<Spot>, mp: Key -> int, i: int)
    requires Chains(ns, sp, mp) && 0 <= i < |ns| && ns[i].key != KNil
    ensures exists k: nat :: Walk(ns, mp(ns[i].key), k) == i
    ensures mp(ns[i].key) != i ==> mp(ns[mp(ns[i].key)].key) == mp(ns[i].key)
  {
    assert Placed(ns, sp, mp, i);
    var k := Reached(ns, sp, mp(ns[i].key), i);
  }

  // ----- Three ways to enter a key -----

  /** In its main position, which holds no value. */
  ghost function AtMain(ns: seq<Node>, p: int, k: Key): seq<Node>
    requires 0 <= p < |ns|
  {
    ns[p := Node(k, false, Nil, ns[p].next)]
  }

  lemma AtMainFirst(ns: seq<Node>, sp: seq<Spot>, mp: Key -> int, k: Key)
    requires Chains(ns, sp, mp) && Absent(ns, k)
    ensures FirstLive(AtMain(ns, mp(k), k), sp)
  {
    hide Unused;
    var ms := AtMain(ns, mp(k), k);
    forall i, j | 0 <= i < |ms| && 0 <= j < |ms| && i != j && ms[i].key == ms[j].key != KNil
      ensures (sp[i].rank < sp[j].rank ==> ms[j].dead) && (sp[j].rank < sp[i].rank ==> ms[i].dead)
    {
      if i != mp(k) { assert Placed(ns, sp, mp, i) && !Live(ns[i], k); }
      if j != mp(k) { assert Placed(ns, sp, mp, j) && !Live(ns[j], k); }
    }
  }

  lemma AtMainChains(ns: seq<Node>, sp: seq<Spot>, mp: Key -> int, k: Key)
    requires Chains(ns, sp, mp) && k != KNil && Absent(ns, k) && ns[mp(k)].val == Nil
    ensures Chains(AtMain(ns, mp(k), k), sp, mp)
  {
    hide FirstLive;
    var p := mp(k);
    var ms := AtMain(ns, p, k);
    AtMainFirst(ns, sp, mp, k);
    forall i | 0 <= i < |ms| ensures if ms[i].key == KNil then Unused(ms, sp, i) else Placed(ms, sp, mp, i) {
      assert if ns[i].key == KNil then Unused(ns, sp, i) else Placed(ns, sp, mp, i);
    }
  }

  /** In a free node linked in after the main position. */
  ghost function AfterMain(ns: seq<Node>, p: int, n: int, k: Key): seq<Node>
    requires 0 <= p < |ns| && 0 <= n < |ns|
  {
    ns[n := Node(k, false, Nil, ns[p].next)][p := ns[p].(next := n)]
  }

  ghost function SpotAfter(ns: seq<Node>, sp: seq<Spot>, p: int): Spot
    requires 0 <= p < |ns| == |sp| && NONE <= ns[p].next < |ns|
  {
    Spot(sp[p].chain, if ns[p].next == NONE then sp[p].rank + 1.0 else (sp[p].rank + sp[ns[p].next].rank) / 2.0)
  }

  lemma AfterMainLinked(ns: seq<Node>, sp: seq<Spot>, p: int, n: int, k: Key)
    requires Linked(ns, sp) && 0 <= p < |ns| && 0 <= n < |ns| && n != p && Unused(ns, sp, n)
    ensures Linked(AfterMain(ns, p, n, k), sp[n := SpotAfter(ns, sp, p)])
  {
  }

  lemma SameKeyAfter(ns: seq<Node>, sp: seq<Spot>, mp: Key -> int, k: Key, j: int)
    requires Chains(ns, sp, mp) && Absent(ns, k) && ns[mp(k)].key != k
    requires 0 <= j < |ns| && ns[j].key == k != KNil
    ensures ns[j].dead && SpotAfter(ns, sp, mp(k)).rank < sp[j].rank
  {
    assert !Live(ns[j], k);
    assert Placed(ns, sp, mp, j);
  }

  lemma AfterMainFirst(ns: seq<Node>, sp: seq<Spot>, mp: Key -> int, n: int, k: Key)
    requires Chains(ns, sp, mp) && Absent(ns, k) && 0 <= n < |ns| && ns[n].key == KNil && n != mp(k)
          && ns[mp(k)].key != k
    ensures FirstLive(AfterMain(ns, mp(k), n, k), sp[n := SpotAfter(ns, sp, mp(k))])
  {
    hide Placed, Absent, Unused;
    var p := mp(k);
    var ms, sq := AfterMain(ns, p, n, k), sp[n := SpotAfter(ns, sp, p)];
    forall i, j | 0 <= i < |ms| && 0 <= j < |ms| && i != j && ms[i].key == ms[j].key != KNil
      ensures (sq[i].rank < sq[j].rank ==> ms[j].dead) && (sq[j].rank < sq[i].rank ==> ms[i].dead)
    {
      if i == n { SameKeyAfter(ns, sp, mp, k, j); }
      else if j == n { SameKeyAfter(ns, sp, mp, k, i); }
      else { assert ns[i].key == ns[j].key; }
    }
  }

  lemma AfterMainChains(ns: seq<Node>, sp: seq<Spot>, mp: Key -> int, n: int, k: Key)
    requires Chains(ns, sp, mp) && k != KNil && Absent(ns, k)
    requires 0 <= n < |ns| && ns[n].key == KNil && ns[mp(k)].key != KNil && mp(ns[mp(k)].key) == mp(k)
    requires ns[mp(k)].key != k
    ensures Chains(AfterMain(ns, mp(k), n, k), sp[n := SpotAfter(ns, sp, mp(k))], mp)
  {
    hide FirstLive;
    var p := mp(k);
    var ms, sq := AfterMain(ns, p, n, k), sp[n := SpotAfter(ns, sp, p)];
    assert Unused(ns, sp, n);
    AfterMainLinked(ns, sp, p, n, k);
    AfterMainFirst(ns, sp, mp, n, k);
    AfterMainPlaces(ns, sp, mp, n, k);
  }

  lemma AfterMainPlaces(ns: seq<Node>, sp: seq<Spot>, mp: Key -> int, n: int, k: Key)
    requires Chains(ns, sp, mp) && k != KNil
    requires 0 <= n < |ns| && ns[n].key == KNil && ns[mp(k)].key != KNil && mp(ns[mp(k)].key) == mp(k)
    ensures var ms, sq := AfterMain(ns, mp(k), n, k), sp[n := SpotAfter(ns, sp, mp(k))];
            forall i :: 0 <= i < |ms| ==> if ms[i].key == KNil then Unused(ms, sq, i) else Placed(ms, sq, mp, i)
  {
    hide FirstLive;
    var p := mp(k);
    var ms, sq := AfterMain(ns, p, n, k), sp[n := SpotAfter(ns, sp, p)];
    forall i | 0 <= i < |ms| ensures if ms[i].key == KNil then Unused(ms, sq, i) else Placed(ms, sq, mp, i) {
      assert if ns[i].key == KNil then Unused(ns, sp, i) else Placed(ns, sp, mp, i);
    }
  }

  /** In its main position, whose key, not at home there, moves to a free node. */
  ghost function Displaced(ns: seq<Node>, p: int, prev: int, n: int, k: Key): seq<Node>
    requires 0 <= p < |ns| && 0 <= prev < |ns| && 0 <= n < |ns|
  {
    ns[prev := ns[prev].(next := n)][n := ns[p]][p := Node(k, false, Nil, NONE)]
  }

  ghost function SpotsMoved(sp: seq<Spot>, p: int, n: int, newChain: int): seq<Spot>
    requires 0 <= p < |sp| && 0 <= n < |sp|
  {
    sp[n := sp[p]][p := Spot(newChain, 0.0)]
  }

  lemma DisplacedNext(ns: seq<Node>, sp: seq<Spot>, p: int, prev: int, n: int, k: Key, newChain: int)
    requires Linked(ns, sp) && 0 <= p < |ns| && 0 <= prev < |ns| && 0 <= n < |ns| && n != p && n != prev && prev != p
    requires Unused(ns, sp, n) && ns[prev].next == p
    ensures var ms, sq := Displaced(ns, p, prev, n, k), SpotsMoved(sp, p, n, newChain);
            forall i :: 0 <= i < |ms| && ms[i].next != NONE ==>
              sq[ms[i].next].chain == sq[i].chain && sq[i].rank < sq[ms[i].next].rank
  {
    var ms, sq := Displaced(ns, p, prev, n, k), SpotsMoved(sp, p, n, newChain);
    forall i | 0 <= i < |ms| && ms[i].next != NONE
      ensures sq[ms[i].next].chain == sq[i].chain && sq[i].rank < sq[ms[i].next].rank
    {
      var a := if i == n then p else i;
      assert ns[a].next != NONE && sp[ns[a].next].chain == sp[a].chain && sp[a].rank < sp[ns[a].next].rank;
      if ns[a].next == p { OnePredecessor(ns, sp, a, prev); }
    }
  }

  lemma DisplacedLinked(ns: seq<Node>, sp: seq<Spot>, p: int, prev: int, n: int, k: Key, newChain: int)
    requires Linked(ns, sp) && 0 <= p < |ns| && 0 <= prev < |ns| && 0 <= n < |ns| && n != p && n != prev && prev != p
    requires Unused(ns, sp, n) && ns[prev].next == p && forall i :: 0 <= i < |sp| ==> sp[i].chain != newChain
    ensures Linked(Displaced(ns, p, prev, n, k), SpotsMoved(sp, p, n, newChain))
  {
    var ms, sq := Displaced(ns, p, prev, n, k), SpotsMoved(sp, p, n, newChain);
    DisplacedNext(ns, sp, p, prev, n, k, newChain);
    forall i, j | 0 <= i < |ns| && 0 <= j < |ns| && i != j && sq[i].chain == sq[j].chain && sq[i].rank <= sq[j].rank
      ensures ms[i].next != NONE && sq[ms[i].next].rank <= sq[j].rank
    {
      DisplacedLater(ns, sp, p, prev, n, k, newChain, i, j);
    }
  }

  lemma DisplacedLater(ns: seq<Node>, sp: seq<Spot>, p: int, prev: int, n: int, k: Key, newChain: int, i: int, j: int)
    requires Linked(ns, sp) && 0 <= p < |ns| && 0 <= prev < |ns| && 0 <= n < |ns| && n != p && n != prev && prev != p
    requires Unused(ns, sp, n) && ns[prev].next == p && forall i :: 0 <= i < |sp| ==> sp[i].chain != newChain
    requires var sq := SpotsMoved(sp, p, n, newChain);
             0 <= i < |ns| && 0 <= j < |ns| && i != j && sq[i].chain == sq[j].chain && sq[i].rank <= sq[j].rank
    ensures var ms, sq := Displaced(ns, p, prev, n, k), SpotsMoved(sp, p, n, newChain);
            0 <= ms[i].next < |ns| && sq[ms[i].next].rank <= sq[j].rank
  {
    var sq := SpotsMoved(sp, p, n, newChain);
    var a, b := if i == n then p else i, if j == n then p else j;
    assert i != p && j != p;
    assert sp[a] == sq[i] && sp[b] == sq[j] && a != b;
    assert ns[a].next != NONE && sp[ns[a].next].rank <= sp[b].rank;
    if ns[a].next == p { OnePredecessor(ns, sp, a, prev); }
    assert ns[a].next != n;
  }

  lemma NotHome(ns: seq<Node>, sp: seq<Spot>, mp: Key -> int, p: int)
    requires Chains(ns, sp, mp) && 0 <= p < |ns| && ns[p].key != KNil && mp(ns[p].key) != p
    ensures forall i :: 0 <= i < |ns| && ns[i].key != KNil ==> mp(ns[i].key) != p
  {
    forall i | 0 <= i < |ns| && ns[i].key != KNil ensures mp(ns[i].key) != p { assert Placed(ns, sp, mp, i); }
  }

  lemma DisplacedChains(ns: seq<Node>, sp: seq<Spot>, mp: Key -> int, prev: int, n: int, k: Key, newChain: int)
    requires Chains(ns, sp, mp) && k != KNil && Absent(ns, k)
    requires 0 <= n < |ns| && ns[n].key == KNil && ns[mp(k)].key != KNil && mp(ns[mp(k)].key) != mp(k)
    requires 0 <= prev < |ns| && ns[prev].next == mp(k) && forall i :: 0 <= i < |sp| ==> sp[i].chain != newChain
    ensures Chains(Displaced(ns, mp(k), prev, n, k), SpotsMoved(sp, mp(k), n, newChain), mp)
  {
    hide FirstLive, Placed;
    var p := mp(k);
    DisplacedApart(ns, sp, mp, prev, n, k);
    NotHome(ns, sp, mp, p);
    DisplacedLinked(ns, sp, p, prev, n, k, newChain);
    DisplacedPlaces(ns, sp, mp, prev, n, k, newChain);
    DisplacedFirst(ns, sp, p, prev, n, k, newChain);
    DisplacedDead(ns, p, prev, n, k);
    hide Linked, Unused, Displaced, SpotsMoved;
  }

  lemma DisplacedApart(ns: seq<Node>, sp: seq<Spot>, mp: Key -> int, prev: int, n: int, k: Key)
    requires Chains(ns, sp, mp) && 0 <= n < |ns| && ns[n].key == KNil && ns[mp(k)].key != KNil
    requires 0 <= prev < |ns| && ns[prev].next == mp(k)
    ensures Unused(ns, sp, n) && n != mp(k) && prev != n && prev != mp(k)
  {
    hide FirstLive, Placed;
  }

  lemma DisplacedDead(ns: seq<Node>, p: int, prev: int, n: int, k: Key)
    requires 0 <= p < |ns| && 0 <= prev < |ns| && 0 <= n < |ns| && prev != n
    requires forall i :: 0 <= i < |ns| && ns[i].dead ==> ns[i].val == Nil
    ensures forall i :: 0 <= i < |ns| ==> var ms := Displaced(ns, p, prev, n, k); ms[i].dead ==> ms[i].val == Nil
  {
  }

  lemma DisplacedFirst(ns: seq<Node>, sp: seq<Spot>, p: int, prev: int, n: int, k: Key, newChain: int)
    requires |ns| == |sp| && FirstLive(ns, sp) && 0 <= p < |ns| && 0 <= prev < |ns| && 0 <= n < |ns| && n != p
          && prev != p && prev != n
    requires ns[n].key == KNil && k != KNil && forall i :: 0 <= i < |ns| ==> ns[i].key != k
    ensures FirstLive(Displaced(ns, p, prev, n, k), SpotsMoved(sp, p, n, newChain))
  {
  }

  lemma DisplacedPlaces(ns: seq<Node>, sp: seq<Spot>, mp: Key -> int, prev: int, n: int, k: Key, newChain: int)
    requires 0 <= n < |ns| == |sp| && 0 <= mp(k) < |ns| && 0 <= prev < |ns| && k != KNil && Chains(ns, sp, mp)
    requires ns[n].key == KNil && ns[mp(k)].key != KNil && mp(ns[mp(k)].key) != mp(k)
    requires ns[prev].next == mp(k) && forall i :: 0 <= i < |sp| ==> sp[i].chain != newChain
    ensures var ms, sq := Displaced(ns, mp(k), prev, n, k), SpotsMoved(sp, mp(k), n, newChain);
            forall i :: 0 <= i < |ms| ==> if ms[i].key == KNil then Unused(ms, sq, i) else Placed(ms, sq, mp, i)
  {
    hide FirstLive;
    var p := mp(k);
    var ms, sq := Displaced(ns, p, prev, n, k), SpotsMoved(sp, p, n, newChain);
    assert Unused(ns, sp, n);
    NotHome(ns, sp, mp, p);
    forall i | 0 <= i < |ms| ensures if ms[i].key == KNil then Unused(ms, sq, i) else Placed(ms, sq, mp, i) {
      assert if ns[i].key == KNil then Unused(ns, sp, i) else Placed(ns, sp, mp, i);
      if i == n { assert Placed(ns, sp, mp, p); }
    }
  }
}
