/** The invariant of a whole table, and the lemmas its methods rest on. */
module TableInvariant {
  import opened NodeChains
  import opened ArraySizing
  import opened TableEntries
  import opened TableCounts

  ghost predicate HashOk(hash: (Key, nat) -> nat) {
    forall k, n: nat :: 0 < n ==> hash(k, n) < n
  }

  predicate Storable(k: Key) {
    k != KNil && k != KNaN
  }

  /** Nodes from lastfree on are in use. */
  ghost predicate UsedFrom(ns: seq<Node>, lastfree: int) {
    lastfree <= |ns| && forall i :: 0 <= i < |ns| && lastfree <= i ==> ns[i].key != KNil
  }

  ghost predicate KeysOk(ns: seq<Node>) {
    forall i :: 0 <= i < |ns| ==> ns[i].key != KNaN && (ns[i].dead ==> ns[i].key.KObj?)
  }

  /** No key of the hash part belongs to the array part. */
  ghost predicate KeptApart(asize: int, ns: seq<Node>) {
    forall i :: 0 <= i < |ns| ==> !InArray(ns[i].key, asize)
  }

  ghost predicate Sound(hash: (Key, nat) -> nat, arr: seq<Val>, ns: seq<Node>, dummy: bool, lastfree: int,
        sp: seq<Spot>) {
    && HashOk(hash) && |arr| <= Pow2(MAXBITS) && 0 < |ns|
    && Chains(ns, sp, Main(hash, |ns|)) && KeysOk(ns) && KeptApart(|arr|, ns)
    && if dummy then ns == [FREE] && lastfree <= 0 else UsedFrom(ns, lastfree)
  }

  lemma SoundArray(hash: (Key, nat) -> nat, arr: seq<Val>, ns: seq<Node>, dummy: bool, lastfree: int, sp: seq<Spot>)
    requires Sound(hash, arr, ns, dummy, lastfree, sp)
    ensures HashOk(hash) && |arr| <= Pow2(MAXBITS) && (dummy ==> ns == [FREE])
  {
  }

  lemma SoundChains(hash: (Key, nat) -> nat, arr: seq<Val>, ns: seq<Node>, dummy: bool, lastfree: int, sp: seq<Spot>)
    requires Sound(hash, arr, ns, dummy, lastfree, sp)
    ensures HashOk(hash) && 0 < |ns| && Chains(ns, sp, Main(hash, |ns|))
  {
  }

  ghost predicate SlotOf(arr: seq<Val>, ns: seq<Node>, k: Key, slot: Slot) {
    match slot
    case Missing => k == KNil || (!InArray(k, |arr|) && Absent(ns, k))
    case AtIndex(i) => InArray(k, |arr|) && i == ArrayIndex(k) - 1
    case AtNode(i) => k != KNil && !InArray(k, |arr|) && i < |ns| && Live(ns[i], k)
  }

  function SlotValue(arr: seq<Val>, ns: seq<Node>, slot: Slot): Val {
    match slot
    case Missing => Nil
    case AtIndex(i) => if i < |arr| then arr[i] else Nil
    case AtNode(i) => if i < |ns| then ns[i].val else Nil
  }

  lemma SlotHolds(hash: (Key, nat) -> nat, arr: seq<Val>, ns: seq<Node>, dummy: bool, lastfree: int, sp: seq<Spot>,
        k: Key, slot: Slot)
    requires Sound(hash, arr, ns, dummy, lastfree, sp) && SlotOf(arr, ns, k, slot)
    ensures SlotValue(arr, ns, slot) == ValueAt(arr, ns, k)
  {
    hide Chains;
    if slot.AtNode? { LiveValue(ns, sp, Main(hash, |ns|), slot.i); }
  }

  // ----- Searching a chain -----

  /** Every live node of key k is at or after node n on its chain. */
  ghost predicate Ahead(ns: seq<Node>, sp: seq<Spot>, k: Key, n: int) {
    && NONE <= n < |ns| == |sp|
    && forall i :: 0 <= i < |ns| && Live(ns[i], k) ==>
          n != NONE && sp[i].chain == sp[n].chain && sp[n].rank <= sp[i].rank
  }

  lemma AheadStart(ns: seq<Node>, sp: seq<Spot>, mp: Key -> int, k: Key)
    requires Chains(ns, sp, mp) && k != KNil
    ensures Ahead(ns, sp, k, mp(k))
  {
    hide Unused, FirstLive;
    forall i | 0 <= i < |ns| && Live(ns[i], k)
      ensures sp[i].chain == sp[mp(k)].chain && sp[mp(k)].rank <= sp[i].rank
    {
      assert Placed(ns, sp, mp, i);
    }
  }

  lemma AheadNext(ns: seq<Node>, sp: seq<Spot>, k: Key, n: int)
    requires Linked(ns, sp) && Ahead(ns, sp, k, n) && n != NONE && !Live(ns[n], k)
    ensures Ahead(ns, sp, k, ns[n].next)
  {
  }

  // ----- Room for new keys -----

  ghost predicate HasFree(ns: seq<Node>, dummy: bool) {
    !dummy && exists i :: 0 <= i < |ns| && ns[i].key == KNil
  }

  /** Every node in use holds a value, except that of one slot. */
  ghost predicate DenseBut(ns: seq<Node>, slot: Slot) {
    forall i: nat :: i < |ns| && ns[i].key != KNil && slot != AtNode(i) ==> ns[i].val != Nil
  }

  lemma {:induction false} Pigeonhole(ns: seq<Node>, ks: set<Key>)
    requires forall i :: 0 <= i < |ns| ==> ns[i].key in ks
    requires forall i, j :: 0 <= i < |ns| && 0 <= j < |ns| && i != j ==> ns[i].key != ns[j].key
    ensures |ns| <= |ks|
    decreases |ns|
  {
    if 0 < |ns| {
      var k := ns[|ns| - 1].key;
      Pigeonhole(ns[..|ns| - 1], ks - {k});
    }
  }

  lemma RoomLeft(ns: seq<Node>, sp: seq<Spot>, mp: Key -> int, ks: set<Key>)
    requires Chains(ns, sp, mp) && DenseBut(ns, Missing) && |ks| < |ns|
    requires forall i :: 0 <= i < |ns| && ns[i].val != Nil ==> ns[i].key in ks
    ensures HasFree(ns, false)
  {
    hide Placed, Unused, FirstLive, Linked;
    if forall i :: 0 <= i < |ns| ==> ns[i].key != KNil {
      forall i, j | 0 <= i < |ns| && 0 <= j < |ns| && i != j ensures ns[i].key != ns[j].key {
        if ns[i].key == ns[j].key { OneLive(ns, sp, mp, i, j); }
      }
      Pigeonhole(ns, ks);
      assert false;
    }
  }

  // ----- A new hash part -----

  function EmptyNodes(n: nat): (ns: seq<Node>)
    ensures |ns| == n && forall i :: 0 <= i < n ==> ns[i] == FREE
  {
    seq(n, i => FREE)
  }

  ghost function OwnChains(n: nat): (sp: seq<Spot>)
    ensures |sp| == n && forall i :: 0 <= i < n ==> sp[i] == Spot(i, 0.0)
  {
    seq(n, i => Spot(i, 0.0))
  }

  lemma EmptySound(hash: (Key, nat) -> nat, arr: seq<Val>, n: nat, dummy: bool)
    requires HashOk(hash) && |arr| <= Pow2(MAXBITS) && 0 < n && (dummy ==> n == 1)
    ensures Sound(hash, arr, EmptyNodes(n), dummy, if dummy then 0 else n, OwnChains(n))
    ensures forall k :: k != KNil ==> HashValue(EmptyNodes(n), k) == Nil
  {
    var ns, sp := EmptyNodes(n), OwnChains(n);
    EmptyChains(n, Main(hash, n));
    hide Chains;
    assert KeptApart(|arr|, ns);
    forall k | k != KNil ensures Absent(ns, k) { }
  }

  lemma EmptyChains(n: nat, mp: Key -> int)
    requires forall k :: 0 <= mp(k) < n
    ensures Chains(EmptyNodes(n), OwnChains(n), mp)
  {
    var ns, sp := EmptyNodes(n), OwnChains(n);
    forall i | 0 <= i < n ensures Unused(ns, sp, i) { }
    assert Linked(ns, sp) && FirstLive(ns, sp);
  }

  /** A chain number not in use. */
  ghost function NewChain(sp: seq<Spot>): (c: int)
    ensures forall i :: 0 <= i < |sp| ==> sp[i].chain < c
  {
    if |sp| == 0 then 0 else
      var c := NewChain(sp[..|sp| - 1]);
      if c <= sp[|sp| - 1].chain then sp[|sp| - 1].chain + 1 else c
  }

  // ----- The three ways to enter a key, on the whole table -----

  lemma EnterAtMain(hash: (Key, nat) -> nat, arr: seq<Val>, ns: seq<Node>, lastfree: int, sp: seq<Spot>, k: Key)
    requires Sound(hash, arr, ns, false, lastfree, sp) && Storable(k) && !InArray(k, |arr|) && Absent(ns, k)
    requires ns[hash(k, |ns|)].val == Nil
    ensures var p := hash(k, |ns|); var ms := AtMain(ns, p, k);
            && Sound(hash, arr, ms, false, lastfree, sp) && SlotOf(arr, ms, k, AtNode(p))
            && (forall q :: HashValue(ms, q) == HashValue(ns, q))
            && (DenseBut(ns, Missing) ==> DenseBut(ms, AtNode(p)))
  {
    hide Chains, HashValue, Carried;
    var p := hash(k, |ns|);
    var ms := AtMain(ns, p, k);
    MainOf(ns, sp, Main(hash, |ns|), k);
    AtMainChains(ns, sp, Main(hash, |ns|), k);
    AtMainCarried(ns, p, k);
    SameValues(ns, sp, ms, sp, Main(hash, |ns|));
  }

  lemma MainOf(ns: seq<Node>, sp: seq<Spot>, mp: Key -> int, k: Key)
    requires Chains(ns, sp, mp)
    ensures 0 <= mp(k) < |ns|
  {
    hide Linked, FirstLive, Placed, Unused;
  }

  lemma EnterAfterMain(hash: (Key, nat) -> nat, arr: seq<Val>, ns: seq<Node>, lastfree: int, sp: seq<Spot>, n: int,
        k: Key)
    requires Sound(hash, arr, ns, false, lastfree, sp) && Storable(k) && !InArray(k, |arr|) && Absent(ns, k)
    requires 0 <= n < |ns| && ns[n].key == KNil && UsedFrom(ns, n + 1)
    requires ns[hash(k, |ns|)].val != Nil && hash(ns[hash(k, |ns|)].key, |ns|) == hash(k, |ns|)
    ensures n != hash(k, |ns|) && NONE <= ns[hash(k, |ns|)].next < |ns| == |sp|
    ensures var p := hash(k, |ns|); var ms := AfterMain(ns, p, n, k);
            && Sound(hash, arr, ms, false, n, sp[n := SpotAfter(ns, sp, p)]) && SlotOf(arr, ms, k, AtNode(n))
            && (forall q :: HashValue(ms, q) == HashValue(ns, q))
            && (DenseBut(ns, Missing) ==> DenseBut(ms, AtNode(n)))
  {
    hide Chains, HashValue, Carried, Sound;
    SoundChains(hash, arr, ns, false, lastfree, sp);
    var p := hash(k, |ns|);
    var mp := Main(hash, |ns|);
    StoredLive(ns, sp, mp, p);
    UsedNodes(ns, sp, mp, p, n);
    assert !Live(ns[p], k);
    var ms, sq := AfterMain(ns, p, n, k), sp[n := SpotAfter(ns, sp, p)];
    AfterMainChains(ns, sp, mp, n, k);
    AfterMainCarried(ns, p, n, k);
    SameValues(ns, sp, ms, sq, mp);
    AfterMainSound(hash, arr, ns, lastfree, sp, n, k);
  }

  lemma AfterMainSound(hash: (Key, nat) -> nat, arr: seq<Val>, ns: seq<Node>, lastfree: int, sp: seq<Spot>, n: int,
        k: Key)
    requires Sound(hash, arr, ns, false, lastfree, sp) && Storable(k) && !InArray(k, |arr|)
    requires 0 <= n < |ns| && ns[n].key == KNil && UsedFrom(ns, n + 1) && |sp| == |ns|
    requires n != hash(k, |ns|) && NONE <= ns[hash(k, |ns|)].next < |ns|
    requires var p := hash(k, |ns|); Chains(AfterMain(ns, p, n, k), sp[n := SpotAfter(ns, sp, p)], Main(hash, |ns|))
    ensures var p := hash(k, |ns|); var ms := AfterMain(ns, p, n, k);
            && Sound(hash, arr, ms, false, n, sp[n := SpotAfter(ns, sp, p)]) && SlotOf(arr, ms, k, AtNode(n))
            && (DenseBut(ns, Missing) ==> DenseBut(ms, AtNode(n)))
  {
    hide Chains;
  }

  lemma UsedNodes(ns: seq<Node>, sp: seq<Spot>, mp: Key -> int, p: int, n: int)
    requires Chains(ns, sp, mp) && 0 <= p < |ns| && 0 <= n < |ns| && ns[p].val != Nil && ns[n].key == KNil
    ensures n != p && |sp| == |ns| && NONE <= ns[p].next < |ns| && ns[n].val == Nil && !ns[n].dead && ns[n].next == NONE
  {
    hide FirstLive, Placed;
  }

  lemma EnterDisplaced(hash: (Key, nat) -> nat, arr: seq<Val>, ns: seq<Node>, lastfree: int, sp: seq<Spot>, prev: int,
        n: int, k: Key)
    requires Sound(hash, arr, ns, false, lastfree, sp) && Storable(k) && !InArray(k, |arr|) && Absent(ns, k)
    requires 0 <= n < |ns| && ns[n].key == KNil && UsedFrom(ns, n + 1)
    requires ns[hash(k, |ns|)].val != Nil && hash(ns[hash(k, |ns|)].key, |ns|) != hash(k, |ns|)
    requires 0 <= prev < |ns| && ns[prev].next == hash(k, |ns|)
    ensures |sp| == |ns| && n != hash(k, |ns|) && n != prev && prev != hash(k, |ns|)
    ensures var p := hash(k, |ns|); var ms := Displaced(ns, p, prev, n, k);
            && Sound(hash, arr, ms, false, n, SpotsMoved(sp, p, n, NewChain(sp))) && SlotOf(arr, ms, k, AtNode(p))
            && (forall q :: HashValue(ms, q) == HashValue(ns, q))
            && (DenseBut(ns, Missing) ==> DenseBut(ms, AtNode(p)))
  {
    hide Chains, HashValue, Carried, Sound;
    SoundChains(hash, arr, ns, false, lastfree, sp);
    var p := hash(k, |ns|);
    var mp := Main(hash, |ns|);
    StoredLive(ns, sp, mp, p);
    UsedNodes(ns, sp, mp, p, n);
    var ms, sq := Displaced(ns, p, prev, n, k), SpotsMoved(sp, p, n, NewChain(sp));
    DisplacedApart(ns, sp, mp, prev, n, k);
    DisplacedChains(ns, sp, mp, prev, n, k, NewChain(sp));
    DisplacedCarried(ns, p, prev, n, k);
    SameValues(ns, sp, ms, sq, mp);
    DisplacedSound(hash, arr, ns, lastfree, sp, prev, n, k);
  }

  lemma DisplacedSound(hash: (Key, nat) -> nat, arr: seq<Val>, ns: seq<Node>, lastfree: int, sp: seq<Spot>, prev: int,
        n: int, k: Key)
    requires Sound(hash, arr, ns, false, lastfree, sp) && Storable(k) && !InArray(k, |arr|)
    requires 0 <= n < |ns| && ns[n].key == KNil && UsedFrom(ns, n + 1) && ns[hash(k, |ns|)].key != KNil && |sp| == |ns|
    requires 0 <= prev < |ns| && n != hash(k, |ns|) && n != prev && prev != hash(k, |ns|)
    requires ns[hash(k, |ns|)].val != Nil
    requires var p := hash(k, |ns|);
          Chains(Displaced(ns, p, prev, n, k), SpotsMoved(sp, p, n, NewChain(sp)), Main(hash, |ns|))
    ensures var p := hash(k, |ns|); var ms := Displaced(ns, p, prev, n, k);
            && Sound(hash, arr, ms, false, n, SpotsMoved(sp, p, n, NewChain(sp))) && SlotOf(arr, ms, k, AtNode(p))
            && (DenseBut(ns, Missing) ==> DenseBut(ms, AtNode(p)))
  {
    hide Chains;
  }

  // ----- The chain of a key that is not at home -----

  /** Node q is before node p on its chain. */
  ghost predicate Before(ns: seq<Node>, sp: seq<Spot>, q: int, p: int) {
    0 <= q < |ns| == |sp| && 0 <= p < |ns| && q != p && sp[q].chain == sp[p].chain && sp[q].rank <= sp[p].rank
  }

  lemma BeforeStart(ns: seq<Node>, sp: seq<Spot>, mp: Key -> int, p: int)
    requires Chains(ns, sp, mp) && 0 <= p < |ns| && ns[p].key != KNil && mp(ns[p].key) != p
    ensures Before(ns, sp, mp(ns[p].key), p)
  {
    hide FirstLive;
    assert Placed(ns, sp, mp, p);
  }

  lemma BeforeNext(ns: seq<Node>, sp: seq<Spot>, q: int, p: int)
    requires Linked(ns, sp) && Before(ns, sp, q, p)
    ensures ns[q].next == p
          || (0 <= ns[q].next < |ns| && Before(ns, sp, ns[q].next, p) && Beyond(sp, ns[q].next) < Beyond(sp, q))
  {
    NextBeyond(ns, sp, q);
  }

  // ----- Storing -----

  lemma StoredSound(hash: (Key, nat) -> nat, arr: seq<Val>, ns: seq<Node>, dummy: bool, lastfree: int, sp: seq<Spot>,
        k: Key, i: nat, v: Val)
    requires Sound(hash, arr, ns, dummy, lastfree, sp) && SlotOf(arr, ns, k, AtNode(i))
    ensures var ms := ns[i := ns[i].(val := v)];
            && Sound(hash, arr, ms, dummy, lastfree, sp) && SlotOf(arr, ms, k, AtNode(i))
            && forall q :: ValueAt(arr, ms, q) == if q == k then v else ValueAt(arr, ns, q)
  {
    hide Chains, HashValue;
    StoredValue(ns, sp, Main(hash, |ns|), i, v);
  }
}
