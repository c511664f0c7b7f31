/** Lua tables: searching, setting, growing. */
module Tables {
  import opened NodeChains
  import opened ArraySizing
  import opened TableEntries
  import opened TableCounts
  import opened TableInvariant
  import opened TableResize
  import opened TableTraversal

  datatype Outcome = Ok | IndexIsNil | IndexIsNaN | Overflow

  /** The sizes a rehash for key k leads to do not fit. */
  ghost predicate TooMany(ks: set<Key>, k: Key) {
    exists n :: Optimal(Ints(ks + {k}), n) && |Outside(ks + {k}, n)| > Pow2(MAXBITS)
  }

  /** The array part has only been filled up with nils. */
  ghost predicate Filled(arr0: seq<Val>, arr: seq<Val>) {
    |arr0| <= |arr| && arr == Resized(arr0, |arr|)
  }

  lemma OneOptimal(s: set<int>, m: int, n: int)
    requires Optimal(s, m) && Optimal(s, n)
    ensures m == n
  {
    hide Half;
  }

  lemma OptimalSize(s: set<int>, n: int)
    requires Optimal(s, n)
    ensures 0 <= n <= Pow2(MAXBITS)
  {
    hide Half;
    if n != 0 {
      var i: nat :| i <= MAXBITS && n == Pow2(i) && Half(s, i);
      if i < MAXBITS { Pow2Monotone(i, MAXBITS); }
    }
  }

  /** Counts k, if it is an integer key that may live in an array part. */
  method CountInt(k: Key, nums: seq<int>, ghost ks: set<Key>) returns (r: seq<int>, counted: int)
    requires Counts(nums, Ints(ks)) && k !in ks
    ensures Counts(r, Ints(ks + {k})) && |Ints(ks + {k})| == |Ints(ks)| + counted
  {
    assert |nums| == MAXBITS + 1;
    hide Counts, Ints;
    var i := ArrayIndex(k);
    MaxSize();
    IntsPlus(ks, k);
    IntsNew(ks, k);
    if 0 < i && i <= Pow2(MAXBITS) {
      CountOne(nums, Ints(ks), i);
      r, counted := nums[CeilLog2(i) := nums[CeilLog2(i)] + 1], 1;
    } else {
      r, counted := nums, 0;
    }
  }

  class Table {
    /** The main position of a key in a vector of so many nodes. */
    const hash: (Key, nat) -> nat
    var arr: seq<Val>
    var lsize: nat
    var nodes: seq<Node>
    /** The hash part is the shared node that is never written to. */
    var dummy: bool
    var lastfree: int
    ghost var spots: seq<Spot>

    ghost predicate Valid()
      reads this
    {
      && lsize <= MAXBITS && |nodes| == Pow2(lsize)
      && Sound(hash, arr, nodes, dummy, lastfree, spots)
    }

    ghost function At(k: Key): Val
      reads this
    {
      ValueAt(arr, nodes, k)
    }

    /** An array part or a free node can take k. */
    ghost predicate Fits(k: Key)
      reads this
    {
      InArray(k, |arr|) || HasFree(nodes, dummy)
    }

    /** Key k has a slot, be it an empty one. */
    ghost predicate HasSlot(k: Key)
      reads this
    {
      k != KNil && (InArray(k, |arr|) || !Absent(nodes, k))
    }

    /** Setting k makes the table grow. */
    ghost predicate Grows(k: Key)
      reads this
    {
      && Storable(k) && !InArray(k, |arr|) && Absent(nodes, k) && !HasFree(nodes, dummy) && 0 < |nodes|
      && (dummy || (hash(k, |nodes|) < |nodes| && nodes[hash(k, |nodes|)].val != Nil))
    }

    // ----- Searching -----

    method FindNode(k: Key) returns (n: int)
      requires Valid() && k != KNil
      ensures n == NONE ==> Absent(nodes, k)
      ensures n != NONE ==> 0 <= n < |nodes| && Live(nodes[n], k)
    {
      hide Placed, Unused, FirstLive;
      AheadStart(nodes, spots, Main(hash, |nodes|), k);
      n := hash(k, |nodes|);
      while n != NONE && !(nodes[n].key == k && !nodes[n].dead)
        invariant Ahead(nodes, spots, k, n)
        decreases n != NONE, if n == NONE then {} else Beyond(spots, n)
      {
        AheadNext(nodes, spots, k, n);
        if nodes[n].next != NONE { NextBeyond(nodes, spots, n); }
        n := nodes[n].next;
      }
    }

    /** The slot of a key, if it has one. */
    method Find(k: Key) returns (slot: Slot)
      requires Valid()
      ensures SlotOf(arr, nodes, k, slot)
    {
      hide Sound;
      if k == KNil { return Missing; }
      var i := ArrayIndex(k);
      if 1 <= i && i <= |arr| { return AtIndex(i - 1); }
      var n := FindNode(k);
      slot := if n == NONE then Missing else AtNode(n);
    }

    method Get(k: Key) returns (v: Val)
      requires Valid()
      ensures v == At(k)
    {
      var slot := Find(k);
      SlotHolds(hash, arr, nodes, dummy, lastfree, spots, k, slot);
      v := SlotValue(arr, nodes, slot);
    }

    // ----- Entering a key -----

    method GetFreePos() returns (n: int)
      requires dummy ==> lastfree <= 0
      requires !dummy ==> UsedFrom(nodes, lastfree)
      modifies this`lastfree
      ensures n == NONE ==> !HasFree(nodes, dummy) && if dummy then lastfree <= 0 else UsedFrom(nodes, lastfree)
      ensures n != NONE ==>
            !dummy && 0 <= n < |nodes| && nodes[n].key == KNil && n == lastfree && UsedFrom(nodes, n + 1)
    {
      while true
        invariant dummy ==> lastfree <= 0
        invariant !dummy ==> UsedFrom(nodes, lastfree)
        decreases lastfree
      {
        lastfree := lastfree - 1;
        if lastfree < 0 { return NONE; }
        if nodes[lastfree].key == KNil { return lastfree; }
      }
    }

    /** Links key k, which has no slot, into the hash part. */
    method NewKey(k: Key) returns (r: Outcome, slot: Slot)
      requires Valid() && Storable(k) && !InArray(k, |arr|) && Absent(nodes, k)
      modifies this
      ensures Valid() && (r == Ok ==> SlotOf(arr, nodes, k, slot) && slot != Missing) && forall q :: At(q) == old(At(q))
      ensures r == (if old(Grows(k)) && TooMany(old(Keys(arr, nodes)), k) then Overflow else Ok)
      ensures r == Overflow ==> nodes == old(nodes) && Filled(old(arr), arr)
      ensures old(Fits(k)) ==> |arr| == old(|arr|) && |nodes| == old(|nodes|) && dummy == old(dummy)
      ensures old(Fits(k)) && old(DenseBut(nodes, Missing)) ==> DenseBut(nodes, slot)
      decreases if Fits(k) then 0 else 1, 0
    {
      hide Chains, TooMany, Keys, DenseBut, HashValue, Carried, AtMain, AfterMain, Displaced, SpotsMoved, SpotAfter,
            Filled, KeysOk, KeptApart, Pow2;
      r, slot := Ok, Missing;
      var p := hash(k, |nodes|);
      ghost var mp := Main(hash, |nodes|);
      if nodes[p].val != Nil || dummy {
        var n := GetFreePos();
        if n == NONE {
          r := Rehash(k);
          if r == Ok { r, slot := Set(k); }
          return;
        }
        StoredLive(nodes, spots, mp, p);
        var othern := hash(nodes[p].key, |nodes|);
        if othern != p {
          othern := Previous(p);
          EnterDisplaced(hash, arr, nodes, old(lastfree), spots, othern, n, k);
          DisplacedNodes(nodes, p, othern, n, k);
          spots := SpotsMoved(spots, p, n, NewChain(spots));
          nodes := nodes[othern := nodes[othern].(next := n)];
          nodes := nodes[n := nodes[p]];
          nodes := nodes[p := nodes[p].(next := NONE, val := Nil)];
          nodes := nodes[p := nodes[p].(key := k, dead := false)];
        } else {
          EnterAfterMain(hash, arr, nodes, old(lastfree), spots, n, k);
          UnusedFree(nodes, spots, mp, n);
          AfterMainNodes(nodes, p, n, k);
          UsedNodes(nodes, spots, mp, p, n);
          spots := spots[n := SpotAfter(nodes, spots, p)];
          nodes := nodes[n := nodes[n].(next := nodes[p].next)];
          nodes := nodes[p := nodes[p].(next := n)];
          p := n;
          nodes := nodes[p := nodes[p].(key := k, dead := false)];
        }
      } else {
        EnterAtMain(hash, arr, nodes, lastfree, spots, k);
        AtMainNodes(nodes, p, k);
        nodes := nodes[p := nodes[p].(key := k, dead := false)];
      }
      slot := AtNode(p);
    }

    /** The node linked to node p, whose key is not in its main position. */
    method Previous(p: nat) returns (q: int)
      requires 0 < |nodes| && Chains(nodes, spots, Main(hash, |nodes|))
      requires p < |nodes| && nodes[p].key != KNil && hash(nodes[p].key, |nodes|) != p
      ensures 0 <= q < |nodes| && nodes[q].next == p
    {
      hide Placed, Unused, FirstLive;
      assert Linked(nodes, spots);
      BeforeStart(nodes, spots, Main(hash, |nodes|), p);
      q := hash(nodes[p].key, |nodes|);
      hide Chains, Linked;
      while true
        invariant Before(nodes, spots, q, p)
        decreases Beyond(spots, q)
      {
        BeforeNext(nodes, spots, q, p);
        if nodes[q].next == p { return; }
        q := nodes[q].next;
      }
    }

    /** The slot for key k, entering k when it has none. */
    method Set(k: Key) returns (r: Outcome, slot: Slot)
      requires Valid()
      modifies this
      ensures Valid() && (r == Ok ==> SlotOf(arr, nodes, k, slot) && slot != Missing) && forall q :: At(q) == old(At(q))
      ensures r == if k == KNil then IndexIsNil else if k == KNaN then IndexIsNaN
                   else if old(Grows(k)) && TooMany(old(Keys(arr, nodes)), k) then Overflow else Ok
      ensures r != Ok && r != Overflow ==> unchanged(this)
      ensures old(HasSlot(k)) ==> r == Ok && unchanged(this)
      ensures r == Overflow ==> nodes == old(nodes) && Filled(old(arr), arr)
      ensures old(Fits(k)) ==> |arr| == old(|arr|) && |nodes| == old(|nodes|) && dummy == old(dummy)
      ensures old(Fits(k)) && old(DenseBut(nodes, Missing)) ==> DenseBut(nodes, slot)
      decreases if Fits(k) then 0 else 1, 1
    {
      hide Sound, TooMany, Keys;
      r := Ok;
      slot := Find(k);
      if slot == Missing {
        if k == KNil { return IndexIsNil, slot; }
        if k == KNaN { return IndexIsNaN, slot; }
        r, slot := NewKey(k);
      } else {
        assert !Grows(k);
        StorableSlot(hash, arr, nodes, dummy, lastfree, spots, k, slot);
      }
    }

    /** Writes to a slot. */
    method Store(ghost k: Key, slot: Slot, v: Val)
      requires Valid() && SlotOf(arr, nodes, k, slot) && slot != Missing
      modifies this`arr, this`nodes
      ensures Valid() && |arr| == old(|arr|) && |nodes| == old(|nodes|)
      ensures forall q :: At(q) == if q == k then v else old(At(q))
      ensures SameShape(old(nodes), nodes) && OnlySet(old(arr), old(nodes), arr, nodes, v)
      ensures old(DenseBut(nodes, slot)) && (v != Nil || slot.AtIndex?) ==> DenseBut(nodes, Missing)
    {
      hide Chains, HashValue;
      match slot
      case AtIndex(i) =>
        arr := arr[i := v];
      case AtNode(i) =>
        StoredSound(hash, arr, nodes, dummy, lastfree, spots, k, i, v);
        nodes := nodes[i := nodes[i].(val := v)];
    }

    /** Assigns a value to a key. */
    method Put(k: Key, v: Val) returns (r: Outcome)
      requires Valid()
      modifies this
      ensures r == if k == KNil then IndexIsNil else if k == KNaN then IndexIsNaN
                   else if old(Grows(k)) && TooMany(old(Keys(arr, nodes)), k) then Overflow else Ok
      ensures Valid() && forall q :: At(q) == if r == Ok && q == k then v else old(At(q))
      ensures old(HasSlot(k)) ==> r == Ok && unchanged(`lsize, `dummy, `lastfree, `spots)
      ensures old(HasSlot(k)) ==>
            |arr| == old(|arr|) && SameShape(old(nodes), nodes) && OnlySet(old(arr), old(nodes), arr, nodes, v)
      ensures r != Ok && r != Overflow ==> unchanged(this)
      ensures r == Overflow ==> nodes == old(nodes) && Filled(old(arr), arr)
    {
      hide Sound, TooMany, Keys, Grows;
      var slot;
      r, slot := Set(k);
      if r == Ok { Store(k, slot, v); }
    }

    // ----- Growing -----

    /** Replaces the hash part by an empty one with room for so many keys. */
    method SetNodeVector(size: nat) returns (ok: bool)
      requires HashOk(hash) && |arr| <= Pow2(MAXBITS)
      modifies this`lsize, this`nodes, this`dummy, this`lastfree, this`spots
      ensures ok == (size <= Pow2(MAXBITS))
      ensures !ok ==> unchanged(this)
      ensures ok ==> Valid() && dummy == (size == 0) && size <= |nodes| && forall k :: k != KNil ==>
            HashValue(nodes, k) == Nil
      ensures ok ==> DenseBut(nodes, Missing)
    {
      hide Sound, HashValue;
      if size == 0 {
        lsize, dummy := 0, true;
      } else {
        CeilLog2Bounds(size, MAXBITS);
        CeilLog2Bounds(size, CeilLog2(size));
        if CeilLog2(size) > MAXBITS { return false; }
        lsize, dummy := CeilLog2(size), false;
      }
      EmptyTable(hash, arr, lsize, dummy);
      nodes, spots := EmptyNodes(Pow2(lsize)), OwnChains(Pow2(lsize));
      lastfree := if dummy then 0 else |nodes|;
      ok := true;
    }

    /** Moves all values to parts of the given sizes. */
    method Resize(nasize: nat, nhsize: nat) returns (r: Outcome)
      requires Valid() && nasize <= Pow2(MAXBITS) && |Outside(Keys(arr, nodes), nasize)| <= nhsize
      modifies this
      ensures r == if nhsize > Pow2(MAXBITS) then Overflow else Ok
      ensures r == Ok ==> Valid() && |arr| == nasize && forall k :: At(k) == old(At(k))
      ensures r == Ok && |Outside(old(Keys(arr, nodes)), nasize)| < nhsize ==> HasFree(nodes, dummy)
      ensures r == Overflow ==> unchanged(`lsize, `nodes, `dummy, `lastfree, `spots)
      ensures r == Overflow ==> arr == if nasize > |old(arr)| then Resized(old(arr), nasize) else old(arr)
      decreases 0, 4
    {
      hide Sound, ValueAt, HashValue, Moved, Keys, Outside, DenseBut, HasFree, KeysFrom, ArrayKeysIn, Absent, SlotOf,
            ArrayKeys, InArray, Pow2;
      ghost var arr0, nodes0, dummy0, lastfree0, spots0 := arr, nodes, dummy, lastfree, spots;
      assert Sound(hash, arr0, nodes0, dummy0, lastfree0, spots0);
      SoundArray(hash, arr, nodes, dummy, lastfree, spots);
      var aold, nold := arr, nodes;
      if nasize > |aold| { arr := Resized(arr, nasize); }
      var ok := SetNodeVector(nhsize);
      if !ok { return Overflow; }
      if nasize < |aold| {
        Shorter(hash, aold, nodes, dummy, lastfree, spots, nasize);
        arr := Resized(arr, nasize);
      }
      assert arr == Resized(arr0, nasize);
      MovedStart(arr, nodes, arr0, nodes0);
      ghost var all := Keys(arr0, nodes0);
      MoveSlots(aold, nodes0, all, nasize, nhsize);
      ghost var done := ArrayKeysIn(arr0, nasize, |arr0|);
      MoveNodes(nold, arr0, nodes0, dummy0, lastfree0, spots0, done, all, nasize, nhsize);
      r := Ok;
    }

    /** The vanishing slice's turn. */
    method MoveSlots(aold: seq<Val>, ghost nodes0: seq<Node>, ghost all: set<Key>, nasize: nat, ghost nhsize: nat)
      requires |aold| <= Pow2(MAXBITS) && all == Keys(aold, nodes0)
      requires Valid() && |arr| == nasize && dummy == (nhsize == 0) && nhsize <= |nodes|
      requires Moved(arr, nodes, aold, nodes0, {}) && DenseBut(nodes, Missing) && |Outside(all, nasize)| <= nhsize
      modifies this
      ensures Valid() && |arr| == nasize && dummy == (nhsize == 0) && nhsize <= |nodes|
      ensures Moved(arr, nodes, aold, nodes0, ArrayKeysIn(aold, nasize, |aold|)) && DenseBut(nodes, Missing)
      decreases 0, 3
    {
      hide Sound, ValueAt, HashValue, Moved, Keys, Outside, DenseBut, HasFree, ArrayKeysIn, Absent, SlotOf;
      ghost var done: set<Key> := {};
      var i := nasize;
      ArrayKeysEnds(aold, nasize, i);
      while i < |aold|
        invariant nasize <= i && (i <= |aold| || i == nasize)
        invariant Valid() && |arr| == nasize && dummy == (nhsize == 0) && nhsize <= |nodes|
        invariant Moved(arr, nodes, aold, nodes0, done) && DenseBut(nodes, Missing)
        invariant done == ArrayKeysIn(aold, nasize, i)
      {
        SlotMoves(aold, nodes0, i, nasize);
        if aold[i] != Nil {
          MoveOne(KInt(i + 1), aold[i], aold, nodes0, done, all, nhsize);
          done := done + {KInt(i + 1)};
        }
        i := i + 1;
      }
      ArrayKeysEnds(aold, nasize, i);
    }

    /** The hash part's turn, from the last node to the first. */
    method MoveNodes(nold: seq<Node>, ghost arr0: seq<Val>, ghost nodes0: seq<Node>, ghost dummy0: bool,
          ghost lastfree0: int,
                     ghost spots0: seq<Spot>, ghost done0: set<Key>, ghost all: set<Key>, ghost nasize: nat,
                           ghost nhsize: nat)
      requires nold == nodes0 && Sound(hash, arr0, nodes0, dummy0, lastfree0, spots0) && all == Keys(arr0, nodes0)
      requires Valid() && |arr| == nasize && dummy == (nhsize == 0) && nhsize <= |nodes|
      requires Moved(arr, nodes, arr0, nodes0, done0) && DenseBut(nodes, Missing)
      requires done0 == ArrayKeysIn(arr0, nasize, |arr0|) && |Outside(all, nasize)| <= nhsize
      modifies this
      ensures Valid() && |arr| == nasize && forall k :: At(k) == ValueAt(arr0, nodes0, k)
      ensures |Outside(all, nasize)| < nhsize ==> HasFree(nodes, dummy)
      decreases 0, 3
    {
      hide Sound, ValueAt, HashValue, Moved, Keys, Outside, DenseBut, HasFree, KeysFrom, ArrayKeysIn, Absent, SlotOf;
      ghost var done := done0;
      var i := |nold| - 1;
      NoKeysFrom(nodes0, i + 1);
      while i >= 0
        invariant -1 <= i < |nold|
        invariant Valid() && |arr| == nasize && dummy == (nhsize == 0) && nhsize <= |nodes|
        invariant Moved(arr, nodes, arr0, nodes0, done) && DenseBut(nodes, Missing)
        invariant done == done0 + KeysFrom(nodes0, i + 1)
      {
        NodeMoves(hash, arr0, nodes0, dummy0, lastfree0, spots0, i, nasize);
        if nold[i].val != Nil {
          MoveOne(nold[i].key, nold[i].val, arr0, nodes0, done, all, nhsize);
          done := done + {nold[i].key};
        }
        i := i - 1;
      }
      SoundArray(hash, arr0, nodes0, dummy0, lastfree0, spots0);
      AllMoved(hash, arr, nodes, dummy, lastfree, spots, arr0, nodes0, done, nhsize);
    }

    /** One value moves. */
    method MoveOne(k: Key, v: Val, ghost arr0: seq<Val>, ghost nodes0: seq<Node>, ghost done: set<Key>,
          ghost all: set<Key>,
                   ghost nhsize: nat)
      requires Valid() && dummy == (nhsize == 0) && nhsize <= |nodes|
      requires Moved(arr, nodes, arr0, nodes0, done) && DenseBut(nodes, Missing)
      requires done <= all && k in all && k !in done && Storable(k) && v == ValueAt(arr0, nodes0, k) != Nil
      requires |Outside(all, |arr|)| <= nhsize
      modifies this
      ensures Valid() && |arr| == old(|arr|) && |nodes| == old(|nodes|) && dummy == old(dummy)
      ensures Moved(arr, nodes, arr0, nodes0, done + {k}) && DenseBut(nodes, Missing)
      decreases 0, 2
    {
      hide Sound, Moved, Keys, Outside, DenseBut, HasFree, ValueAt, Absent, SlotOf;
      MoveFits(hash, arr, nodes, dummy, lastfree, spots, arr0, nodes0, done, all, nhsize);
      assert Fits(k);
      var r, slot := Set(k);
      Store(k, slot, v);
      forall q ensures ValueAt(arr, nodes, q) == if q == k then v else ValueAt(old(arr), old(nodes), q) {
        assert At(q) == if q == k then v else old(At(q));
      }
      MovedStep(old(arr), old(nodes), arr, nodes, arr0, nodes0, done, k);
    }

    /** Counts the keys of the hash part. */
    method NumUseHash(nums0: seq<int>) returns (nums: seq<int>, totaluse: int, ause: int)
      requires Valid() && Counts(nums0, Ints(ArrayKeys(arr)))
      ensures Counts(nums, Ints(Keys(arr, nodes))) && |Ints(Keys(arr, nodes))| == |Ints(ArrayKeys(arr))| + ause
      ensures |Keys(arr, nodes)| == |ArrayKeys(arr)| + totaluse
    {
      hide Sound, Counts, Ints, ArrayKeys, KeysFrom;
      nums, totaluse, ause := nums0, 0, 0;
      var i := |nodes|;
      NoKeysFrom(nodes, i);
      assert ArrayKeys(arr) + KeysFrom(nodes, i) == ArrayKeys(arr);
      while i != 0
        invariant 0 <= i <= |nodes|
        invariant Counts(nums, Ints(ArrayKeys(arr) + KeysFrom(nodes, i)))
        invariant |Ints(ArrayKeys(arr) + KeysFrom(nodes, i))| == |Ints(ArrayKeys(arr))| + ause
        invariant |ArrayKeys(arr) + KeysFrom(nodes, i)| == |ArrayKeys(arr)| + totaluse
      {
        i := i - 1;
        NodeCounts(hash, arr, nodes, dummy, lastfree, spots, i);
        if nodes[i].val != Nil {
          var counted;
          nums, counted := CountInt(nodes[i].key, nums, ArrayKeys(arr) + KeysFrom(nodes, i + 1));
          ause := ause + counted;
          totaluse := totaluse + 1;
        }
      }
    }

    /** Makes room for key k. */
    method Rehash(k: Key) returns (r: Outcome)
      requires Valid() && Storable(k) && !InArray(k, |arr|) && Absent(nodes, k)
      modifies this
      ensures r == if TooMany(old(Keys(arr, nodes)), k) then Overflow else Ok
      ensures Valid() && (r == Ok ==> Fits(k)) && forall q :: At(q) == old(At(q))
      ensures r == Overflow ==> nodes == old(nodes) && Filled(old(arr), arr)
      decreases 0, 5
    {
      hide Sound, Counts, Ints, Optimal, UpTo, Outside, Keys, UsedSlots, ArrayKeys, TooMany, ValueAt;
      ghost var ks := Keys(arr, nodes);
      SoundArray(hash, arr, nodes, dummy, lastfree, spots);
      NewToKeys(hash, arr, nodes, dummy, lastfree, spots, k);
      var nums, nasize := NumUseArray(arr);
      var totaluse := nasize;
      ArrayInts(arr);
      var used, counted;
      nums, used, counted := NumUseHash(nums);
      nasize := nasize + counted;
      totaluse := totaluse + used;
      nums, counted := CountInt(k, nums, ks);
      nasize := nasize + counted;
      totaluse := totaluse + 1;
      IntsIndices(ks + {k});
      var n, na := ComputeSizes(nums, nasize, Ints(ks + {k}));
      NewSizes(ks, k, n);
      ghost var arr0, nodes0 := arr, nodes;
      r := Resize(n, totaluse - na);
      if r == Overflow {
        Pow2UpTo(lsize);
        StillSound(hash, arr0, nodes0, dummy, lastfree, spots, k, n);
      }
    }

    /** Gives the array part room for so many values. */
    method ResizeArray(nasize: nat) returns (r: Outcome)
      requires Valid() && |arr| <= nasize <= Pow2(MAXBITS)
      modifies this
      ensures r == Ok && Valid() && |arr| == nasize && forall k :: At(k) == old(At(k))
    {
      hide Sound, Keys, Outside, ValueAt, HasFree;
      SizeEnough(hash, arr, nodes, dummy, lastfree, spots, nasize);
      Pow2UpTo(lsize);
      r := Resize(nasize, if dummy then 0 else |nodes|);
    }

    // ----- Traversal and length -----

    /** The first node with a key along its chain, even if the key is dead. */
    method FindAny(k: Key) returns (n: int)
      requires Valid() && k != KNil
      ensures SameAhead(nodes, spots, k, n) && (n != NONE ==> 0 <= n < |nodes| && nodes[n].key == k)
      ensures n == NONE ==> forall i :: 0 <= i < |nodes| ==> nodes[i].key != k
    {
      hide Placed, Unused, FirstLive;
      SameStart(nodes, spots, Main(hash, |nodes|), k);
      n := hash(k, |nodes|);
      while n != NONE && nodes[n].key != k
        invariant SameAhead(nodes, spots, k, n)
        decreases n != NONE, if n == NONE then {} else Beyond(spots, n)
      {
        SameNext(nodes, spots, k, n);
        if nodes[n].next != NONE { NextBeyond(nodes, spots, n); }
        n := nodes[n].next;
      }
    }

    /** The position of a key in the numbering of all entries; a dead key keeps its. */
    method FindIndex(k: Key) returns (ok: bool, e: int)
      requires Valid()
      ensures ok == (k == KNil || InArray(k, |arr|) || exists i :: 0 <= i < |nodes| && nodes[i].key == k)
      ensures ok ==> IndexOf(|arr|, nodes, spots, k, e)
    {
      hide Sound, SameAhead;
      if k == KNil { return true, -1; }
      var i := ArrayIndex(k);
      if 0 < i && i <= |arr| { return true, i - 1; }
      var n := FindAny(k);
      if n == NONE { return false, 0; }
      SoundFound(hash, arr, nodes, dummy, lastfree, spots, k, n);
      ok, e := true, n + |arr|;
    }

    /** The first entry with a value after that of key k. */
    method Next(k: Key) returns (ok: bool, more: bool, ghost e: int, key: Key, val: Val)
      requires Valid()
      ensures ok == (k == KNil || InArray(k, |arr|) || exists i :: 0 <= i < |nodes| && nodes[i].key == k)
      ensures ok ==> exists from ::
            -1 <= from && IndexOf(|arr|, nodes, spots, k, from) && e == NextEntry(arr, nodes, from + 1)
      ensures ok ==> e <= |arr| + |nodes| && more == (e < |arr| + |nodes|)
      ensures ok && more ==> key == EntryKey(arr, nodes, e) && val == EntryValue(arr, nodes, e) == At(key) != Nil
      ensures ok && more ==> IndexOf(|arr|, nodes, spots, key, e)
    {
      hide Sound, Chains, Linked, ValueAt, IndexOf, InArray, NextEntry;
      key, val, more, e := KNil, Nil, false, 0;
      var i;
      ok, i := FindIndex(k);
      if !ok { return; }
      ghost var from := i;
      IndexBound(|arr|, nodes, spots, k, i);
      i := i + 1;
      while i < |arr|
        invariant 0 <= i <= |arr| + |nodes| && NextEntry(arr, nodes, i) == NextEntry(arr, nodes, from + 1)
        decreases |arr| - i
      {
        NextStep(arr, nodes, i);
        if arr[i] != Nil {
          EntryAt(hash, arr, nodes, dummy, lastfree, spots, i);
          more, e, key, val := true, i, KInt(i + 1), arr[i];
          return;
        }
        i := i + 1;
      }
      i := i - |arr|;
      while i < |nodes|
        invariant 0 <= i <= |nodes| && NextEntry(arr, nodes, i + |arr|) == NextEntry(arr, nodes, from + 1)
        decreases |nodes| - i
      {
        NextStep(arr, nodes, i + |arr|);
        if nodes[i].val != Nil {
          EntryAt(hash, arr, nodes, dummy, lastfree, spots, i + |arr|);
          more, e, key, val := true, i + |arr|, nodes[i].key, nodes[i].val;
          return;
        }
        i := i + 1;
      }
      NextEnd(arr, nodes);
      e := |nodes| + |arr|;
    }

    /** The collector marks the keys of emptied entries as dead, if they are objects; nothing else
        changes. */
    method RemoveEntries()
      requires Valid()
      modifies this`nodes
      ensures Valid() && (forall k :: At(k) == old(At(k))) && SameShape(old(nodes), nodes)
      ensures forall i :: 0 <= i < |nodes| ==>
                nodes[i] == if old(nodes)[i].val == Nil && old(nodes)[i].key.KObj? then old(nodes)[i].(dead := true)
                            else old(nodes)[i]
    {
      hide Sound, ValueAt, Chains;
      ghost var ns := nodes;
      var i := 0;
      while i < |nodes|
        invariant 0 <= i <= |nodes| && |nodes| == |ns| && Valid() && forall k :: At(k) == old(At(k))
        invariant forall j :: i <= j < |ns| ==> nodes[j] == ns[j]
        invariant forall j :: 0 <= j < i ==>
                    nodes[j] == if ns[j].val == Nil && ns[j].key.KObj? then ns[j].(dead := true) else ns[j]
      {
        if nodes[i].val == Nil && nodes[i].key.KObj? {
          RemoveOne(hash, arr, nodes, dummy, lastfree, spots, i);
          nodes := nodes[i := nodes[i].(dead := true)];
        }
        i := i + 1;
      }
    }

    /** The program assigns to fields that have a value, and the collector marks dead keys. */
    method AssignFields(step: seq<(Key, Val)>)
      requires Valid()
      modifies this
      ensures Valid() && unchanged(`dummy, `lastfree, `spots) && |arr| == old(|arr|) && SameShape(old(nodes), nodes)
      ensures forall k :: At(k) == Assigned(step, |step|, k, old(At(k)))
    {
      hide Sound, ValueAt, Absent, InArray, TooMany, OnlySet;
      var j := 0;
      while j < |step|
        invariant 0 <= j <= |step| && Valid() && dummy == old(dummy) && lastfree == old(lastfree) && spots == old(spots)
        invariant |arr| == old(|arr|) && SameShape(old(nodes), nodes)
        invariant forall k :: At(k) == Assigned(step, j, k, old(At(k)))
      {
        var slot := Find(step[j].0);
        SlotHolds(hash, arr, nodes, dummy, lastfree, spots, step[j].0, slot);
        if slot != Missing && SlotValue(arr, nodes, slot) != Nil {
          HasSlotAt(arr, nodes, step[j].0, slot);
          var r := Put(step[j].0, step[j].1);
        }
        j := j + 1;
      }
      RemoveEntries();
    }

    /** A program goes through the table with next; before call number j it does the
        assignments plan[j] to fields that have a value, and the collector may run. next never
        fails, no key comes twice, each comes with the value it has then, and when the calls end
        every key has come that still has one. */
    method Traverse(plan: seq<seq<(Key, Val)>>) returns (keys: seq<Key>, vals: seq<Val>)
      requires Valid()
      modifies this
      ensures Valid() && |vals| == |keys| <= |arr| + |nodes|
      ensures forall k :: At(k) == Current(plan, |keys| + 1, k, old(At(k)))
      ensures forall i, j :: 0 <= i < j < |keys| ==> keys[i] != keys[j]
      ensures forall i :: 0 <= i < |keys| ==> vals[i] == Current(plan, i + 1, keys[i], old(At(keys[i]))) != Nil
      ensures forall k :: At(k) != Nil ==> k in keys
    {
      hide Sound, ValueAt, IndexOf, Going, Absent, InArray, NextEntry, Assigned, Current;
      keys, vals := [], [];
      ghost var arr1, nodes1 := arr, nodes;
      forall k ensures ValueAt(arr, nodes, k) == Current(plan, 0, k, ValueAt(arr1, nodes1, k)) {
        NoneYet(plan, k, ValueAt(arr1, nodes1, k));
      }
      ghost var ts: seq<Entries>, es: seq<nat> := [], [];
      var key, more := KNil, true;
      GoingStart(hash, dummy, lastfree, spots, arr, nodes);
      while true
        invariant Valid() && Going(hash, dummy, lastfree, spots, ts, es, keys, arr, nodes) && |ts| == |keys| == |vals|
        invariant key == LastKey(keys)
        invariant forall i :: 0 <= i < |keys| ==>
                    vals[i] == Current(plan, i + 1, keys[i], ValueAt(arr1, nodes1, keys[i])) != Nil
        invariant forall k :: ValueAt(arr, nodes, k) == Current(plan, |keys|, k, ValueAt(arr1, nodes1, k))
        invariant forall j, k :: 0 <= j < |ts| ==>
                    ValueAt(ts[j].arr, ts[j].ns, k) == Current(plan, j + 1, k, ValueAt(arr1, nodes1, k))
        decreases |arr| + |nodes| - |keys|
      {
        ghost var arr0, nodes0 := arr, nodes;
        var step := if |keys| < |plan| then plan[|keys|] else [];
        AssignFields(step);
        forall k ensures ValueAt(arr, nodes, k) == Assigned(step, |step|, k, ValueAt(arr0, nodes0, k)) {
          assert At(k) == Assigned(step, |step|, k, ValueAt(arr0, nodes0, k));
        }
        GoingOn(hash, dummy, lastfree, spots, ts, es, keys, arr0, nodes0, arr, nodes, step);
        forall k ensures ValueAt(arr, nodes, k) == Current(plan, |keys| + 1, k, ValueAt(arr1, nodes1, k)) {
          OneMore(plan, |keys|, k, ValueAt(arr1, nodes1, k));
        }
        KeyThere(hash, dummy, lastfree, spots, ts, es, keys, arr, nodes);
        ghost var e;
        var ok, val;
        ok, more, e, key, val := Next(LastKey(keys));
        ghost var from :| -1 <= from && IndexOf(|arr|, nodes, spots, LastKey(keys), from)
              && e == NextEntry(arr, nodes, from + 1);
        if !more {
          WentThrough(hash, dummy, lastfree, spots, ts, es, keys, arr, nodes, from, plan, arr1, nodes1);
          return;
        }
        GoneNext(hash, dummy, lastfree, spots, ts, es, keys, arr, nodes, from, e, key);
        ts, es := ts + [Entries(arr, nodes)], es + [e];
        keys, vals := keys + [key], vals + [val];
        StepsLeft(hash, dummy, lastfree, spots, ts, es, keys, arr, nodes);
      }
    }

    /** Some border of the table: an index with a value, or 0, before one without. */
    method GetN() returns (n: nat)
      requires Valid()
      ensures Border(arr, nodes, n)
    {
      hide Sound, HashValue;
      SoundArray(hash, arr, nodes, dummy, lastfree, spots);
      MaxSize();
      var j := |arr|;
      if j > 0 && arr[j - 1] == Nil {
        n := ArrayBorder();
      } else if dummy {
        OnlyFree(arr, nodes, j + 1);
        n := j;
      } else {
        n := UnboundSearch(j);
      }
    }

    method ArrayBorder() returns (i: nat)
      requires 0 < |arr| <= MAX_INT && arr[|arr| - 1] == Nil
      ensures Border(arr, nodes, i) && i < |arr|
    {
      hide HashValue;
      var j := |arr|;
      i := 0;
      while j - i > 1
        invariant 0 <= i < j <= |arr| && (i == 0 || arr[i - 1] != Nil) && arr[j - 1] == Nil
      {
        var m := (i + j) / 2;
        if arr[m - 1] == Nil { j := m; } else { i := m; }
      }
    }

    method UnboundSearch(j0: nat) returns (n: nat)
      requires Valid() && j0 <= Pow2(MAXBITS) && (j0 == 0 || At(KInt(j0)) != Nil)
      ensures Border(arr, nodes, n)
    {
      hide Sound, ValueAt;
      MaxSize();
      var i, j := j0, j0 + 1;
      var v := Get(KInt(j));
      while v != Nil
        invariant 0 <= i < j <= MAX_INT && (i == 0 || At(KInt(i)) != Nil) && v == At(KInt(j))
        decreases MAX_INT - j
      {
        i := j;
        j := j * 2;
        if j > MAX_INT {
          n := LinearSearch();
          return;
        }
        v := Get(KInt(j));
      }
      while j - i > 1
        invariant 0 <= i < j <= MAX_INT && (i == 0 || At(KInt(i)) != Nil) && At(KInt(j)) == Nil
      {
        var m := (i + j) / 2;
        v := Get(KInt(m));
        if v == Nil { j := m; } else { i := m; }
      }
      n := i;
    }

    /** The last resort; a table has too few entries to fill all integers. */
    method LinearSearch() returns (n: nat)
      requires Valid()
      ensures Border(arr, nodes, n) && n < MAX_INT
    {
      hide Sound, ValueAt;
      var i := 1;
      var v := Get(KInt(i));
      while v != Nil
        invariant 1 <= i <= 0x800_0001 && v == At(KInt(i)) && forall m :: 1 <= m < i ==> At(KInt(m)) != Nil
        decreases 0x800_0002 - i
      {
        Pow2UpTo(lsize);
        FewIntegers(hash, arr, nodes, dummy, lastfree, spots, i);
        i := i + 1;
        v := Get(KInt(i));
      }
      n := i - 1;
    }

    /** An empty table. */
    constructor (hash: (Key, nat) -> nat)
      requires HashOk(hash)
      ensures Valid() && this.hash == hash && |arr| == 0 && forall k :: At(k) == Nil
    {
      this.hash := hash;
      arr, lsize, nodes, dummy, lastfree := [], 0, EmptyNodes(1), true, 0;
      spots := OwnChains(1);
      new;
      hide Sound, HashValue, ValueAt;
      EmptyTable(hash, arr, 0, true);
    }

    /** An empty table with room for so many values. */
    static method New(hash: (Key, nat) -> nat, narray: nat, nhash: nat) returns (r: Outcome, t: Table)
      requires HashOk(hash) && narray <= Pow2(MAXBITS)
      ensures fresh(t) && t.hash == hash
      ensures r == if nhash <= Pow2(MAXBITS) then Ok else Overflow
      ensures r == Ok ==> t.Valid() && |t.arr| == narray && nhash <= |t.nodes| && forall k :: t.At(k) == Nil
    {
      t := new Table(hash);
      t.arr := Resized(t.arr, narray);
      var ok := t.SetNodeVector(nhash);
      r := if ok then Ok else Overflow;
      hide Sound, HashValue;
    }
  }

  // ----- Facts used above -----

  /** What a traversal has shown when next finds no more. */
  lemma WentThrough(hash: (Key, nat) -> nat, dummy: bool, lastfree: int, sp: seq<Spot>, ts: seq<Entries>, es: seq<nat>,
        ks: seq<Key>, arr: seq<Val>, ns: seq<Node>, from: int, plan: seq<seq<(Key, Val)>>, arr0: seq<Val>,
              ns0: seq<Node>)
    requires Going(hash, dummy, lastfree, sp, ts, es, ks, arr, ns) && IndexOf(|arr|, ns, sp, LastKey(ks), from)
          && |ts| == |ks|
    requires Sound(hash, arr, ns, dummy, lastfree, sp) && |arr| + |ns| == NextEntry(arr, ns, from + 1)
    requires forall k :: ValueAt(arr, ns, k) == Current(plan, |ks| + 1, k, ValueAt(arr0, ns0, k))
    requires forall j, k :: 0 <= j < |ts| ==>
               ValueAt(ts[j].arr, ts[j].ns, k) == Current(plan, j + 1, k, ValueAt(arr0, ns0, k))
    ensures |ks| <= |arr| + |ns|
    ensures forall i, j :: 0 <= i < j < |ks| ==> ks[i] != ks[j]
    ensures forall k :: ValueAt(arr, ns, k) != Nil ==> k in ks
  {
    hide Going, Sound, IndexOf, NextEntry, ValueAt, Current;
    StepsLeft(hash, dummy, lastfree, sp, ts, es, ks, arr, ns);
    forall i, j | 0 <= i < j < |ks| ensures ks[i] != ks[j] {
      VisitedOnce(hash, dummy, lastfree, sp, ts, es, ks, arr, ns, i, j);
    }
    forall k | ValueAt(arr, ns, k) != Nil ensures k in ks {
      forall j | 0 <= j < |ts| ensures ValueAt(ts[j].arr, ts[j].ns, k) != Nil {
        StillThere(plan, j + 1, |ks| + 1, k, ValueAt(arr0, ns0, k));
      }
      AllVisited(hash, dummy, lastfree, sp, ts, es, ks, arr, ns, from, k);
    }
  }

  lemma HasSlotAt(arr: seq<Val>, ns: seq<Node>, k: Key, slot: Slot)
    requires SlotOf(arr, ns, k, slot) && slot != Missing
    ensures k != KNil && (InArray(k, |arr|) || !Absent(ns, k))
  {
  }

  lemma OnlyFree(arr: seq<Val>, ns: seq<Node>, j: int)
    requires ns == [FREE] && j > |arr|
    ensures ValueAt(arr, ns, KInt(j)) == Nil
  {
  }

  lemma StorableSlot(hash: (Key, nat) -> nat, arr: seq<Val>, ns: seq<Node>, dummy: bool, lastfree: int, sp: seq<Spot>,
        k: Key, slot: Slot)
    requires Sound(hash, arr, ns, dummy, lastfree, sp) && SlotOf(arr, ns, k, slot) && slot != Missing
    ensures Storable(k)
  {
  }

  lemma DisplacedNodes(ns: seq<Node>, p: int, prev: int, n: int, k: Key)
    requires 0 <= p < |ns| && 0 <= prev < |ns| && 0 <= n < |ns| && p != prev && p != n && n != prev
    ensures var m1 := ns[prev := ns[prev].(next := n)]; var m2 := m1[n := m1[p]];
            var m3 := m2[p := m2[p].(next := NONE, val := Nil)];
            m3[p := m3[p].(key := k, dead := false)] == Displaced(ns, p, prev, n, k)
  {
  }

  lemma AfterMainNodes(ns: seq<Node>, p: int, n: int, k: Key)
    requires 0 <= p < |ns| && 0 <= n < |ns| && p != n && ns[n] == FREE
    ensures var m1 := ns[n := ns[n].(next := ns[p].next)]; var m2 := m1[p := m1[p].(next := n)];
            m2[n := m2[n].(key := k, dead := false)] == AfterMain(ns, p, n, k)
  {
  }

  lemma AtMainNodes(ns: seq<Node>, p: int, k: Key)
    requires 0 <= p < |ns| && ns[p].val == Nil
    ensures ns[p := ns[p].(key := k, dead := false)] == AtMain(ns, p, k)
  {
  }

  lemma Pow2UpTo(i: nat)
    requires i <= MAXBITS
    ensures Pow2(i) <= Pow2(MAXBITS)
  {
    if i < MAXBITS { Pow2Monotone(i, MAXBITS); }
  }

  lemma EmptyTable(hash: (Key, nat) -> nat, arr: seq<Val>, lsize: nat, dummy: bool)
    requires HashOk(hash) && |arr| <= Pow2(MAXBITS) && (dummy ==> lsize == 0)
    ensures Sound(hash, arr, EmptyNodes(Pow2(lsize)), dummy, if dummy then 0 else Pow2(lsize), OwnChains(Pow2(lsize)))
    ensures DenseBut(EmptyNodes(Pow2(lsize)), Missing)
    ensures forall k :: k != KNil ==> HashValue(EmptyNodes(Pow2(lsize)), k) == Nil
    ensures |arr| == 0 ==> forall k :: ValueAt(arr, EmptyNodes(Pow2(lsize)), k) == Nil
    ensures Pow2(0) == 1
  {
    hide Sound, HashValue;
    EmptySound(hash, arr, Pow2(lsize), dummy);
  }

  lemma Shorter(hash: (Key, nat) -> nat, arr: seq<Val>, ns: seq<Node>, dummy: bool, lastfree: int, sp: seq<Spot>,
        n: nat)
    requires Sound(hash, arr, ns, dummy, lastfree, sp) && n <= |arr|
    ensures Sound(hash, Resized(arr, n), ns, dummy, lastfree, sp)
  {
    hide Chains;
  }

  lemma SlotMoves(arr: seq<Val>, ns: seq<Node>, i: nat, lo: nat)
    requires lo <= i < |arr| <= Pow2(MAXBITS)
    ensures var k := KInt(i + 1); var done := ArrayKeysIn(arr, lo, i);
            && ValueAt(arr, ns, k) == arr[i] && done <= Keys(arr, ns) && k !in done
            && ArrayKeysIn(arr, lo, i + 1) == (if arr[i] != Nil then done + {k} else done)
            && (arr[i] != Nil ==> k in Keys(arr, ns))
  {
    hide ValueAt, ArrayKeysIn, KeysFrom, ArrayKeys;
    SlotKey(arr, ns, i, lo);
    OldKeysWithin(arr, ns, lo, i, |ns|);
  }

  lemma NodeMoves(hash: (Key, nat) -> nat, arr: seq<Val>, ns: seq<Node>, dummy: bool, lastfree: int, sp: seq<Spot>,
        i: nat, lo: nat)
    requires Sound(hash, arr, ns, dummy, lastfree, sp) && i < |ns|
    ensures var k := ns[i].key; var done0 := ArrayKeysIn(arr, lo, |arr|); var done := done0 + KeysFrom(ns, i + 1);
            && done <= Keys(arr, ns)
            && done0 + KeysFrom(ns, i) == (if ns[i].val != Nil then done + {k} else done)
            && (ns[i].val != Nil ==>
                  Storable(k) && ValueAt(arr, ns, k) == ns[i].val && k !in done && k in Keys(arr, ns))
  {
    hide ValueAt, ArrayKeysIn, KeysFrom, ArrayKeys, Sound;
    NodeKey(hash, arr, ns, dummy, lastfree, sp, i, lo);
    OldKeysWithin(arr, ns, lo, |arr|, i + 1);
  }

  lemma AllMoved(hash: (Key, nat) -> nat, arr: seq<Val>, ns: seq<Node>, dummy: bool, lastfree: int, sp: seq<Spot>,
                 arr0: seq<Val>, ns0: seq<Node>, done: set<Key>, nhsize: int)
    requires Sound(hash, arr, ns, dummy, lastfree, sp) && Moved(arr, ns, arr0, ns0, done) && DenseBut(ns, Missing)
    requires |arr0| <= Pow2(MAXBITS) && done == ArrayKeysIn(arr0, |arr|, |arr0|) + KeysFrom(ns0, 0)
    requires |Outside(Keys(arr0, ns0), |arr|)| <= nhsize && if dummy then nhsize == 0 else nhsize <= |ns|
    ensures forall k :: ValueAt(arr, ns, k) == ValueAt(arr0, ns0, k)
    ensures |Outside(Keys(arr0, ns0), |arr|)| < nhsize ==> HasFree(ns, dummy)
  {
    hide Sound, Moved, ValueAt, ArrayKeysIn, KeysFrom, ArrayKeys, DenseBut, Outside, HasFree;
    OldKeysWithin(arr0, ns0, |arr|, |arr0|, 0);
    MoveFits(hash, arr, ns, dummy, lastfree, sp, arr0, ns0, done, Keys(arr0, ns0), nhsize);
    forall k | ValueAt(arr0, ns0, k) != Nil ensures k in done || (InArray(k, |arr|) && InArray(k, |arr0|)) {
      ValueKey(arr0, ns0, |arr|, k);
    }
    MovedAll(arr, ns, arr0, ns0, done);
  }

  lemma NodeCounts(hash: (Key, nat) -> nat, arr: seq<Val>, ns: seq<Node>, dummy: bool, lastfree: int, sp: seq<Spot>,
        i: nat)
    requires Sound(hash, arr, ns, dummy, lastfree, sp) && i < |ns|
    ensures var k := ns[i].key; var ks := ArrayKeys(arr) + KeysFrom(ns, i + 1);
            && ArrayKeys(arr) + KeysFrom(ns, i) == (if ns[i].val != Nil then ks + {k} else ks)
            && (ns[i].val != Nil ==> k !in ks)
  {
    hide ArrayKeysIn, KeysFrom, ArrayKeys, Sound;
    NodeKey(hash, arr, ns, dummy, lastfree, sp, i, 0);
    NotArrayKey(hash, arr, ns, dummy, lastfree, sp, i, 0);
  }

  lemma NewToKeys(hash: (Key, nat) -> nat, arr: seq<Val>, ns: seq<Node>, dummy: bool, lastfree: int, sp: seq<Spot>,
        k: Key)
    requires Sound(hash, arr, ns, dummy, lastfree, sp) && Storable(k) && !InArray(k, |arr|) && Absent(ns, k)
    ensures k !in Keys(arr, ns)
  {
    hide Sound, Keys;
    if k in Keys(arr, ns) { KeyValue(hash, arr, ns, dummy, lastfree, sp, k); }
  }

  /** The sizes chosen leave room for every key, k included. */
  lemma NewSizes(ks: set<Key>, k: Key, n: int)
    requires k !in ks && Optimal(Ints(ks + {k}), n)
    ensures var nh := |ks| + 1 - |UpTo(Ints(ks + {k}), n)|;
            && 0 <= n <= Pow2(MAXBITS) && |Outside(ks, n)| <= nh && (InArray(k, n) || |Outside(ks, n)| < nh)
            && nh == |Outside(ks + {k}, n)| && (TooMany(ks, k) <==> nh > Pow2(MAXBITS))
  {
    hide Optimal, UpTo, Ints;
    OptimalSize(Ints(ks + {k}), n);
    SplitKeys(ks + {k}, n);
    assert |ks + {k}| == |ks| + 1;
    if InArray(k, n) {
      assert Outside(ks + {k}, n) == Outside(ks, n);
    } else {
      assert Outside(ks + {k}, n) == Outside(ks, n) + {k};
    }
    if m :| Optimal(Ints(ks + {k}), m) && |Outside(ks + {k}, m)| > Pow2(MAXBITS) { OneOptimal(Ints(ks + {k}), m, n); }
  }

  lemma SizeEnough(hash: (Key, nat) -> nat, arr: seq<Val>, ns: seq<Node>, dummy: bool, lastfree: int, sp: seq<Spot>,
        n: int)
    requires Sound(hash, arr, ns, dummy, lastfree, sp) && |arr| <= n
    ensures |Outside(Keys(arr, ns), n)| <= if dummy then 0 else |ns|
  {
    hide Chains;
    MaxSize();
    assert Outside(Keys(arr, ns), n) <= KeysFrom(ns, 0);
    Fewer(Outside(Keys(arr, ns), n), KeysFrom(ns, 0));
    FewNodeKeys(ns, 0);
    if dummy { assert KeysFrom(ns, 0) == {}; }
  }

  /** A table of fewer keys than the largest hash part never overflows. */
  lemma EnoughRoom(ks: set<Key>, k: Key)
    requires |ks| < Pow2(MAXBITS)
    ensures !TooMany(ks, k)
  {
    if n :| Optimal(Ints(ks + {k}), n) && |Outside(ks + {k}, n)| > Pow2(MAXBITS) {
      Fewer(Outside(ks + {k}, n), ks + {k});
      assert false;
    }
  }

  ghost function OtherKeys(ns: seq<Node>, i: nat): set<Key> {
    set j | 0 <= j < |ns| && j != i && ns[j].val != Nil :: ns[j].key
  }

  lemma FewOthers(ns: seq<Node>, i: nat)
    requires i < |ns|
    ensures |OtherKeys(ns, i)| <= |ns| - 1
  {
    var ms := ns[..i] + ns[i + 1..];
    FewNodeKeys(ms, 0);
    forall k | k in OtherKeys(ns, i) ensures k in KeysFrom(ms, 0) {
      var j :| 0 <= j < |ns| && j != i && ns[j].val != Nil && ns[j].key == k;
      assert ms[if j < i then j else j - 1] == ns[j];
    }
    Fewer(OtherKeys(ns, i), KeysFrom(ms, 0));
  }

  /** An overflow comes when the array part has already grown. No node then has a key that
      would belong there: with one node to spare, the keys would have fitted. */
  lemma NoneStranded(arr: seq<Val>, ns: seq<Node>, k: Key, n: int, i: nat)
    requires |arr| <= n <= Pow2(MAXBITS) && |ns| <= Pow2(MAXBITS) && i < |ns|
    requires |Outside(Keys(arr, ns) + {k}, n)| > Pow2(MAXBITS)
    ensures !InArray(ns[i].key, n)
  {
    MaxSize();
    var o, others := Outside(Keys(arr, ns) + {k}, n), OtherKeys(ns, i);
    FewOthers(ns, i);
    if InArray(ns[i].key, n) {
      forall q | q in o ensures q in others + {k} {
        if q != k { assert q in KeysFrom(ns, 0); }
      }
      Fewer(o, others + {k});
      assert false;
    }
  }

  /** So the table is as good as before, and holds the same. */
  lemma StillSound(hash: (Key, nat) -> nat, arr: seq<Val>, ns: seq<Node>, dummy: bool, lastfree: int, sp: seq<Spot>,
        k: Key, n: int)
    requires Sound(hash, arr, ns, dummy, lastfree, sp) && |ns| <= Pow2(MAXBITS) && 0 <= n <= Pow2(MAXBITS)
    requires |Outside(Keys(arr, ns) + {k}, n)| > Pow2(MAXBITS)
    ensures n > |arr| ==> Sound(hash, Resized(arr, n), ns, dummy, lastfree, sp)
    ensures n > |arr| ==> forall q :: ValueAt(Resized(arr, n), ns, q) == ValueAt(arr, ns, q)
  {
    if n > |arr| {
      hide Chains, Outside, Keys;
      forall i | 0 <= i < |ns| ensures !InArray(ns[i].key, n) { NoneStranded(arr, ns, k, n, i); }
    }
  }
}
