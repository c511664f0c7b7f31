/** How many keys a table holds, and where a resized table will keep them. */
module TableCounts {
  import opened NodeChains
  import opened ArraySizing
  import opened TableEntries

  ghost function ArrayKeys(arr: seq<Val>): set<Key> {
    set i | 0 <= i < |arr| && arr[i] != Nil :: KInt(i + 1)
  }

  /** The keys with a value in nodes lo and up. */
  ghost function KeysFrom(ns: seq<Node>, lo: int): set<Key> {
    set i | 0 <= i < |ns| && lo <= i && ns[i].val != Nil :: ns[i].key
  }

  lemma NoKeysFrom(ns: seq<Node>, lo: int)
    requires lo >= |ns|
    ensures KeysFrom(ns, lo) == {}
  {
  }

  ghost function Keys(arr: seq<Val>, ns: seq<Node>): set<Key> {
    ArrayKeys(arr) + KeysFrom(ns, 0)
  }

  /** The keys of ks that could live in an array part. */
  ghost function Ints(ks: set<Key>): set<int> {
    set k | k in ks && InArray(k, Pow2(MAXBITS)) :: ArrayIndex(k)
  }

  /** The keys of ks that an array part of size n leaves to the hash part. */
  ghost function Outside(ks: set<Key>, n: int): set<Key> {
    set k | k in ks && !InArray(k, n)
  }

  lemma MaxSize()
    ensures Pow2(MAXBITS) == 0x400_0000
  {
    assert Pow2(10) == 1024;
    assert Pow2(20) == 1024 * Pow2(10);
    assert Pow2(26) == 64 * Pow2(20);
  }

  lemma InArrayInt(k: Key, n: int)
    requires n <= Pow2(MAXBITS)
    ensures InArray(k, n) <==> k.KInt? && 1 <= k.i <= n
  {
    MaxSize();
  }

  lemma IntsIndices(ks: set<Key>)
    ensures Indices(Ints(ks))
  {
  }

  lemma IntsPlus(ks: set<Key>, k: Key)
    ensures Ints(ks + {k}) == if InArray(k, Pow2(MAXBITS)) then Ints(ks) + {ArrayIndex(k)} else Ints(ks)
  {
    forall i ensures i in Ints(ks + {k}) <==> i in Ints(ks) || (InArray(k, Pow2(MAXBITS)) && i == ArrayIndex(k)) {
      if i in Ints(ks + {k}) {
        var q :| q in ks + {k} && InArray(q, Pow2(MAXBITS)) && ArrayIndex(q) == i;
      }
    }
  }

  lemma IntsNew(ks: set<Key>, k: Key)
    requires k !in ks
    ensures ArrayIndex(k) !in Ints(ks)
  {
    forall q | q in ks && InArray(q, Pow2(MAXBITS)) ensures ArrayIndex(q) != ArrayIndex(k) {
      assert q == KInt(ArrayIndex(q)) && q != k;
    }
  }

  lemma {:induction false} AsMany(ix: set<int>, ks: set<Key>)
    requires forall k :: k in ks <==> k.KInt? && k.i in ix
    ensures |ks| == |ix|
    decreases ix
  {
    if k :| k in ks {
      var i := k.i;
      assert i in ix;
      AsMany(ix - {i}, ks - {KInt(i)});
    } else {
      forall i ensures i !in ix { assert KInt(i) !in ks; }
      assert ix == {} && ks == {};
    }
  }

  /** What goes to the array part and what does not make up all keys. */
  lemma SplitKeys(ks: set<Key>, n: int)
    requires n <= Pow2(MAXBITS)
    ensures |ks| == |UpTo(Ints(ks), n)| + |Outside(ks, n)|
  {
    var inside := set k | k in ks && InArray(k, n);
    forall k ensures k in inside <==> k.KInt? && k.i in UpTo(Ints(ks), n) {
      InArrayInt(k, n);
      if k in inside { assert InArray(k, Pow2(MAXBITS)); }
      if k.KInt? && k.i in UpTo(Ints(ks), n) {
        var q :| q in ks && InArray(q, Pow2(MAXBITS)) && ArrayIndex(q) == k.i;
        assert q == k;
      }
    }
    AsMany(UpTo(Ints(ks), n), inside);
    assert ks == inside + Outside(ks, n);
  }

  predicate UsedSlot(arr: seq<Val>, i: int) {
    1 <= i <= |arr| && arr[i - 1] != Nil
  }

  /** The values in the array part, by index. */
  ghost function UsedSlots(arr: seq<Val>): set<int> {
    set i | 1 <= i <= |arr| && UsedSlot(arr, i)
  }

  lemma UsedSlotIn(arr: seq<Val>, i: int)
    requires 1 <= i <= |arr|
    ensures i in UsedSlots(arr) <==> arr[i - 1] != Nil
  {
  }

  lemma ArrayInts(arr: seq<Val>)
    requires |arr| <= Pow2(MAXBITS)
    ensures Ints(ArrayKeys(arr)) == UsedSlots(arr) && |ArrayKeys(arr)| == |UsedSlots(arr)|
  {
    forall k ensures k in ArrayKeys(arr) <==> k.KInt? && k.i in UsedSlots(arr) {
      if k.KInt? && k.i in UsedSlots(arr) { assert arr[k.i - 1] != Nil; }
    }
    AsMany(UsedSlots(arr), ArrayKeys(arr));
    IntsOf(ArrayKeys(arr), UsedSlots(arr));
  }

  lemma IntsOf(ks: set<Key>, ix: set<int>)
    requires forall k :: k in ks <==> k.KInt? && k.i in ix
    requires forall i :: i in ix ==> 1 <= i <= Pow2(MAXBITS)
    ensures Ints(ks) == ix
  {
    MaxSize();
    forall i | i in ix ensures i in Ints(ks) {
      assert KInt(i) in ks && InArray(KInt(i), Pow2(MAXBITS));
    }
    forall i | i in Ints(ks) ensures i in ix {
      var q :| q in ks && InArray(q, Pow2(MAXBITS)) && ArrayIndex(q) == i;
    }
  }

  // ----- Counting the array part -----

  ghost function Between(s: set<int>, lo: int, hi: int): set<int> {
    set k | k in s && lo < k < hi
  }

  lemma SliceBetween(s: set<int>, lg: nat)
    requires forall k :: k in s ==> 1 <= k
    ensures Slice(s, lg) == Between(s, if lg == 0 then 0 else Pow2(lg - 1), Pow2(lg) + 1)
  {
    forall k | k in s
      ensures k in Slice(s, lg) <==> k in Between(s, if lg == 0 then 0 else Pow2(lg - 1), Pow2(lg) + 1)
    {
      CeilLog2Bounds(k, lg);
      if 0 < lg { CeilLog2Bounds(k, lg - 1); }
    }
  }

  lemma BetweenStep(s: set<int>, lo: int, i: int)
    requires lo < i
    ensures |Between(s, lo, i + 1)| == |Between(s, lo, i)| + (if i in s then 1 else 0)
  {
    if i in s {
      assert Between(s, lo, i + 1) == Between(s, lo, i) + {i};
    } else {
      assert Between(s, lo, i + 1) == Between(s, lo, i);
    }
  }

  lemma NothingPast(s: set<int>, lg: nat, n: int, j: nat)
    requires (forall k :: k in s ==> 1 <= k <= n) && lg <= j && n <= if lg == 0 then 0 else Pow2(lg - 1)
    ensures Slice(s, j) == {}
  {
    SliceBetween(s, j);
    if 0 < lg < j { Pow2Monotone(lg - 1, j - 1); }
  }

  /** The first n slices are counted. */
  ghost predicate CountedTo(nums: seq<int>, s: set<int>, lg: int) {
    && |nums| == MAXBITS + 1
    && forall j :: 0 <= j <= MAXBITS ==> nums[j] == if j < lg then |Slice(s, j)| else 0
  }

  /** Counts the array part into slices. */
  method NumUseArray(arr: seq<Val>) returns (nums: seq<int>, ause: int)
    requires |arr| <= Pow2(MAXBITS)
    ensures Counts(nums, UsedSlots(arr)) && ause == |UsedSlots(arr)|
  {
    hide UsedSlots, CountedTo, Counts;
    ghost var s := UsedSlots(arr);
    var lg, ttlg, i := 0, 1, 1;
    nums := NoCounts(s);
    ause := 0;
    assert Between(s, 0, 1) == {};
    while lg <= MAXBITS
      invariant 0 <= lg <= MAXBITS + 1 && ttlg == Pow2(lg) && CountedTo(nums, s, lg)
      invariant i == 1 + if lg == 0 then 0 else if Pow2(lg - 1) <= |arr| then Pow2(lg - 1) else |arr|
      invariant ause == |Between(s, 0, i)|
    {
      var lc, lim := 0, ttlg;
      ghost var lo := i - 1;
      if lim > |arr| {
        lim := |arr|;
        if i > lim {
          Finished(arr, nums, lg);
          return;
        }
      }
      assert Between(s, lo, i) == {};
      while i <= lim
        invariant lo + 1 <= i <= lim + 1 && lim <= |arr| && lc == |Between(s, lo, i)|
        invariant ause + lc == |Between(s, 0, i)|
      {
        BetweenStep(s, lo, i);
        BetweenStep(s, 0, i);
        UsedSlotIn(arr, i);
        if arr[i - 1] != Nil { lc := lc + 1; }
        i := i + 1;
      }
      SliceCounted(arr, nums, lg, lo, lim, lc);
      nums := nums[lg := nums[lg] + lc];
      ause := ause + lc;
      lg, ttlg := lg + 1, 2 * ttlg;
    }
    AllSlices(arr, nums);
  }

  function NoCounts(ghost s: set<int>): (nums: seq<int>)
    ensures CountedTo(nums, s, 0)
  {
    seq(MAXBITS + 1, i => 0)
  }

  lemma SliceCounted(arr: seq<Val>, nums: seq<int>, lg: nat, lo: int, lim: int, lc: int)
    requires CountedTo(nums, UsedSlots(arr), lg) && lg <= MAXBITS
    requires lim == if Pow2(lg) <= |arr| then Pow2(lg) else |arr|
    requires lo == if lg == 0 then 0 else if Pow2(lg - 1) <= |arr| then Pow2(lg - 1) else |arr|
    requires lo <= lim && lc == |Between(UsedSlots(arr), lo, lim + 1)| && (lo < lim || lc == 0)
    ensures |nums| == MAXBITS + 1 && CountedTo(nums[lg := nums[lg] + lc], UsedSlots(arr), lg + 1)
  {
    var s := UsedSlots(arr);
    SliceBetween(s, lg);
    assert Slice(s, lg) == Between(s, lo, lim + 1);
  }

  lemma Finished(arr: seq<Val>, nums: seq<int>, lg: nat)
    requires CountedTo(nums, UsedSlots(arr), lg) && lg <= MAXBITS
    requires |arr| <= if lg == 0 then 0 else Pow2(lg - 1)
    ensures Counts(nums, UsedSlots(arr)) && Between(UsedSlots(arr), 0, |arr| + 1) == UsedSlots(arr)
  {
    var s := UsedSlots(arr);
    forall j | 0 <= j <= MAXBITS ensures nums[j] == |Slice(s, j)| {
      if lg <= j { NothingPast(s, lg, |arr|, j); }
    }
  }

  lemma AllSlices(arr: seq<Val>, nums: seq<int>)
    requires CountedTo(nums, UsedSlots(arr), MAXBITS + 1) && |arr| <= Pow2(MAXBITS)
    ensures Counts(nums, UsedSlots(arr)) && Between(UsedSlots(arr), 0, |arr| + 1) == UsedSlots(arr)
  {
  }
}
