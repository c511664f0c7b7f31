/** Choosing the size of a table's array part: counting integer keys in slices
    between powers of two. */
module ArraySizing {

  const MAXBITS: nat := 26

  function Pow2(n: nat): (p: nat)
    ensures 0 < p
  {
    if n == 0 then 1 else 2 * Pow2(n - 1)
  }

  lemma {:induction false} Pow2Monotone(a: nat, b: nat)
    requires a < b
    ensures 2 * Pow2(a) <= Pow2(b)
    decreases b
  {
    if a < b - 1 { Pow2Monotone(a, b - 1); }
  }

  /** The smallest i with k <= 2^i. */
  function CeilLog2(k: int): nat {
    if k <= 1 then 0 else 1 + CeilLog2((k + 1) / 2)
  }

  lemma {:induction false} CeilLog2Bounds(k: int, i: nat)
    requires 1 <= k
    ensures CeilLog2(k) <= i <==> k <= Pow2(i)
    decreases i
  {
    if 1 < k && 0 < i { CeilLog2Bounds((k + 1) / 2, i - 1); }
    else if 1 < k { assert 1 <= CeilLog2(k); }
  }

  /** The keys between the powers of two i - 1 and i. */
  ghost function Slice(s: set<int>, i: nat): set<int> {
    set k | k in s && CeilLog2(k) == i
  }

  ghost function UpTo(s: set<int>, n: int): set<int> {
    set k | k in s && k <= n
  }

  ghost predicate Indices(s: set<int>) {
    forall k :: k in s ==> 1 <= k <= Pow2(MAXBITS)
  }

  /** nums[i] is the number of keys in slice i. */
  ghost predicate Counts(nums: seq<int>, s: set<int>) {
    |nums| == MAXBITS + 1 && forall i :: 0 <= i <= MAXBITS ==> nums[i] == |Slice(s, i)|
  }

  lemma {:induction false} IntervalSize(s: set<int>, lo: int, hi: int)
    requires lo <= hi && forall k :: k in s ==> lo < k <= hi
    ensures |s| <= hi - lo
    decreases hi - lo
  {
    if lo < hi {
      IntervalSize(s - {hi}, lo, hi - 1);
    } else {
      forall k | k in s ensures false { }
      assert s == {};
    }
  }

  /** The keys up to a power of two are those up to the one before and a slice. */
  lemma UpToSlice(s: set<int>, i: nat)
    requires Indices(s)
    ensures |UpTo(s, Pow2(i))| == (if i == 0 then 0 else |UpTo(s, Pow2(i - 1))|) + |Slice(s, i)|
  {
    var below := if i == 0 then {} else UpTo(s, Pow2(i - 1));
    forall k | k in s ensures k in UpTo(s, Pow2(i)) <==> k in below || k in Slice(s, i) {
      CeilLog2Bounds(k, i);
      if 0 < i { CeilLog2Bounds(k, i - 1); }
    }
    forall k | k in below ensures k !in Slice(s, i) { CeilLog2Bounds(k, i - 1); }
    assert UpTo(s, Pow2(i)) == below + Slice(s, i);
  }

  lemma UpToBound(s: set<int>, i: nat)
    requires Indices(s)
    ensures |UpTo(s, Pow2(i))| <= Pow2(i) && |UpTo(s, Pow2(i))| <= |s|
  {
    IntervalSize(UpTo(s, Pow2(i)), 0, Pow2(i));
    Fewer(UpTo(s, Pow2(i)), s);
  }

  lemma {:induction false} Fewer<T>(a: set<T>, b: set<T>)
    requires a <= b
    ensures |a| <= |b|
  {
    assert b == a + (b - a);
  }

  /** More than half of the slots 1..2^i hold keys. */
  ghost predicate Half(s: set<int>, i: nat) {
    Pow2(i) / 2 < |UpTo(s, Pow2(i))|
  }

  /** n is the largest power of two whose slots are more than half used, or 0. */
  ghost predicate Optimal(s: set<int>, n: int) {
    && (n == 0 || exists i: nat :: i <= MAXBITS && n == Pow2(i) && Half(s, i))
    && (forall i: nat :: i <= MAXBITS && Half(s, i) ==> Pow2(i) <= n)
  }

  /** A slice without keys cannot make a larger size worthwhile. */
  lemma EmptySlice(s: set<int>, i: nat)
    requires Indices(s) && Slice(s, i) == {}
    ensures !Half(s, i)
  {
    UpToSlice(s, i);
    if 0 < i { UpToBound(s, i - 1); }
  }

  lemma AllCounted(s: set<int>, i: nat, j: nat)
    requires Indices(s) && i < j && |UpTo(s, Pow2(i))| == |s|
    ensures !Half(s, j)
  {
    UpToBound(s, i);
    UpToBound(s, j);
    Pow2Monotone(i, j);
    assert Pow2(j) == 2 * Pow2(j - 1);
  }

  lemma TooLarge(s: set<int>, i: nat, j: nat)
    requires Indices(s) && i <= j && |s| <= Pow2(i) / 2
    ensures !Half(s, j)
  {
    UpToBound(s, j);
    if i < j { Pow2Monotone(i, j); }
  }

  /** The best among the first i sizes. */
  ghost predicate BestBelow(s: set<int>, i: int, n: int) {
    && (n == 0 || exists j: nat :: j <= MAXBITS && n == Pow2(j) && Half(s, j))
    && (forall j: nat :: j < i && Half(s, j) ==> Pow2(j) <= n)
  }

  lemma BestStep(s: set<int>, i: nat, n: int)
    requires BestBelow(s, i, n) && i <= MAXBITS && n <= Pow2(i)
    ensures BestBelow(s, i + 1, if Half(s, i) then Pow2(i) else n)
  {
    hide Half;
    forall j: nat | j < i + 1 && Half(s, j) ensures Pow2(j) <= if Half(s, i) then Pow2(i) else n {
      if j < i { assert Pow2(j) <= n; }
    }
  }

  lemma BestOfAll(s: set<int>, i: nat, n: int)
    requires BestBelow(s, i, n) && forall j: nat :: i <= j ==> !Half(s, j)
    ensures Optimal(s, n)
  {
    hide Half;
  }

  ghost function Below(s: set<int>, i: nat): nat {
    if i == 0 then 0 else |UpTo(s, Pow2(i - 1))|
  }

  /** Finds the best size n of the array part, and how many of the keys go there. */
  method ComputeSizes(nums: seq<int>, narray: int, ghost s: set<int>) returns (n: int, na: int)
    requires Indices(s) && Counts(nums, s) && narray == |s|
    ensures Optimal(s, n) && na == |UpTo(s, n)|
  {
    hide UpTo, Slice, Optimal, BestBelow;
    var i, twotoi, a := 0, 1, 0;
    n, na := 0, 0;
    AtStart(s);
    while twotoi / 2 < narray
      invariant 0 <= i && twotoi == Pow2(i)
      invariant a == Below(s, i) && BestBelow(s, i, n) && na == |UpTo(s, n)|
      invariant n <= twotoi
      decreases MAXBITS + 1 - i
    {
      InRange(s, i);
      UpToSlice(s, i);
      BestStep(s, i, n);
      if 0 < nums[i] {
        a := a + nums[i];
        if a > twotoi / 2 {
          n, na := twotoi, a;
        }
      } else {
        EmptySlice(s, i);
      }
      if a == narray {
        forall j: nat | i < j ensures !Half(s, j) { AllCounted(s, i, j); }
        BestOfAll(s, i + 1, n);
        return;
      }
      i, twotoi := i + 1, 2 * twotoi;
    }
    forall j: nat | i <= j ensures !Half(s, j) { TooLarge(s, i, j); }
    BestOfAll(s, i, n);
  }

  lemma AtStart(s: set<int>)
    requires Indices(s)
    ensures UpTo(s, 0) == {} && BestBelow(s, 0, 0)
  {
  }

  lemma InRange(s: set<int>, i: nat)
    requires Indices(s) && Pow2(i) / 2 < |s|
    ensures i <= MAXBITS
  {
    UpToBound(s, MAXBITS);
    assert UpTo(s, Pow2(MAXBITS)) == s;
    if MAXBITS < i { Pow2Monotone(MAXBITS, i); }
  }

  /** One more key in the counts. */
  lemma CountOne(nums: seq<int>, s: set<int>, k: int)
    requires Counts(nums, s) && 1 <= k <= Pow2(MAXBITS) && k !in s
    ensures CeilLog2(k) <= MAXBITS
    ensures Counts(nums[CeilLog2(k) := nums[CeilLog2(k)] + 1], s + {k})
  {
    CeilLog2Bounds(k, MAXBITS);
    forall i: nat | i <= MAXBITS ensures |Slice(s + {k}, i)| == |Slice(s, i)| + (if i == CeilLog2(k) then 1 else 0) {
      SliceOne(s, k, i);
    }
    hide CeilLog2, Slice, Pow2;
  }

  lemma SliceOne(s: set<int>, k: int, i: nat)
    requires k !in s
    ensures |Slice(s + {k}, i)| == |Slice(s, i)| + (if i == CeilLog2(k) then 1 else 0)
  {
    if i == CeilLog2(k) {
      assert Slice(s + {k}, i) == Slice(s, i) + {k};
    } else {
      assert Slice(s + {k}, i) == Slice(s, i);
    }
  }
}
