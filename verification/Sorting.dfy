/** table.sort: quicksort in place over the positions 1..n of a list
    (src/c/lua/ltablib.c). */
module Sorting {

  /** What the manual asks of an order function (section 5.5): irreflexive, transitive, and
      "neither is less" is transitive too. */
  ghost predicate StrictWeakOrder<T(!new)>(less: (T, T) -> bool)
  {
    && (forall x :: !less(x, x))
    && (forall x, y, z :: less(x, y) && less(y, z) ==> less(x, z))
    && (forall x, y, z :: !less(x, y) && !less(y, z) ==> !less(x, z))
  }

  // --- What sorting promises ---------------------------------------------------------------

  /** No later element of s[l..u] is less than an earlier one. */
  ghost predicate Sorted<T(!new)>(less: (T, T) -> bool, s: seq<T>, l: int, u: int)
    requires 0 <= l && u < |s|
  {
    forall p, q :: l <= p < q <= u ==> !less(s[q], s[p])
  }

  /** t has the elements of s, moved about only inside l..u. */
  ghost predicate Rearranged<T(!new)>(s: seq<T>, t: seq<T>, l: int, u: int)
  {
    && |s| == |t|
    && 0 <= l <= u + 1 <= |s|
    && s[..l] == t[..l]
    && s[u + 1..] == t[u + 1..]
    && multiset(s[l..u + 1]) == multiset(t[l..u + 1])
  }

  /** Sorted, except that pairs lying wholly inside l..u may still be out of order. */
  ghost predicate SortedBut<T(!new)>(less: (T, T) -> bool, s: seq<T>, first: int, last: int, l: int, u: int)
    requires 0 <= first && last < |s|
  {
    forall p, q :: first <= p < q <= last && !(l <= p && q <= u) ==> !less(s[q], s[p])
  }

  /** s[m] divides s[l..u]: nothing before it is greater, nothing after it is less. */
  ghost predicate Divided<T(!new)>(less: (T, T) -> bool, s: seq<T>, l: int, m: int, u: int)
    requires 0 <= l <= m <= u < |s|
  {
    && (forall p :: l <= p < m ==> !less(s[m], s[p]))
    && (forall q :: m < q <= u ==> !less(s[q], s[m]))
  }

  function Log2(n: int): (k: nat)
  {
    if n <= 1 then 0 else 1 + Log2(n / 2)
  }

  function Pow2(k: nat): (p: nat)
    ensures p > 0
  {
    if k == 0 then 1 else 2 * Pow2(k - 1)
  }

  // --- Lemmas --------------------------------------------------------------------------------

  lemma RearrangedSame<T(!new)>(s: seq<T>, l: int, u: int)
    requires 0 <= l <= u + 1 <= |s|
    ensures Rearranged(s, s, l, u)
  {
  }

  lemma RearrangedTwice<T(!new)>(s: seq<T>, t: seq<T>, v: seq<T>, l: int, u: int)
    requires Rearranged(s, t, l, u) && Rearranged(t, v, l, u)
    ensures Rearranged(s, v, l, u)
  {
  }

  /** A rearrangement of a part is one of any stretch around it. */
  lemma RearrangedMore<T(!new)>(s: seq<T>, t: seq<T>, j: int, i: int, l: int, u: int)
    requires Rearranged(s, t, j, i) && 0 <= l <= j && i <= u < |s|
    ensures Rearranged(s, t, l, u)
  {
    forall k | 0 <= k < l ensures s[k] == t[k] { assert s[..j][k] == t[..j][k]; }
    forall k | u < k < |s| ensures s[k] == t[k] {
      assert s[i + 1..][k - i - 1] == t[i + 1..][k - i - 1];
    }
    assert s[l..j] == s[..j][l..] == t[..j][l..] == t[l..j];
    assert s[i + 1..u + 1] == s[i + 1..][..u - i] == t[i + 1..][..u - i] == t[i + 1..u + 1];
    assert s[l..u + 1] == s[l..j] + s[j..i + 1] + s[i + 1..u + 1];
    assert t[l..u + 1] == t[l..j] + t[j..i + 1] + t[i + 1..u + 1];
  }

  lemma SwapRearranged<T(!new)>(s: seq<T>, i: int, j: int, l: int, u: int)
    requires 0 <= l <= i <= j <= u < |s|
    ensures Rearranged(s, s[i := s[j]][j := s[i]], l, u)
  {
    var t := s[i := s[j]][j := s[i]];
    var a, b := s[l..u + 1], t[l..u + 1];
    assert b == a[i - l := a[j - l]][j - l := a[i - l]];
    assert multiset(b) == multiset(a);
  }

  /** Every element of a rearranged stretch was in the stretch before. */
  lemma WasThere<T(!new)>(s: seq<T>, t: seq<T>, l: int, u: int, k: int) returns (from: int)
    requires Rearranged(s, t, l, u) && l <= k <= u
    ensures l <= from <= u && s[from] == t[k]
  {
    assert t[l..u + 1][k - l] in multiset(t[l..u + 1]);
    assert t[k] in s[l..u + 1];
    var at :| 0 <= at < |s[l..u + 1]| && s[l..u + 1][at] == t[k];
    from := l + at;
  }

  /** What lies inside a stretch keeps its relation to what lies outside when the stretch is
      rearranged, so only the pairs inside can go out of order. */
  lemma SortedButKept<T(!new)>(less: (T, T) -> bool, s: seq<T>, t: seq<T>, first: int, last: int, l: int, u: int)
    requires Rearranged(s, t, l, u) && 0 <= first <= l && u <= last < |s|
    requires SortedBut(less, s, first, last, l, u)
    ensures |s| == |t| && SortedBut(less, t, first, last, l, u)
  {
    forall p, q | first <= p < q <= last && !(l <= p && q <= u) ensures !less(t[q], t[p]) {
      var p', q' := p, q;
      if l <= p <= u { p' := WasThere(s, t, l, u, p); } else { Outside(s, t, l, u, p); }
      if l <= q <= u { q' := WasThere(s, t, l, u, q); } else { Outside(s, t, l, u, q); }
      assert s[p'] == t[p] && s[q'] == t[q];
    }
  }

  lemma Outside<T(!new)>(s: seq<T>, t: seq<T>, l: int, u: int, k: int)
    requires Rearranged(s, t, l, u) && 0 <= k < |s| && !(l <= k <= u)
    ensures s[k] == t[k]
  {
    if k < l {
      assert s[..l][k] == t[..l][k];
    } else {
      assert s[u + 1..][k - u - 1] == t[u + 1..][k - u - 1];
    }
  }

  /** Sorting one side of a divided stretch leaves only the other side unsorted: first the
      left side, then the right one. */
  lemma LeftDone<T(!new)>(less: (T, T) -> bool, s: seq<T>, t: seq<T>, first: int, last: int, l: int, m: int, u: int)
    requires StrictWeakOrder(less)
    requires 0 <= first <= l <= m <= u <= last < |s|
    requires SortedBut(less, s, first, last, l, u) && Divided(less, s, l, m, u)
    requires Rearranged(s, t, l, m - 1) && Sorted(less, t, l, m - 1)
    ensures SortedBut(less, t, first, last, m + 1, u)
  {
    hide Rearranged;
    RearrangedMore(s, t, l, m - 1, l, u);
    SortedButKept(less, s, t, first, last, l, u);
    forall p, q | l <= p < q <= u && !(m + 1 <= p) ensures !less(t[q], t[p]) {
      if q > m - 1 {
        Outside(s, t, l, m - 1, q);
        Outside(s, t, l, m - 1, m);
        if p < m { var p' := WasThere(s, t, l, m - 1, p); assert !less(s[m], s[p']); }
      }
    }
  }

  lemma RightDone<T(!new)>(less: (T, T) -> bool, s: seq<T>, t: seq<T>, first: int, last: int, l: int, m: int, u: int)
    requires StrictWeakOrder(less)
    requires 0 <= first <= l <= m <= u <= last < |s|
    requires SortedBut(less, s, first, last, l, u) && Divided(less, s, l, m, u)
    requires Rearranged(s, t, m + 1, u) && Sorted(less, t, m + 1, u)
    ensures SortedBut(less, t, first, last, l, m - 1)
  {
    hide Rearranged;
    RearrangedMore(s, t, m + 1, u, l, u);
    SortedButKept(less, s, t, first, last, l, u);
    forall p, q | l <= p < q <= u && !(q <= m - 1) ensures !less(t[q], t[p]) {
      if p <= m {
        Outside(s, t, m + 1, u, p);
        Outside(s, t, m + 1, u, m);
        if q > m { var q' := WasThere(s, t, m + 1, u, q); assert !less(s[q'], s[m]); }
      }
    }
  }

  lemma {:induction false} Log2Halves(n: int, m: int)
    requires n >= 2 && m <= n / 2
    ensures 1 + Log2(m) <= Log2(n)
  {
    if n / 2 >= 2 && m >= 2 {
      Log2Halves(n / 2, m / 2);
    }
  }

  /** Log2 is the whole part of the logarithm. */
  lemma {:induction false} Log2Bounds(n: int)
    requires n >= 1
    ensures Pow2(Log2(n)) <= n < 2 * Pow2(Log2(n))
  {
    if n > 1 {
      Log2Bounds(n / 2);
    }
  }

  // --- The algorithm -----------------------------------------------------------------------
  //
  // The array is the list with one slot on either side of it, a[0] and a[n + 1], where a scan
  // that leaves the list reads before it gives up.

  /** set2 with the two elements pushed: exchange a[i] and a[j]. */
  method Exchange<T(!new)>(a: array<T>, i: int, j: int, l: int, u: int)
    requires 0 <= l <= i <= j <= u < a.Length
    modifies a
    ensures a[..] == old(a[..])[i := old(a[j])][j := old(a[i])]
    ensures Rearranged(old(a[..]), a[..], l, u)
  {
    SwapRearranged(a[..], i, j, l, u);
    a[i], a[j] := a[j], a[i];
    assert a[..] == old(a[..])[i := old(a[j])][j := old(a[i])];
  }

  /** Order a[l], a[(l + u) / 2] and a[u]. */
  method OrderEnds<T(!new)>(a: array<T>, less: (T, T) -> bool, l: int, u: int)
    requires StrictWeakOrder(less) && 0 <= l < u < a.Length
    modifies a
    ensures Rearranged(old(a[..]), a[..], l, u)
    ensures !less(a[u], a[l])
    ensures u - l > 1 ==> !less(a[(l + u) / 2], a[l]) && !less(a[u], a[(l + u) / 2])
  {
    if less(a[u], a[l]) {
      Exchange(a, l, u, l, u);
    }
    if u - l == 1 {
      return;
    }
    OrderMiddle(a, less, l, (l + u) / 2, u);
  }

  method OrderMiddle<T(!new)>(a: array<T>, less: (T, T) -> bool, l: int, i: int, u: int)
    requires StrictWeakOrder(less) && 0 <= l < i < u < a.Length && !less(a[u], a[l])
    modifies a
    ensures Rearranged(old(a[..]), a[..], l, u)
    ensures !less(a[u], a[l]) && !less(a[i], a[l]) && !less(a[u], a[i])
  {
    if less(a[i], a[l]) {
      Exchange(a, l, i, l, u);
    } else if less(a[u], a[i]) {
      Exchange(a, i, u, l, u);
    }
  }

  /** Repeat ++i until a[i] >= P; running past u is an error. */
  method ScanUp<T(!new)>(a: array<T>, less: (T, T) -> bool, pivot: T, from: int, u: int) returns (ok: bool, i: int)
    requires 0 <= from <= u && u + 1 < a.Length
    ensures from < i <= u + 1
    ensures forall k :: from < k < i ==> less(a[k], pivot)
    ensures ok <==> !less(a[i], pivot)
    ensures !ok ==> i == u + 1
  {
    i := from + 1;
    while less(a[i], pivot)
      invariant from < i <= u + 1
      invariant forall k :: from < k < i ==> less(a[k], pivot)
      decreases u - i
    {
      if i > u {
        return false, i;
      }
      i := i + 1;
    }
    return true, i;
  }

  /** Repeat --j until a[j] <= P; running past l is an error. */
  method ScanDown<T(!new)>(a: array<T>, less: (T, T) -> bool, pivot: T, from: int, l: int) returns (ok: bool, j: int)
    requires 1 <= l <= from < a.Length
    ensures l - 1 <= j < from
    ensures forall k :: j < k < from ==> less(pivot, a[k])
    ensures ok <==> !less(pivot, a[j])
    ensures !ok ==> j == l - 1
  {
    j := from - 1;
    while less(pivot, a[j])
      invariant l - 1 <= j < from
      invariant forall k :: j < k < from ==> less(pivot, a[k])
      decreases j - l
    {
      if j < l {
        return false, j;
      }
      j := j - 1;
    }
    return true, j;
  }

  /** The pivot in s[u - 1] is not less than anything before m nor greater than anything from
      m on. */
  ghost predicate Parted<T(!new)>(less: (T, T) -> bool, s: seq<T>, l: int, m: int, u: int)
    requires 0 <= l < m < u < |s|
  {
    && (forall k :: l <= k < m ==> !less(s[u - 1], s[k]))
    && (forall k :: m <= k <= u ==> !less(s[k], s[u - 1]))
  }

  /** Everything up to i is at most the pivot and everything from j on at least it. */
  ghost predicate Parting<T(!new)>(less: (T, T) -> bool, s: seq<T>, l: int, i: int, j: int, u: int, pivot: T)
  {
    && 0 <= l <= i <= j < u < |s|
    && l < j
    && i < u - 1
    && s[u - 1] == pivot
    && (forall k :: l <= k <= i ==> !less(pivot, s[k]))
    && (forall k :: j <= k <= u ==> !less(s[k], pivot))
  }

  lemma PartingSwap<T(!new)>(less: (T, T) -> bool, s: seq<T>, l: int, i: int, j: int, u: int, pivot: T, i': int,
        j': int)
    requires StrictWeakOrder(less)
    requires Parting(less, s, l, i, j, u, pivot)
    requires i < i' <= j' < j
    requires !less(s[i'], pivot) && (forall k :: i < k < i' ==> less(s[k], pivot))
    requires !less(pivot, s[j']) && (forall k :: j' < k < j ==> less(pivot, s[k]))
    ensures Parting(less, s[i' := s[j']][j' := s[i']], l, i', j', u, pivot)
  {
  }

  /** The loop that parts a[l..u] around the pivot kept in a[u - 1]; ok is false when the order
      function is caught out. */
  method Part<T(!new)>(a: array<T>, less: (T, T) -> bool, l: int, u: int) returns (ok: bool, m: int)
    requires StrictWeakOrder(less) && 1 <= l && u - l > 2 && u + 1 < a.Length
    requires !less(a[u - 1], a[l]) && !less(a[u], a[u - 1])
    modifies a
    ensures ok && l < m < u
    ensures Rearranged(old(a[..]), a[..], l, u)
    ensures a[u - 1] == old(a[u - 1])
    ensures Parted(less, a[..], l, m, u)
  {
    var pivot := a[u - 1];
    var i, j := l, u - 1;
    ok, m := true, l;
    while true
      invariant ok
      invariant Parting(less, a[..], l, i, j, u, pivot)
      invariant Rearranged(old(a[..]), a[..], l, u)
      decreases j
    {
      ghost var s := a[..];
      assert !less(s[u - 1], pivot) && !less(s[j], pivot) && !less(pivot, a[l]) && !less(pivot, s[i]);
      var i', j' := i, j;
      ok, i' := ScanUp(a, less, pivot, i, u);
      if !ok {
        return;
      }
      ok, j' := ScanDown(a, less, pivot, j, l);
      if !ok {
        return;
      }
      if j' < i' {
        return true, i';
      }
      PartingSwap(less, s, l, i, j, u, pivot, i', j');
      Exchange(a, i', j', l, u);
      RearrangedTwice(old(a[..]), s, a[..], l, u);
      i, j := i', j';
    }
  }

  /** One round: part a[l..u] around its middle element, which ends at a[m]. */
  method Partition<T(!new)>(a: array<T>, less: (T, T) -> bool, l: int, u: int) returns (ok: bool, m: int)
    requires StrictWeakOrder(less) && 1 <= l && u - l > 2 && u + 1 < a.Length
    requires !less(a[(l + u) / 2], a[l]) && !less(a[u], a[(l + u) / 2])
    modifies a
    ensures ok && l < m < u
    ensures Rearranged(old(a[..]), a[..], l, u)
    ensures a[m] == old(a[(l + u) / 2])
    ensures Divided(less, a[..], l, m, u)
  {
    hide Rearranged, StrictWeakOrder, Divided, Parted;
    Exchange(a, (l + u) / 2, u - 1, l, u);
    ghost var s := a[..];
    ok, m := Part(a, less, l, u);
    if !ok {
      return;
    }
    RearrangedTwice(old(a[..]), s, a[..], l, u);
    s := a[..];
    PivotPlaced(less, s, l, m, u);
    Exchange(a, m, u - 1, l, u);
    RearrangedTwice(old(a[..]), s, a[..], l, u);
  }

  lemma PivotPlaced<T(!new)>(less: (T, T) -> bool, s: seq<T>, l: int, m: int, u: int)
    requires 0 <= l < m < u < |s|
    requires Parted(less, s, l, m, u)
    ensures Divided(less, s[m := s[u - 1]][u - 1 := s[m]], l, m, u)
  {
  }

  /** Sort a[l0..u0]: recursion on the smaller part, iteration on the larger one. ok is false
      when the order function is caught out; depth is the number of activations nested in this
      one, itself included. */
  method AuxSort<T(!new)>(a: array<T>, less: (T, T) -> bool, l0: int, u0: int) returns (ok: bool, ghost depth: nat)
    requires StrictWeakOrder(less) && 1 <= l0 <= u0 + 1 && u0 + 1 < a.Length
    modifies a
    ensures ok
    ensures Rearranged(old(a[..]), a[..], l0, u0)
    ensures Sorted(less, a[..], l0, u0)
    ensures depth <= Log2(u0 - l0 + 1) + 1
    decreases u0 - l0 + 1, 1
  {
    hide Rearranged, StrictWeakOrder, SortedBut, Sorted, Log2;
    AllUnsorted(less, a[..], l0, u0);
    RearrangedSame(a[..], l0, u0);
    var l, u := l0, u0;
    ok, depth := true, 1;
    while l < u
      invariant l0 <= l && u <= u0 && l <= u + 1
      invariant ok && depth <= Log2(u0 - l0 + 1) + 1
      invariant Rearranged(old(a[..]), a[..], l0, u0)
      invariant SortedBut(less, a[..], l0, u0, l, u)
      invariant l >= u ==> Sorted(less, a[..], l0, u0)
      decreases u - l
    {
      ghost var s := a[..];
      OrderEnds(a, less, l, u);
      Settle(less, old(a[..]), s, a[..], l0, u0, l, u);
      if u - l <= 2 { FewSorted(less, a[..], l0, u0, l, u); }
      if u - l == 1 {
        break;
      }
      if u - l == 2 {
        break;
      }
      s := a[..];
      ghost var below;
      ok, l, u, below := SortSmaller(a, less, l0, u0, l, u);
      if !ok {
        return;
      }
      RearrangedTwice(old(a[..]), s, a[..], l0, u0);
      if l >= u { NoneUnsorted(less, a[..], l0, u0, l, u); }
      depth := if depth < below + 1 then below + 1 else depth;
    }
  }

  lemma AllUnsorted<T(!new)>(less: (T, T) -> bool, s: seq<T>, l: int, u: int)
    requires 0 <= l && u < |s|
    ensures SortedBut(less, s, l, u, l, u) && (l >= u ==> Sorted(less, s, l, u))
  {
  }

  lemma NoneUnsorted<T(!new)>(less: (T, T) -> bool, s: seq<T>, first: int, last: int, l: int, u: int)
    requires 0 <= first && last < |s| && l >= u && SortedBut(less, s, first, last, l, u)
    ensures Sorted(less, s, first, last)
  {
  }

  lemma FewSorted<T(!new)>(less: (T, T) -> bool, s: seq<T>, first: int, last: int, l: int, u: int)
    requires 0 <= first <= l < u <= last < |s| && u - l <= 2 && SortedBut(less, s, first, last, l, u)
    requires !less(s[u], s[l]) && (u - l > 1 ==> !less(s[(l + u) / 2], s[l]) && !less(s[u], s[(l + u) / 2]))
    ensures Sorted(less, s, first, last)
  {
  }

  /** Partition, then recursion on the smaller part: the larger one, a[l'..u'], is left. */
  method SortSmaller<T(!new)>(a: array<T>, less: (T, T) -> bool, ghost l0: int, ghost u0: int, l: int, u: int)
    returns (ok: bool, l': int, u': int, ghost below: nat)
    requires StrictWeakOrder(less) && 1 <= l0 <= l && u <= u0 && u0 + 1 < a.Length && u - l > 2
    requires !less(a[(l + u) / 2], a[l]) && !less(a[u], a[(l + u) / 2])
    requires SortedBut(less, a[..], l0, u0, l, u)
    modifies a
    ensures ok
    ensures l <= l' && u' <= u && l' <= u' + 1 && u' - l' < u - l
    ensures Rearranged(old(a[..]), a[..], l0, u0)
    ensures SortedBut(less, a[..], l0, u0, l', u')
    ensures below + 1 <= Log2(u0 - l0 + 1) + 1
    decreases u - l + 1, 0
  {
    hide Rearranged, SortedBut, StrictWeakOrder, Sorted, Divided, Log2;
    ghost var s := a[..];
    l', u', below := l, u, 0;
    var m;
    ok, m := Partition(a, less, l, u);
    if !ok {
      return;
    }
    ghost var t := a[..];
    if m - l < u - m {
      ok, below := AuxSort(a, less, l, m - 1);
      RoundLeft(less, s, t, a[..], l0, u0, l, m, u);
      Log2Halves(u0 - l0 + 1, m - l);
      l' := m + 1;
    } else {
      ok, below := AuxSort(a, less, m + 1, u);
      RoundRight(less, s, t, a[..], l0, u0, l, m, u);
      Log2Halves(u0 - l0 + 1, u - m);
      u' := m - 1;
    }
  }

  lemma RoundLeft<T(!new)>(less: (T, T) -> bool, s: seq<T>, t: seq<T>, v: seq<T>, l0: int, u0: int, l: int, m: int,
        u: int)
    requires StrictWeakOrder(less) && 0 <= l0 <= l <= m <= u <= u0 < |s|
    requires SortedBut(less, s, l0, u0, l, u)
    requires Rearranged(s, t, l, u) && Divided(less, t, l, m, u)
    requires Rearranged(t, v, l, m - 1) && Sorted(less, v, l, m - 1)
    ensures Rearranged(s, v, l0, u0) && SortedBut(less, v, l0, u0, m + 1, u)
  {
    RearrangedSame(s, l0, u0);
    Settle(less, s, s, t, l0, u0, l, u);
    LeftDone(less, t, v, l0, u0, l, m, u);
    RearrangedMore(t, v, l, m - 1, l0, u0);
    RearrangedTwice(s, t, v, l0, u0);
  }

  lemma RoundRight<T(!new)>(less: (T, T) -> bool, s: seq<T>, t: seq<T>, v: seq<T>, l0: int, u0: int, l: int, m: int,
        u: int)
    requires StrictWeakOrder(less) && 0 <= l0 <= l <= m <= u <= u0 < |s|
    requires SortedBut(less, s, l0, u0, l, u)
    requires Rearranged(s, t, l, u) && Divided(less, t, l, m, u)
    requires Rearranged(t, v, m + 1, u) && Sorted(less, v, m + 1, u)
    ensures Rearranged(s, v, l0, u0) && SortedBut(less, v, l0, u0, l, m - 1)
  {
    RearrangedSame(s, l0, u0);
    Settle(less, s, s, t, l0, u0, l, u);
    RightDone(less, t, v, l0, u0, l, m, u);
    RearrangedMore(t, v, m + 1, u, l0, u0);
    RearrangedTwice(s, t, v, l0, u0);
  }

  /** Work inside l..u keeps both loop invariants of AuxSort. */
  lemma Settle<T(!new)>(less: (T, T) -> bool, start: seq<T>, s: seq<T>, t: seq<T>, l0: int, u0: int, l: int, u: int)
    requires Rearranged(start, s, l0, u0) && Rearranged(s, t, l, u) && 0 <= l0 <= l && u <= u0
    requires u0 < |s| && SortedBut(less, s, l0, u0, l, u)
    ensures Rearranged(start, t, l0, u0) && SortedBut(less, t, l0, u0, l, u)
  {
    SortedButKept(less, s, t, l0, u0, l, u);
    RearrangedMore(s, t, l, u, l0, u0);
    RearrangedTwice(start, s, t, l0, u0);
  }

  /** table.sort on the list a[1..n]. */
  method Sort<T(!new)>(a: array<T>, less: (T, T) -> bool, n: nat) returns (ok: bool, ghost depth: nat)
    requires StrictWeakOrder(less) && n + 1 < a.Length
    modifies a
    ensures ok
    ensures Rearranged(old(a[..]), a[..], 1, n) && Sorted(less, a[..], 1, n)
    ensures n < Pow2(40) ==> depth <= 40
  {
    ok, depth := AuxSort(a, less, 1, n);
    if 1 <= n < Pow2(40) && Log2(n) >= 40 {
      Log2Bounds(n);
      Pow2Grows(40, Log2(n));
    }
  }

  lemma {:induction false} Pow2Grows(j: nat, k: nat)
    requires j <= k
    ensures Pow2(j) <= Pow2(k)
  {
    if j < k {
      Pow2Grows(j, k - 1);
    }
  }
}
