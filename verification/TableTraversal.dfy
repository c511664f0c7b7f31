/** Visiting the entries of a table in order, and finding its border. */
module TableTraversal {
  import opened NodeChains
  import opened ArraySizing
  import opened TableEntries
  import opened TableCounts
  import opened TableInvariant

  /** Entries are numbered through the array part and then through the nodes. */
  function EntryKey(arr: seq<Val>, ns: seq<Node>, e: int): Key {
    if 0 <= e < |arr| then KInt(e + 1) else if |arr| <= e < |arr| + |ns| then ns[e - |arr|].key else KNil
  }

  function EntryValue(arr: seq<Val>, ns: seq<Node>, e: int): Val {
    if 0 <= e < |arr| then arr[e] else if |arr| <= e < |arr| + |ns| then ns[e - |arr|].val else Nil
  }

  /** The first entry from e on that has a value, or the number of entries. */
  ghost function NextEntry(arr: seq<Val>, ns: seq<Node>, e: nat): (n: nat)
    ensures e <= |arr| + |ns| ==> e <= n <= |arr| + |ns|
    ensures n < |arr| + |ns| ==> EntryValue(arr, ns, n) != Nil
    ensures forall m :: e <= m < n ==> EntryValue(arr, ns, m) == Nil
    decreases |arr| + |ns| - e
  {
    if |arr| + |ns| <= e || EntryValue(arr, ns, e) != Nil then e else NextEntry(arr, ns, e + 1)
  }

  lemma NextStep(arr: seq<Val>, ns: seq<Node>, e: nat)
    requires e < |arr| + |ns|
    ensures NextEntry(arr, ns, e) == if EntryValue(arr, ns, e) != Nil then e else NextEntry(arr, ns, e + 1)
  {
  }

  lemma NextEnd(arr: seq<Val>, ns: seq<Node>)
    ensures NextEntry(arr, ns, |arr| + |ns|) == |arr| + |ns|
  {
  }

  /** Entry e is the first with key k along k's chain; nil comes before all. */
  ghost predicate IndexOf(asize: nat, ns: seq<Node>, sp: seq<Spot>, k: Key, e: int) {
    if k == KNil then e == -1
    else if InArray(k, asize) then e == ArrayIndex(k) - 1
    else
      && asize <= e < asize + |ns| && |sp| == |ns| && ns[e - asize].key == k
      && forall i :: 0 <= i < |ns| && i != e - asize && ns[i].key == k ==> sp[e - asize].rank < sp[i].rank
  }

  lemma IndexBound(asize: nat, ns: seq<Node>, sp: seq<Spot>, k: Key, e: int)
    requires IndexOf(asize, ns, sp, k, e)
    ensures -1 <= e < asize + |ns|
  {
  }

  /** A key has one position. */
  lemma OneIndex(asize: nat, ns: seq<Node>, sp: seq<Spot>, k: Key, e: int, f: int)
    requires IndexOf(asize, ns, sp, k, e) && IndexOf(asize, ns, sp, k, f)
    ensures e == f
  {
  }

  /** Same keys, same links; values may come and go and keys may die. */
  ghost predicate SameShape(ns: seq<Node>, ms: seq<Node>) {
    |ms| == |ns| && forall i :: 0 <= i < |ns| ==> ms[i].key == ns[i].key && ms[i].next == ns[i].next
  }

  /** An entry has kept its value or got v. */
  ghost predicate OnlySet(arr: seq<Val>, ns: seq<Node>, arr': seq<Val>, ns': seq<Node>, v: Val) {
    forall e :: EntryValue(arr', ns', e) == EntryValue(arr, ns, e) || EntryValue(arr', ns', e) == v
  }

  /** Positions outlive the values. */
  lemma IndexKept(asize: nat, ns: seq<Node>, ms: seq<Node>, sp: seq<Spot>, k: Key, e: int)
    requires IndexOf(asize, ns, sp, k, e) && SameShape(ns, ms)
    ensures IndexOf(asize, ms, sp, k, e)
  {
  }

  // ----- Following a chain to a key, dead or alive -----

  ghost predicate SameAhead(ns: seq<Node>, sp: seq<Spot>, k: Key, n: int) {
    && NONE <= n < |ns| == |sp|
    && forall i :: 0 <= i < |ns| && ns[i].key == k ==>
          n != NONE && sp[i].chain == sp[n].chain && sp[n].rank <= sp[i].rank
  }

  lemma SameStart(ns: seq<Node>, sp: seq<Spot>, mp: Key -> int, k: Key)
    requires Chains(ns, sp, mp) && k != KNil
    ensures SameAhead(ns, sp, k, mp(k))
  {
    hide Unused, FirstLive;
    forall i | 0 <= i < |ns| && ns[i].key == k
      ensures sp[i].chain == sp[mp(k)].chain && sp[mp(k)].rank <= sp[i].rank
    {
      assert Placed(ns, sp, mp, i);
    }
  }

  lemma SameNext(ns: seq<Node>, sp: seq<Spot>, k: Key, n: int)
    requires Linked(ns, sp) && SameAhead(ns, sp, k, n) && n != NONE && ns[n].key != k
    ensures SameAhead(ns, sp, k, ns[n].next)
  {
  }

  lemma SameFound(ns: seq<Node>, sp: seq<Spot>, asize: nat, k: Key, n: int)
    requires Linked(ns, sp) && SameAhead(ns, sp, k, n) && n != NONE && ns[n].key == k && k != KNil && !InArray(k, asize)
    ensures IndexOf(asize, ns, sp, k, n + asize)
  {
    forall i | 0 <= i < |ns| && i != n && ns[i].key == k ensures sp[n].rank < sp[i].rank {
      assert ns[n].next != NONE && sp[n].rank < sp[ns[n].next].rank;
    }
  }

  lemma SoundFound(hash: (Key, nat) -> nat, arr: seq<Val>, ns: seq<Node>, dummy: bool, lastfree: int, sp: seq<Spot>,
        k: Key, n: int)
    requires Sound(hash, arr, ns, dummy, lastfree, sp) && SameAhead(ns, sp, k, n) && n != NONE && ns[n].key == k != KNil
          && !InArray(k, |arr|)
    ensures IndexOf(|arr|, ns, sp, k, n + |arr|)
  {
    hide Unused, Placed, FirstLive, KeysOk, KeptApart, IndexOf, SameAhead;
    SameFound(ns, sp, |arr|, k, n);
  }

  /** An entry with a value is where its key is looked for. */
  lemma EntryAt(hash: (Key, nat) -> nat, arr: seq<Val>, ns: seq<Node>, dummy: bool, lastfree: int, sp: seq<Spot>,
        e: nat)
    requires Sound(hash, arr, ns, dummy, lastfree, sp) && e < |arr| + |ns| && EntryValue(arr, ns, e) != Nil
    ensures IndexOf(|arr|, ns, sp, EntryKey(arr, ns, e), e)
    ensures ValueAt(arr, ns, EntryKey(arr, ns, e)) == EntryValue(arr, ns, e)
  {
    hide Chains, HashValue;
    MaxSize();
    if |arr| <= e {
      NodeAt(ns, sp, Main(hash, |ns|), e - |arr|);
    }
  }

  lemma NodeAt(ns: seq<Node>, sp: seq<Spot>, mp: Key -> int, n: nat)
    requires Chains(ns, sp, mp) && n < |ns| && ns[n].val != Nil
    ensures |sp| == |ns| && ns[n].key != KNil && HashValue(ns, ns[n].key) == ns[n].val
    ensures forall i :: 0 <= i < |ns| && i != n && ns[i].key == ns[n].key ==> sp[n].rank < sp[i].rank
  {
    hide HashValue, Placed, Unused;
    StoredLive(ns, sp, mp, n);
    assert FirstLive(ns, sp) && |sp| == |ns|;
    hide Linked;
    forall i | 0 <= i < |ns| && i != n && ns[i].key == ns[n].key ensures sp[n].rank < sp[i].rank {
      RanksApart(ns, sp, mp, i, n);
    }
  }

  lemma RemoveOne(hash: (Key, nat) -> nat, arr: seq<Val>, ns: seq<Node>, dummy: bool, lastfree: int, sp: seq<Spot>,
        i: nat)
    requires Sound(hash, arr, ns, dummy, lastfree, sp) && i < |ns| && ns[i].val == Nil && ns[i].key.KObj?
    ensures var ms := ns[i := ns[i].(dead := true)];
            Sound(hash, arr, ms, dummy, lastfree, sp) && forall k :: ValueAt(arr, ms, k) == ValueAt(arr, ns, k)
  {
    hide Chains, HashValue, Carried;
    var ms := ns[i := ns[i].(dead := true)];
    assert Chains(ms, sp, Main(hash, |ns|)) by { RemovedChains(ns, sp, Main(hash, |ns|), i); }
    assert Carried(ns, ms) && Carried(ms, ns) by { RemovedCarried(ns, i); }
    SameValues(ns, sp, ms, sp, Main(hash, |ns|));
  }

  lemma RemovedCarried(ns: seq<Node>, i: nat)
    requires i < |ns| && ns[i].val == Nil
    ensures var ms := ns[i := ns[i].(dead := true)]; Carried(ns, ms) && Carried(ms, ns)
  {
    var ms := ns[i := ns[i].(dead := true)];
    forall j | 0 <= j < |ns| && ns[j].val != Nil
      ensures (exists j' :: 0 <= j' < |ms| && ms[j'].key == ns[j].key && ms[j'].val == ns[j].val)
           && (exists j' :: 0 <= j' < |ns| && ns[j'].key == ms[j].key && ns[j'].val == ms[j].val)
    {
      assert ms[j] == ns[j];
    }
  }

  lemma RemovedChains(ns: seq<Node>, sp: seq<Spot>, mp: Key -> int, i: nat)
    requires Chains(ns, sp, mp) && i < |ns| && ns[i].val == Nil && ns[i].key != KNil
    ensures Chains(ns[i := ns[i].(dead := true)], sp, mp)
  {
    hide FirstLive, Linked, Unused, Placed;
    LinkedSize(ns, sp);
    RemovedLinks(ns, sp, i);
    RemovedPlaces(ns, sp, mp, i);
  }

  lemma LinkedSize(ns: seq<Node>, sp: seq<Spot>)
    requires Linked(ns, sp)
    ensures |sp| == |ns|
  {
  }

  lemma RemovedLinks(ns: seq<Node>, sp: seq<Spot>, i: nat)
    requires Linked(ns, sp) && FirstLive(ns, sp) && i < |ns|
    ensures Linked(ns[i := ns[i].(dead := true)], sp) && FirstLive(ns[i := ns[i].(dead := true)], sp)
  {
    assert Linked(ns[i := ns[i].(dead := true)], sp) by { hide FirstLive; }
    hide Linked;
  }

  lemma RemovedPlaces(ns: seq<Node>, sp: seq<Spot>, mp: Key -> int, i: nat)
    requires |sp| == |ns| && i < |ns| && ns[i].key != KNil
    requires forall j :: 0 <= j < |ns| ==> if ns[j].key == KNil then Unused(ns, sp, j) else Placed(ns, sp, mp, j)
    ensures var ms := ns[i := ns[i].(dead := true)];
            forall j :: 0 <= j < |ms| ==> if ms[j].key == KNil then Unused(ms, sp, j) else Placed(ms, sp, mp, j)
  {
    var ms := ns[i := ns[i].(dead := true)];
    forall j | 0 <= j < |ms| ensures if ms[j].key == KNil then Unused(ms, sp, j) else Placed(ms, sp, mp, j) {
      assert if ns[j].key == KNil then Unused(ns, sp, j) else Placed(ns, sp, mp, j);
    }
  }

  // ----- A whole traversal -----

  datatype Entries = Entries(arr: seq<Val>, ns: seq<Node>)

  /** The table before each step: no key is added, and what lost its value
      stays without. */
  ghost predicate OnlyRemovals(ts: seq<Entries>) {
    forall i, j :: 0 <= i <= j < |ts| ==>
      && |ts[i].arr| == |ts[j].arr| && SameShape(ts[i].ns, ts[j].ns)
      && forall e :: EntryValue(ts[i].arr, ts[i].ns, e) == Nil ==> EntryValue(ts[j].arr, ts[j].ns, e) == Nil
  }

  /** Step j goes on from the entry the one before found. */
  ghost predicate Step(ts: seq<Entries>, es: seq<nat>, j: nat)
    requires |es| == |ts| && j < |ts|
  {
    && es[j] == NextEntry(ts[j].arr, ts[j].ns, if j == 0 then 0 else es[j - 1] + 1)
    && (j < |ts| - 1 ==> es[j] < |ts[j].arr| + |ts[j].ns|)
  }

  ghost predicate Steps(ts: seq<Entries>, es: seq<nat>) {
    |es| == |ts| && forall j :: 0 <= j < |ts| ==> Step(ts, es, j)
  }

  lemma {:induction false} Increasing(ts: seq<Entries>, es: seq<nat>, i: nat, j: nat)
    requires OnlyRemovals(ts) && Steps(ts, es) && i < j < |ts|
    ensures es[i] < es[j] <= |ts[0].arr| + |ts[0].ns|
    decreases j
  {
    assert |ts[j - 1].arr| == |ts[j].arr| && |ts[j - 1].ns| == |ts[j].ns|;
    assert |ts[0].arr| == |ts[j].arr| && |ts[0].ns| == |ts[j].ns|;
    assert Step(ts, es, j - 1) && Step(ts, es, j);
    assert es[j - 1] < es[j];
    if i < j - 1 { Increasing(ts, es, i, j - 1); }
  }

  /** A traversal visits no entry twice and takes no more steps than there are
      entries, and one. */
  lemma TraversalEnds(ts: seq<Entries>, es: seq<nat>)
    requires OnlyRemovals(ts) && Steps(ts, es) && 0 < |ts|
    ensures forall i, j :: 0 <= i < j < |es| ==> es[i] < es[j]
    ensures |ts| <= |ts[0].arr| + |ts[0].ns| + 1
  {
    forall i, j | 0 <= i < j < |es| ensures es[i] < es[j] { Increasing(ts, es, i, j); }
    StepsBound(ts, es, |ts| - 1);
  }

  lemma {:induction false} StepsBound(ts: seq<Entries>, es: seq<nat>, j: nat)
    requires OnlyRemovals(ts) && Steps(ts, es) && j < |ts|
    ensures j <= es[j] <= |ts[0].arr| + |ts[0].ns|
    decreases j
  {
    if 0 < j {
      Increasing(ts, es, j - 1, j);
      StepsBound(ts, es, j - 1);
    } else {
      assert Step(ts, es, j);
    }
  }

  lemma SkippedNil(ts: seq<Entries>, es: seq<nat>, e: nat, j: nat)
    requires Steps(ts, es) && j < |ts| && e < es[j] && (j == 0 || es[j - 1] < e)
    ensures EntryValue(ts[j].arr, ts[j].ns, e) == Nil
  {
    assert Step(ts, es, j);
  }

  /** Once a traversal has come to its end, it has visited every entry that had
      a value when its turn came. */
  lemma {:induction false} TraversalVisits(ts: seq<Entries>, es: seq<nat>, e: nat, j: nat)
    requires OnlyRemovals(ts) && Steps(ts, es) && j < |ts| && e < es[j]
    requires forall i :: 0 <= i <= j && (i == 0 || es[i - 1] < e) ==> EntryValue(ts[i].arr, ts[i].ns, e) != Nil
    ensures exists i :: 0 <= i < j && es[i] == e
    decreases j
  {
    if j == 0 || es[j - 1] < e {
      SkippedNil(ts, es, e, j);
      assert false;
    } else if es[j - 1] > e {
      TraversalVisits(ts, es, e, j - 1);
    }
  }

  /** Every value belongs to an entry. */
  lemma KeyEntry(hash: (Key, nat) -> nat, arr: seq<Val>, ns: seq<Node>, dummy: bool, lastfree: int, sp: seq<Spot>,
        k: Key) returns (e: nat)
    requires Sound(hash, arr, ns, dummy, lastfree, sp) && ValueAt(arr, ns, k) != Nil
    ensures e < |arr| + |ns| && EntryKey(arr, ns, e) == k && EntryValue(arr, ns, e) == ValueAt(arr, ns, k)
    ensures IndexOf(|arr|, ns, sp, k, e)
  {
    hide Sound;
    if InArray(k, |arr|) {
      e := ArrayIndex(k) - 1;
    } else {
      var i :| 0 <= i < |ns| && Live(ns[i], k) && ns[i].val == HashValue(ns, k);
      e := |arr| + i;
    }
    EntryAt(hash, arr, ns, dummy, lastfree, sp, e);
  }

  /** A program goes through a table with next. ts holds the table before each call, es the
      entries found, ks their keys; so far, the table is at arr and ns. */
  ghost predicate Going(hash: (Key, nat) -> nat, dummy: bool, lastfree: int, sp: seq<Spot>, ts: seq<Entries>,
        es: seq<nat>, ks: seq<Key>,
                        arr: seq<Val>, ns: seq<Node>)
  {
    && OnlyRemovals(ts + [Entries(arr, ns)]) && Steps(ts, es) && |ks| == |ts|
    && (forall j :: 0 <= j < |ts| ==> Sound(hash, ts[j].arr, ts[j].ns, dummy, lastfree, sp))
    && (forall j :: 0 <= j < |ts| ==> es[j] < |arr| + |ns| && IndexOf(|arr|, ns, sp, ks[j], es[j]))
  }

  /** What the first n assignments of a step make of k's value v; a field without a value is
      not assigned to. */
  function Assigned(step: seq<(Key, Val)>, n: nat, k: Key, v: Val): Val
    requires n <= |step|
  {
    if n == 0 then v
    else
      var u := Assigned(step, n - 1, k, v);
      if u != Nil && step[n - 1].0 == k then step[n - 1].1 else u
  }

  /** The value of k before call number n of next, when it was v at first. */
  function Current(plan: seq<seq<(Key, Val)>>, n: nat, k: Key, v: Val): Val {
    if n == 0 then v
    else
      var u := Current(plan, n - 1, k, v);
      if n <= |plan| then Assigned(plan[n - 1], |plan[n - 1]|, k, u) else u
  }

  lemma NoneYet(plan: seq<seq<(Key, Val)>>, k: Key, v: Val)
    ensures Current(plan, 0, k, v) == v
  {
  }

  lemma OneMore(plan: seq<seq<(Key, Val)>>, n: nat, k: Key, v: Val)
    ensures var step := if n < |plan| then plan[n] else [];
            Current(plan, n + 1, k, v) == Assigned(step, |step|, k, Current(plan, n, k, v))
  {
  }

  lemma {:induction false} NilAssigned(step: seq<(Key, Val)>, n: nat, k: Key)
    requires n <= |step|
    ensures Assigned(step, n, k, Nil) == Nil
  {
    if n > 0 { NilAssigned(step, n - 1, k); }
  }

  /** What has a value has had one all the time. */
  lemma {:induction false} StillThere(plan: seq<seq<(Key, Val)>>, m: nat, n: nat, k: Key, v: Val)
    requires m <= n && Current(plan, n, k, v) != Nil
    ensures Current(plan, m, k, v) != Nil
    decreases n
  {
    hide Assigned;
    if m < n {
      if n <= |plan| { NilAssigned(plan[n - 1], |plan[n - 1]|, k); }
      StillThere(plan, m, n - 1, k, v);
    }
  }

  /** No entry gets a value while no key gets one. */
  lemma NilStays(hash: (Key, nat) -> nat, dummy: bool, lastfree: int, sp: seq<Spot>, arr: seq<Val>, ns: seq<Node>,
        arr': seq<Val>, ns': seq<Node>, e: int)
    requires Sound(hash, arr, ns, dummy, lastfree, sp) && Sound(hash, arr', ns', dummy, lastfree, sp)
    requires |arr'| == |arr| && SameShape(ns, ns')
    requires forall k :: ValueAt(arr', ns', k) != Nil ==> ValueAt(arr, ns, k) != Nil
    requires EntryValue(arr, ns, e) == Nil
    ensures EntryValue(arr', ns', e) == Nil
  {
    hide Sound, ValueAt, IndexOf;
    if EntryValue(arr', ns', e) != Nil {
      EntryAt(hash, arr', ns', dummy, lastfree, sp, e);
      var k := EntryKey(arr', ns', e);
      StillEntry(hash, dummy, lastfree, sp, arr, ns, arr', ns', k, e);
    }
  }

  /** Fields have been assigned to, or the collector has been at work. */
  lemma GoingOn(hash: (Key, nat) -> nat, dummy: bool, lastfree: int, sp: seq<Spot>, ts: seq<Entries>, es: seq<nat>,
        ks: seq<Key>, arr: seq<Val>, ns: seq<Node>, arr': seq<Val>, ns': seq<Node>, step: seq<(Key, Val)>)
    requires Going(hash, dummy, lastfree, sp, ts, es, ks, arr, ns)
    requires Sound(hash, arr, ns, dummy, lastfree, sp) && Sound(hash, arr', ns', dummy, lastfree, sp)
    requires |arr'| == |arr| && SameShape(ns, ns')
    requires forall k :: ValueAt(arr', ns', k) == Assigned(step, |step|, k, ValueAt(arr, ns, k))
    ensures Going(hash, dummy, lastfree, sp, ts, es, ks, arr', ns')
  {
    hide Sound, Step, IndexOf, Assigned, ValueAt;
    var us, vs := ts + [Entries(arr, ns)], ts + [Entries(arr', ns')];
    forall k | ValueAt(arr', ns', k) != Nil ensures ValueAt(arr, ns, k) != Nil { NilAssigned(step, |step|, k); }
    forall e | EntryValue(arr, ns, e) == Nil ensures EntryValue(arr', ns', e) == Nil {
      NilStays(hash, dummy, lastfree, sp, arr, ns, arr', ns', e);
    }
    forall i, j | 0 <= i <= j < |vs|
      ensures |vs[i].arr| == |vs[j].arr| && SameShape(vs[i].ns, vs[j].ns)
      ensures forall e :: EntryValue(vs[i].arr, vs[i].ns, e) == Nil ==> EntryValue(vs[j].arr, vs[j].ns, e) == Nil
    {
      assert |us[i].arr| == |us[j].arr| && SameShape(us[i].ns, us[j].ns);
    }
    forall j | 0 <= j < |ts|
          ensures IndexOf(|arr'|, ns', sp, ks[j], es[j]) { IndexKept(|arr|, ns, ns', sp, ks[j], es[j]); }
  }

  function LastKey(ks: seq<Key>): Key {
    if ks == [] then KNil else ks[|ks| - 1]
  }

  lemma SameSizes(ts: seq<Entries>, arr: seq<Val>, ns: seq<Node>)
    requires OnlyRemovals(ts + [Entries(arr, ns)])
    ensures forall j :: 0 <= j < |ts| ==> |ts[j].arr| == |arr| && |ts[j].ns| == |ns| && SameShape(ts[j].ns, ns)
    ensures OnlyRemovals(ts) && OnlyRemovals(ts + [Entries(arr, ns)] + [Entries(arr, ns)])
  {
    var us := ts + [Entries(arr, ns)];
    var vs := us + [Entries(arr, ns)];
    forall j | 0 <= j < |ts| ensures |ts[j].arr| == |arr|
          && SameShape(ts[j].ns, ns) { assert us[j] == ts[j] && us[|ts|] == Entries(arr, ns); }
    forall i, j | 0 <= i <= j < |ts|
      ensures |ts[i].arr| == |ts[j].arr| && SameShape(ts[i].ns, ts[j].ns)
      ensures forall e :: EntryValue(ts[i].arr, ts[i].ns, e) == Nil ==> EntryValue(ts[j].arr, ts[j].ns, e) == Nil
    {
      assert us[i] == ts[i] && us[j] == ts[j];
    }
    forall i, j | 0 <= i <= j < |vs|
      ensures |vs[i].arr| == |vs[j].arr| && SameShape(vs[i].ns, vs[j].ns)
      ensures forall e :: EntryValue(vs[i].arr, vs[i].ns, e) == Nil ==> EntryValue(vs[j].arr, vs[j].ns, e) == Nil
    {
      var i', j' := if i == |us| then i - 1 else i, if j == |us| then j - 1 else j;
      assert us[i'] == vs[i] && us[j'] == vs[j];
    }
  }

  /** The next call starts after the entry of the last key. */
  lemma NextStart(hash: (Key, nat) -> nat, dummy: bool, lastfree: int, sp: seq<Spot>, ts: seq<Entries>, es: seq<nat>,
        ks: seq<Key>,
                  arr: seq<Val>, ns: seq<Node>, from: int, e: nat)
    requires Going(hash, dummy, lastfree, sp, ts, es, ks, arr, ns) && IndexOf(|arr|, ns, sp, LastKey(ks), from)
    requires e == NextEntry(arr, ns, from + 1)
    ensures Steps(ts + [Entries(arr, ns)], es + [e])
  {
    hide Sound, NextEntry, SameShape;
    var us, fs, n := ts + [Entries(arr, ns)], es + [e], |ts|;
    if n > 0 { OneIndex(|arr|, ns, sp, LastKey(ks), from, es[n - 1]); }
    SameSizes(ts, arr, ns);
    forall j | 0 <= j < |us| ensures Step(us, fs, j) {
      if j < n { assert Step(ts, es, j); }
    }
  }

  /** A call of next has found entry e, with this key. */
  lemma GoneNext(hash: (Key, nat) -> nat, dummy: bool, lastfree: int, sp: seq<Spot>, ts: seq<Entries>, es: seq<nat>,
        ks: seq<Key>,
                 arr: seq<Val>, ns: seq<Node>, from: int, e: nat, key: Key)
    requires Going(hash, dummy, lastfree, sp, ts, es, ks, arr, ns) && IndexOf(|arr|, ns, sp, LastKey(ks), from)
    requires Sound(hash, arr, ns, dummy, lastfree, sp)
    requires e == NextEntry(arr, ns, from + 1) && e < |arr| + |ns| && IndexOf(|arr|, ns, sp, key, e)
    ensures Going(hash, dummy, lastfree, sp, ts + [Entries(arr, ns)], es + [e], ks + [key], arr, ns)
  {
    hide Sound, Step, IndexOf, NextEntry, OnlyRemovals;
    NextStart(hash, dummy, lastfree, sp, ts, es, ks, arr, ns, from, e);
    SameSizes(ts, arr, ns);
  }

  /** No key comes twice. */
  lemma VisitedOnce(hash: (Key, nat) -> nat, dummy: bool, lastfree: int, sp: seq<Spot>, ts: seq<Entries>, es: seq<nat>,
        ks: seq<Key>,
                    arr: seq<Val>, ns: seq<Node>, i: nat, j: nat)
    requires Going(hash, dummy, lastfree, sp, ts, es, ks, arr, ns) && i < j < |ks|
    ensures ks[i] != ks[j]
  {
    hide Sound, Step, IndexOf, OnlyRemovals;
    SameSizes(ts, arr, ns);
    Increasing(ts, es, i, j);
    if ks[i] == ks[j] { OneIndex(|arr|, ns, sp, ks[i], es[i], es[j]); }
  }

  /** When next finds no more, all keys have come that have had a value all the time. */
  lemma AllVisited(hash: (Key, nat) -> nat, dummy: bool, lastfree: int, sp: seq<Spot>, ts: seq<Entries>, es: seq<nat>,
        ks: seq<Key>,
                   arr: seq<Val>, ns: seq<Node>, from: int, k: Key)
    requires Going(hash, dummy, lastfree, sp, ts, es, ks, arr, ns) && IndexOf(|arr|, ns, sp, LastKey(ks), from)
    requires Sound(hash, arr, ns, dummy, lastfree, sp) && |arr| + |ns| == NextEntry(arr, ns, from + 1)
    requires ValueAt(arr, ns, k) != Nil && forall j :: 0 <= j < |ts| ==> ValueAt(ts[j].arr, ts[j].ns, k) != Nil
    ensures k in ks
  {
    hide Sound, Step, IndexOf, NextEntry, OnlyRemovals, ValueAt, SameShape;
    var end, us := |arr| + |ns|, ts + [Entries(arr, ns)];
    NextStart(hash, dummy, lastfree, sp, ts, es, ks, arr, ns, from, end);
    SameSizes(ts, arr, ns);
    var e := KeyEntry(hash, arr, ns, dummy, lastfree, sp, k);
    forall i | 0 <= i < |us| ensures EntryValue(us[i].arr, us[i].ns, e) != Nil {
      if i < |ts| { StillEntry(hash, dummy, lastfree, sp, ts[i].arr, ts[i].ns, arr, ns, k, e); }
    }
    TraversalVisits(us, es + [end], e, |ts|);
    var i :| 0 <= i < |ts| && (es + [end])[i] == e;
    KeyOfIndex(|arr|, ns, sp, ks[i], arr, e);
  }

  lemma StillEntry(hash: (Key, nat) -> nat, dummy: bool, lastfree: int, sp: seq<Spot>, arr0: seq<Val>, ns0: seq<Node>,
        arr: seq<Val>,
                   ns: seq<Node>, k: Key, e: nat)
    requires Sound(hash, arr0, ns0, dummy, lastfree, sp) && |arr0| == |arr| && SameShape(ns0, ns)
    requires ValueAt(arr0, ns0, k) != Nil && IndexOf(|arr|, ns, sp, k, e)
    ensures EntryValue(arr0, ns0, e) != Nil
  {
    hide Sound, ValueAt, IndexOf;
    var f := KeyEntry(hash, arr0, ns0, dummy, lastfree, sp, k);
    IndexKept(|arr|, ns0, ns, sp, k, f);
    OneIndex(|arr|, ns, sp, k, e, f);
  }

  lemma KeyOfIndex(asize: nat, ns: seq<Node>, sp: seq<Spot>, k: Key, arr: seq<Val>, e: nat)
    requires asize == |arr| && IndexOf(asize, ns, sp, k, e)
    ensures EntryKey(arr, ns, e) == k
  {
  }

  lemma GoingStart(hash: (Key, nat) -> nat, dummy: bool, lastfree: int, sp: seq<Spot>, arr: seq<Val>, ns: seq<Node>)
    ensures Going(hash, dummy, lastfree, sp, [], [], [], arr, ns)
  {
  }

  /** The last key can still be found. */
  lemma KeyThere(hash: (Key, nat) -> nat, dummy: bool, lastfree: int, sp: seq<Spot>, ts: seq<Entries>, es: seq<nat>,
        ks: seq<Key>,
                 arr: seq<Val>, ns: seq<Node>)
    requires Going(hash, dummy, lastfree, sp, ts, es, ks, arr, ns)
    ensures LastKey(ks) == KNil || InArray(LastKey(ks), |arr|) || exists i :: 0 <= i < |ns| && ns[i].key == LastKey(ks)
  {
    hide Sound, OnlyRemovals, Step;
    if ks != [] {
      var j := |ks| - 1;
      assert IndexOf(|arr|, ns, sp, ks[j], es[j]);
    }
  }

  lemma StepsLeft(hash: (Key, nat) -> nat, dummy: bool, lastfree: int, sp: seq<Spot>, ts: seq<Entries>, es: seq<nat>,
        ks: seq<Key>,
                  arr: seq<Val>, ns: seq<Node>)
    requires Going(hash, dummy, lastfree, sp, ts, es, ks, arr, ns)
    ensures |ks| <= |arr| + |ns|
  {
    hide Sound, OnlyRemovals, Step, IndexOf;
    SameSizes(ts, arr, ns);
    if ks != [] { StepsBound(ts, es, |ts| - 1); }
  }

  // ----- Borders -----

  ghost predicate Border(arr: seq<Val>, ns: seq<Node>, n: nat) {
    (n == 0 || ValueAt(arr, ns, KInt(n)) != Nil) && ValueAt(arr, ns, KInt(n + 1)) == Nil
  }

  /** A table of n integers has at least n entries. */
  lemma FewIntegers(hash: (Key, nat) -> nat, arr: seq<Val>, ns: seq<Node>, dummy: bool, lastfree: int, sp: seq<Spot>,
        n: nat)
    requires Sound(hash, arr, ns, dummy, lastfree, sp) && |ns| <= Pow2(MAXBITS)
    requires forall m :: 1 <= m <= n ==> ValueAt(arr, ns, KInt(m)) != Nil
    ensures n <= 0x800_0000
  {
    hide ValueAt, Sound;
    SoundArray(hash, arr, ns, dummy, lastfree, sp);
    MaxSize();
    var ks := set m | 1 <= m <= n :: KInt(m);
    FirstIntegers(n);
    forall k | k in ks ensures k in ArrayKeys(arr) + KeysFrom(ns, 0) { HasKey(arr, ns, k); }
    Fewer(ks, ArrayKeys(arr) + KeysFrom(ns, 0));
    FewNodeKeys(ns, 0);
    ArrayInts(arr);
    IntervalSize(UsedSlots(arr), 0, |arr|);
  }

  lemma HasKey(arr: seq<Val>, ns: seq<Node>, k: Key)
    requires |arr| <= Pow2(MAXBITS) && ValueAt(arr, ns, k) != Nil
    ensures k in ArrayKeys(arr) + KeysFrom(ns, 0)
  {
    MaxSize();
    if InArray(k, |arr|) {
      var i := ArrayIndex(k) - 1;
      assert k == KInt(i + 1) && arr[i] != Nil;
    } else {
      var i :| 0 <= i < |ns| && Live(ns[i], k) && ns[i].val == HashValue(ns, k);
      assert ns[i].key == k;
    }
  }

  lemma {:induction false} FirstIntegers(n: nat)
    ensures |set m | 1 <= m <= n :: KInt(m)| == n
    decreases n
  {
    var ks := set m | 1 <= m <= n :: KInt(m);
    if n == 0 {
      assert ks == {};
    } else {
      FirstIntegers(n - 1);
      assert ks == (set m | 1 <= m <= n - 1 :: KInt(m)) + {KInt(n)};
    }
  }

  lemma {:induction false} FewNodeKeys(ns: seq<Node>, i: nat)
    requires i <= |ns|
    ensures |KeysFrom(ns, i)| <= |ns| - i
    decreases |ns| - i
  {
    if i < |ns| {
      FewNodeKeys(ns, i + 1);
      Fewer(KeysFrom(ns, i), KeysFrom(ns, i + 1) + {ns[i].key});
    } else {
      assert KeysFrom(ns, i) == {};
    }
  }
}
