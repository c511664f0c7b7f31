/** Moving the values of a table to new parts. */
module TableResize {
  import opened NodeChains
  import opened ArraySizing
  import opened TableEntries
  import opened TableCounts
  import opened TableInvariant

  function Nils(n: nat): (s: seq<Val>)
    ensures |s| == n && forall i :: 0 <= i < n ==> s[i] == Nil
  {
    seq(n, i => Nil)
  }

  /** The array part, cut or filled up with nils. */
  function Resized(arr: seq<Val>, n: nat): (s: seq<Val>)
    ensures |s| == n && forall i :: 0 <= i < n ==> s[i] == if i < |arr| then arr[i] else Nil
  {
    if n <= |arr| then arr[..n] else arr + Nils(n - |arr|)
  }

  /** The new parts hold the old values of the keys in done and those that never
      left the array part. */
  ghost predicate Moved(arr: seq<Val>, ns: seq<Node>, arr0: seq<Val>, ns0: seq<Node>, done: set<Key>) {
    forall k: Key :: ValueAt(arr, ns, k) ==
      if k in done || (InArray(k, |arr|) && InArray(k, |arr0|)) then ValueAt(arr0, ns0, k) else Nil
  }

  lemma MovedStart(arr: seq<Val>, ns: seq<Node>, arr0: seq<Val>, ns0: seq<Node>)
    requires arr == Resized(arr0, |arr|) && forall k :: k != KNil ==> HashValue(ns, k) == Nil
    ensures Moved(arr, ns, arr0, ns0, {})
  {
    hide HashValue;
  }

  lemma MovedStep(arr: seq<Val>, ns: seq<Node>, brr: seq<Val>, ms: seq<Node>, arr0: seq<Val>, ns0: seq<Node>,
        done: set<Key>, k: Key)
    requires Moved(arr, ns, arr0, ns0, done) && |brr| == |arr|
    requires forall q :: ValueAt(brr, ms, q) == if q == k then ValueAt(arr0, ns0, k) else ValueAt(arr, ns, q)
    ensures Moved(brr, ms, arr0, ns0, done + {k})
  {
    hide ValueAt;
  }

  lemma MovedAll(arr: seq<Val>, ns: seq<Node>, arr0: seq<Val>, ns0: seq<Node>, done: set<Key>)
    requires Moved(arr, ns, arr0, ns0, done)
    requires forall k :: ValueAt(arr0, ns0, k) != Nil ==> k in done || (InArray(k, |arr|) && InArray(k, |arr0|))
    ensures forall k :: ValueAt(arr, ns, k) == ValueAt(arr0, ns0, k)
  {
    hide ValueAt;
  }

  /** While values move, the new hash part holds only keys that moved there. */
  lemma MovedKeys(hash: (Key, nat) -> nat, arr: seq<Val>, ns: seq<Node>, dummy: bool, lastfree: int, sp: seq<Spot>,
                  arr0: seq<Val>, ns0: seq<Node>, done: set<Key>)
    requires Sound(hash, arr, ns, dummy, lastfree, sp) && Moved(arr, ns, arr0, ns0, done)
    ensures forall i :: 0 <= i < |ns| && ns[i].val != Nil ==> ns[i].key in Outside(done, |arr|)
  {
    hide Chains, HashValue;
    forall i | 0 <= i < |ns| && ns[i].val != Nil ensures ns[i].key in Outside(done, |arr|) {
      StoredLive(ns, sp, Main(hash, |ns|), i);
      assert ValueAt(arr, ns, ns[i].key) != Nil;
    }
  }

  /** There is room for each key that moves. */
  lemma MoveFits(hash: (Key, nat) -> nat, arr: seq<Val>, ns: seq<Node>, dummy: bool, lastfree: int, sp: seq<Spot>,
                 arr0: seq<Val>, ns0: seq<Node>, done: set<Key>, all: set<Key>, nhsize: int)
    requires Sound(hash, arr, ns, dummy, lastfree, sp) && Moved(arr, ns, arr0, ns0, done) && DenseBut(ns, Missing)
    requires done <= all && |Outside(all, |arr|)| <= nhsize
    requires if dummy then nhsize == 0 else nhsize <= |ns|
    ensures forall k :: k in all && k !in done && !InArray(k, |arr|) ==> HasFree(ns, dummy)
    ensures |Outside(all, |arr|)| < nhsize ==> HasFree(ns, dummy)
  {
    hide Chains, HashValue, Moved, InArray;
    MovedKeys(hash, arr, ns, dummy, lastfree, sp, arr0, ns0, done);
    Fewer(Outside(done, |arr|), Outside(all, |arr|));
    if k :| k in all && k !in done && !InArray(k, |arr|) {
      Fewer(Outside(done, |arr|), Outside(all, |arr|) - {k});
      RoomLeft(ns, sp, Main(hash, |ns|), Outside(done, |arr|));
    }
    if |Outside(all, |arr|)| < nhsize {
      RoomLeft(ns, sp, Main(hash, |ns|), Outside(done, |arr|));
    }
  }

  // ----- Which keys move when -----

  /** The keys of array slots lo..hi-1. */
  ghost function ArrayKeysIn(arr: seq<Val>, lo: int, hi: int): set<Key> {
    set i | 0 <= i < |arr| && lo <= i < hi && arr[i] != Nil :: KInt(i + 1)
  }

  lemma ArrayKeysEnds(arr: seq<Val>, lo: int, hi: int)
    ensures hi <= lo ==> ArrayKeysIn(arr, lo, hi) == {}
    ensures hi >= |arr| ==> ArrayKeysIn(arr, lo, hi) == ArrayKeysIn(arr, lo, |arr|)
  {
  }

  lemma SlotKey(arr: seq<Val>, ns: seq<Node>, i: nat, lo: nat)
    requires lo <= i < |arr| <= Pow2(MAXBITS)
    ensures var k := KInt(i + 1);
            && InArray(k, |arr|) && ValueAt(arr, ns, k) == arr[i]
            && k !in ArrayKeysIn(arr, lo, i)
            && ArrayKeysIn(arr, lo,
                  i + 1) == (if arr[i] != Nil then ArrayKeysIn(arr, lo, i) + {k} else ArrayKeysIn(arr, lo, i))
            && (arr[i] != Nil ==> k in ArrayKeys(arr))
  {
    MaxSize();
  }

  lemma NodeKey(hash: (Key, nat) -> nat, arr: seq<Val>, ns: seq<Node>, dummy: bool, lastfree: int, sp: seq<Spot>,
        i: nat, lo: nat)
    requires Sound(hash, arr, ns, dummy, lastfree, sp) && i < |ns|
    ensures KeysFrom(ns, i) == if ns[i].val != Nil then KeysFrom(ns, i + 1) + {ns[i].key} else KeysFrom(ns, i + 1)
    ensures ns[i].val != Nil ==> var k := ns[i].key;
              && Storable(k) && ValueAt(arr, ns, k) == ns[i].val && k in KeysFrom(ns, 0)
              && k !in KeysFrom(ns, i + 1) && k !in ArrayKeysIn(arr, lo, |arr|)
  {
    hide Chains, HashValue;
    if ns[i].val != Nil {
      StoredLive(ns, sp, Main(hash, |ns|), i);
      NodeKeyOnce(hash, arr, ns, dummy, lastfree, sp, i);
      NotArrayKey(hash, arr, ns, dummy, lastfree, sp, i, lo);
    }
  }

  lemma NodeKeyOnce(hash: (Key, nat) -> nat, arr: seq<Val>, ns: seq<Node>, dummy: bool, lastfree: int, sp: seq<Spot>,
        i: nat)
    requires Sound(hash, arr, ns, dummy, lastfree, sp) && i < |ns| && ns[i].val != Nil
    ensures ns[i].key !in KeysFrom(ns, i + 1)
  {
    hide Chains, HashValue;
    StoredLive(ns, sp, Main(hash, |ns|), i);
    forall j | i < j < |ns| && ns[j].val != Nil ensures ns[j].key != ns[i].key {
      StoredLive(ns, sp, Main(hash, |ns|), j);
      if ns[j].key == ns[i].key { OneLive(ns, sp, Main(hash, |ns|), i, j); }
    }
  }

  lemma NotArrayKey(hash: (Key, nat) -> nat, arr: seq<Val>, ns: seq<Node>, dummy: bool, lastfree: int, sp: seq<Spot>,
        i: nat, lo: nat)
    requires Sound(hash, arr, ns, dummy, lastfree, sp) && i < |ns|
    ensures ns[i].key !in ArrayKeysIn(arr, lo, |arr|) && ns[i].key !in ArrayKeys(arr)
  {
    MaxSize();
  }

  /** A key with a value is in the array part or in a node. */
  lemma ValueKey(arr: seq<Val>, ns: seq<Node>, lo: nat, k: Key)
    requires |arr| <= Pow2(MAXBITS) && ValueAt(arr, ns, k) != Nil
    ensures k in Keys(arr, ns)
    ensures k in ArrayKeysIn(arr, lo, |arr|) + KeysFrom(ns, 0) || (InArray(k, lo) && InArray(k, |arr|))
  {
    MaxSize();
    if InArray(k, |arr|) {
      var i := ArrayIndex(k) - 1;
      assert k == KInt(i + 1) && arr[i] != Nil;
    } else {
      var i :| 0 <= i < |ns| && Live(ns[i], k) && ns[i].val == HashValue(ns, k);
      assert ns[i].key == k;
    }
  }

  lemma KeyValue(hash: (Key, nat) -> nat, arr: seq<Val>, ns: seq<Node>, dummy: bool, lastfree: int, sp: seq<Spot>,
        k: Key)
    requires Sound(hash, arr, ns, dummy, lastfree, sp) && k in Keys(arr, ns)
    ensures ValueAt(arr, ns, k) != Nil && Storable(k)
  {
    hide Chains, HashValue;
    MaxSize();
    if k in KeysFrom(ns, 0) {
      var i :| 0 <= i < |ns| && ns[i].val != Nil && ns[i].key == k;
      StoredLive(ns, sp, Main(hash, |ns|), i);
    }
  }

  lemma OldKeysWithin(arr: seq<Val>, ns: seq<Node>, lo: nat, hi: int, i: int)
    ensures ArrayKeysIn(arr, lo, hi) + KeysFrom(ns, i) <= Keys(arr, ns)
  {
    forall k | k in KeysFrom(ns, i) ensures k in KeysFrom(ns, 0) {
      var j :| 0 <= j < |ns| && i <= j && ns[j].val != Nil && ns[j].key == k;
    }
  }
}
