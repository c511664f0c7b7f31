/** What a table of an array part and a hash part holds. */
module TableEntries {
  import opened NodeChains
  import opened ArraySizing

  const MAX_INT := 0x7fff_ffff

  /** The index of a key that may live in the array part, or -1. */
  function ArrayIndex(k: Key): int {
    if k.KInt? && -0x8000_0000 <= k.i <= MAX_INT then k.i else -1
  }

  predicate InArray(k: Key, n: int) {
    0 < ArrayIndex(k) <= n
  }

  /** Where a value is stored. */
  datatype Slot = Missing | AtIndex(i: nat) | AtNode(i: nat)

  /** Main positions in a vector of n nodes. */
  function Main(hash: (Key, nat) -> nat, n: nat): Key -> int {
    (k: Key) => hash(k, n)
  }

  // ----- Values -----

  ghost function HashValue(ns: seq<Node>, k: Key): Val {
    if Absent(ns, k) then Nil else
      var i :| 0 <= i < |ns| && Live(ns[i], k);
      ns[i].val
  }

  ghost function ValueAt(arr: seq<Val>, ns: seq<Node>, k: Key): Val {
    if InArray(k, |arr|) then arr[ArrayIndex(k) - 1] else if k == KNil then Nil else HashValue(ns, k)
  }

  lemma RanksApart(ns: seq<Node>, sp: seq<Spot>, mp: Key -> int, i: int, j: int)
    requires Chains(ns, sp, mp) && 0 <= i < |ns| && 0 <= j < |ns| && i != j
    requires ns[i].key == ns[j].key != KNil
    ensures sp[i].rank != sp[j].rank
  {
    hide Unused, FirstLive;
    assert Placed(ns, sp, mp, i) && Placed(ns, sp, mp, j);
  }

  lemma OneLive(ns: seq<Node>, sp: seq<Spot>, mp: Key -> int, i: int, j: int)
    requires Chains(ns, sp, mp) && 0 <= i < |ns| && 0 <= j < |ns|
    requires ns[i].key == ns[j].key != KNil && !ns[i].dead && !ns[j].dead
    ensures i == j
  {
    hide Unused, Placed;
    if i != j { RanksApart(ns, sp, mp, i, j); }
  }

  lemma LiveValue(ns: seq<Node>, sp: seq<Spot>, mp: Key -> int, i: int)
    requires Chains(ns, sp, mp) && 0 <= i < |ns| && ns[i].key != KNil && !ns[i].dead
    ensures HashValue(ns, ns[i].key) == ns[i].val
  {
    hide Chains;
    var k := ns[i].key;
    assert Live(ns[i], k) && !Absent(ns, k);
    var j :| 0 <= j < |ns| && Live(ns[j], k) && HashValue(ns, k) == ns[j].val;
    assert ns[j].key == k && !ns[j].dead;
    OneLive(ns, sp, mp, i, j);
  }

  lemma UnusedFree(ns: seq<Node>, sp: seq<Spot>, mp: Key -> int, i: int)
    requires Chains(ns, sp, mp) && 0 <= i < |ns| && ns[i].key == KNil
    ensures ns[i] == FREE
  {
    hide FirstLive, Linked, Placed;
  }

  lemma StoredLive(ns: seq<Node>, sp: seq<Spot>, mp: Key -> int, i: int)
    requires Chains(ns, sp, mp) && 0 <= i < |ns| && ns[i].val != Nil
    ensures ns[i].key != KNil && !ns[i].dead && HashValue(ns, ns[i].key) == ns[i].val
  {
    hide FirstLive, Linked, Placed, HashValue;
    if ns[i].key == KNil { UnusedFree(ns, sp, mp, i); }
    LiveValue(ns, sp, mp, i);
  }

  /** Every value of ns is in ms, under the same key. */
  ghost predicate Carried(ns: seq<Node>, ms: seq<Node>) {
    forall i :: 0 <= i < |ns| && ns[i].val != Nil ==>
      exists j :: 0 <= j < |ms| && ms[j].key == ns[i].key && ms[j].val == ns[i].val
  }

  lemma CarriedValue(ns: seq<Node>, ms: seq<Node>, sq: seq<Spot>, mq: Key -> int, k: Key)
    requires Chains(ms, sq, mq) && Carried(ns, ms) && HashValue(ns, k) != Nil
    ensures HashValue(ms, k) == HashValue(ns, k)
  {
    hide Chains;
    var i :| 0 <= i < |ns| && Live(ns[i], k) && ns[i].val == HashValue(ns, k);
    var j :| 0 <= j < |ms| && ms[j].key == ns[i].key && ms[j].val == ns[i].val;
    StoredLive(ms, sq, mq, j);
  }

  lemma SameValues(ns: seq<Node>, sp: seq<Spot>, ms: seq<Node>, sq: seq<Spot>, mp: Key -> int)
    requires Chains(ns, sp, mp) && Chains(ms, sq, mp) && Carried(ns, ms) && Carried(ms, ns)
    ensures forall k :: HashValue(ms, k) == HashValue(ns, k)
  {
    hide Chains, Carried, HashValue;
    forall k ensures HashValue(ms, k) == HashValue(ns, k) {
      if HashValue(ns, k) != Nil { CarriedValue(ns, ms, sq, mp, k); }
      else if HashValue(ms, k) != Nil { CarriedValue(ms, ns, sp, mp, k); }
    }
  }

  // ----- The three ways to enter a key lose nothing -----

  lemma AtMainCarried(ns: seq<Node>, p: int, k: Key)
    requires 0 <= p < |ns| && ns[p].val == Nil
    ensures Carried(ns, AtMain(ns, p, k)) && Carried(AtMain(ns, p, k), ns)
  {
    var ms := AtMain(ns, p, k);
    forall i | 0 <= i < |ns| && ns[i].val != Nil
      ensures exists j :: 0 <= j < |ms| && ms[j].key == ns[i].key && ms[j].val == ns[i].val
    {
      assert ms[i] == ns[i];
    }
    forall i | 0 <= i < |ms| && ms[i].val != Nil
      ensures exists j :: 0 <= j < |ns| && ns[j].key == ms[i].key && ns[j].val == ms[i].val
    {
      assert ms[i] == ns[i];
    }
  }

  lemma AfterMainCarried(ns: seq<Node>, p: int, n: int, k: Key)
    requires 0 <= p < |ns| && 0 <= n < |ns| && n != p && ns[n].val == Nil
    ensures Carried(ns, AfterMain(ns, p, n, k)) && Carried(AfterMain(ns, p, n, k), ns)
  {
    var ms := AfterMain(ns, p, n, k);
    forall i | 0 <= i < |ns| && ns[i].val != Nil
      ensures exists j :: 0 <= j < |ms| && ms[j].key == ns[i].key && ms[j].val == ns[i].val
    {
      assert ms[i].key == ns[i].key && ms[i].val == ns[i].val;
    }
    forall i | 0 <= i < |ms| && ms[i].val != Nil
      ensures exists j :: 0 <= j < |ns| && ns[j].key == ms[i].key && ns[j].val == ms[i].val
    {
      assert ms[i].key == ns[i].key && ms[i].val == ns[i].val;
    }
  }

  lemma DisplacedCarried(ns: seq<Node>, p: int, prev: int, n: int, k: Key)
    requires 0 <= p < |ns| && 0 <= prev < |ns| && 0 <= n < |ns| && n != p && prev != p && n != prev && ns[n].val == Nil
    ensures Carried(ns, Displaced(ns, p, prev, n, k)) && Carried(Displaced(ns, p, prev, n, k), ns)
  {
    var ms := Displaced(ns, p, prev, n, k);
    forall i | 0 <= i < |ns| && ns[i].val != Nil
      ensures exists j :: 0 <= j < |ms| && ms[j].key == ns[i].key && ms[j].val == ns[i].val
    {
      var j := if i == p then n else i;
      assert ms[j].key == ns[i].key && ms[j].val == ns[i].val;
    }
    forall i | 0 <= i < |ms| && ms[i].val != Nil
      ensures exists j :: 0 <= j < |ns| && ns[j].key == ms[i].key && ns[j].val == ms[i].val
    {
      var j := if i == n then p else i;
      assert ns[j].key == ms[i].key && ns[j].val == ms[i].val;
    }
  }

  /** Storing a value changes that of its own key only. */
  lemma StoredValue(ns: seq<Node>, sp: seq<Spot>, mp: Key -> int, i: int, v: Val)
    requires Chains(ns, sp, mp) && 0 <= i < |ns| && ns[i].key != KNil && !ns[i].dead
    ensures var ms := ns[i := ns[i].(val := v)];
            && Chains(ms, sp, mp)
            && forall k :: k != KNil ==> HashValue(ms, k) == if k == ns[i].key then v else HashValue(ns, k)
  {
    hide HashValue;
    var ms := ns[i := ns[i].(val := v)];
    StoredChains(ns, sp, mp, i, v);
    forall k | k != KNil ensures HashValue(ms, k) == if k == ns[i].key then v else HashValue(ns, k) {
      hide Chains;
      if k == ns[i].key {
        LiveValue(ms, sp, mp, i);
      } else {
        StoredOther(ns, sp, mp, i, v, k);
      }
    }
  }

  lemma AbsentValue(ns: seq<Node>, k: Key)
    requires Absent(ns, k)
    ensures HashValue(ns, k) == Nil
  {
  }

  lemma StoredOther(ns: seq<Node>, sp: seq<Spot>, mp: Key -> int, i: int, v: Val, k: Key)
    requires Chains(ns, sp, mp) && 0 <= i < |ns| && Chains(ns[i := ns[i].(val := v)], sp, mp)
    requires k != ns[i].key && k != KNil
    ensures HashValue(ns[i := ns[i].(val := v)], k) == HashValue(ns, k)
  {
    hide Chains, HashValue;
    var ms := ns[i := ns[i].(val := v)];
    if j :| 0 <= j < |ns| && Live(ns[j], k) {
      assert ms[j] == ns[j];
      LiveValue(ns, sp, mp, j);
      LiveValue(ms, sp, mp, j);
    } else {
      assert Absent(ns, k);
      assert Absent(ms, k);
      AbsentValue(ns, k);
      AbsentValue(ms, k);
    }
  }

  lemma StoredPlaces(ns: seq<Node>, sp: seq<Spot>, mp: Key -> int, i: int, v: Val)
    requires Chains(ns, sp, mp) && 0 <= i < |ns| && ns[i].key != KNil
    ensures var ms := ns[i := ns[i].(val := v)];
            |sp| == |ns| && forall j :: 0 <= j < |ms| ==> if ms[j].key == KNil then Unused(ms, sp, j)
                  else Placed(ms, sp, mp, j)
  {
    hide FirstLive;
    assert |sp| == |ns|;
    hide Linked;
    var ms := ns[i := ns[i].(val := v)];
    forall j | 0 <= j < |ms| ensures if ms[j].key == KNil then Unused(ms, sp, j) else Placed(ms, sp, mp, j) {
      assert if ns[j].key == KNil then Unused(ns, sp, j) else Placed(ns, sp, mp, j);
    }
  }

  lemma StoredLinked(ns: seq<Node>, sp: seq<Spot>, i: int, v: Val)
    requires Linked(ns, sp) && FirstLive(ns, sp) && 0 <= i < |ns|
    ensures Linked(ns[i := ns[i].(val := v)], sp) && FirstLive(ns[i := ns[i].(val := v)], sp)
  {
    assert Linked(ns[i := ns[i].(val := v)], sp) by { hide FirstLive; }
    hide Linked;
  }

  lemma StoredChains(ns: seq<Node>, sp: seq<Spot>, mp: Key -> int, i: int, v: Val)
    requires Chains(ns, sp, mp) && 0 <= i < |ns| && ns[i].key != KNil && !ns[i].dead
    ensures Chains(ns[i := ns[i].(val := v)], sp, mp)
  {
    hide FirstLive, Linked, Unused, Placed;
    StoredLinked(ns, sp, i, v);
    StoredPlaces(ns, sp, mp, i, v);
  }
}
