/** What the end of a marking leaves in the tables. */
module GcWeakTables {
  import opened GcHeap
  import opened GcLists
  import opened GcInvariant
  import opened GcGrowth
  import opened GcAtomic
  import opened GcFacts
  import opened GcHeld

  /** A value that no weak table loses to the collector: no object, a string, or held by the
      program. */
  ghost predicate Safe(modeOf: Body -> (bool, bool), s: State, v: Value) {
    v.Ptr? ==> v.r in s.h && (s.h[v.r].body.Str? || Held(modeOf, s, v.r))
  }

  predicate Finalized(h: Heap, v: Value) {
    v.Ptr? && v.r in h && h[v.r].body.Udata? && h[v.r].bit3
  }

  /** The mode of table t. */
  function Mode(modeOf: Body -> (bool, bool), h: Heap, t: Ref): (bool, bool) {
    if t in h && h[t].body.Table? && h[t].body.meta.Ptr? && h[t].body.meta.r in h then modeOf(h[h[t].body.meta.r].body)
    else (false, false)
  }

  lemma SafeNotCollected(modeOf: Body -> (bool, bool), s: State, before: Heap, v: Value, isKey: bool)
    requires Onward(s.h, before) && KeepsHeld(modeOf, s, before) && Safe(modeOf, s, v)
    ensures Collected(before, v, isKey) <==> !isKey && Finalized(before, v)
  {
    hide KeepsHeld, Held;
    if v.Ptr? && Held(modeOf, s, v.r) { HeldMarkedThen(modeOf, s, before, v.r); }
  }

  /** A table that is not weak loses nothing. */
  lemma StrongTableStays(modeOf: Body -> (bool, bool), s: State, before: Heap, k: Heap, weak: seq<Ref>, t: Ref)
    requires Ended(modeOf, s, before, k, weak) && t in s.h && Mode(modeOf, s.h, t) == (false, false)
    ensures t in k && k[t].body == s.h[t].body
  {
    hide KeepsHeld, BitsHeld, TableCleared;
    if t in weak { assert ModeBits(modeOf, before, t); }
  }

  /** An entry whose key and value the program holds stays in a weak table, exactly unless the value
      is a userdata marked finalized. */
  lemma EntryStays(modeOf: Body -> (bool, bool), s: State, before: Heap, k: Heap, weak: seq<Ref>, t: Ref, i: nat)
    requires Ended(modeOf, s, before, k, weak) && t in weak && t in s.h && s.h[t].body.Table?
    requires i < |s.h[t].body.nodes|
    requires var e := s.h[t].body.nodes[i]; e.val != Nil && Safe(modeOf, s, e.key) && Safe(modeOf, s, e.val)
    ensures var e := s.h[t].body.nodes[i];
            && t in k && k[t].body.Table? && |k[t].body.nodes| == |s.h[t].body.nodes|
            && k[t].body.nodes[i] == if Finalized(before, e.val) then Entry(e.key, Nil) else e
  {
    hide KeepsHeld, BitsHeld, Collected, Safe, ArrayCleared, ModeBits;
    var e := s.h[t].body.nodes[i];
    SafeNotCollected(modeOf, s, before, e.key, true);
    SafeNotCollected(modeOf, s, before, e.val, false);
    assert before[t].body == s.h[t].body;
    assert EntryCleared(before, e, k[t].body.nodes[i]);
  }

  /** The same of a slot of the array, which is cleared only if values are weak. */
  lemma SlotStays(modeOf: Body -> (bool, bool), s: State, before: Heap, k: Heap, weak: seq<Ref>, t: Ref, i: nat)
    requires Ended(modeOf, s, before, k, weak) && t in weak && t in s.h && s.h[t].body.Table?
    requires i < |s.h[t].body.arr| && Safe(modeOf, s, s.h[t].body.arr[i])
    ensures var v := s.h[t].body.arr[i];
            && t in k && k[t].body.Table? && |k[t].body.arr| == |s.h[t].body.arr|
            && k[t].body.arr[i] == if Mode(modeOf, s.h, t).1 && Finalized(before, v) then Nil else v
  {
    hide KeepsHeld, BitsHeld, Collected, Safe, NodesCleared;
    SafeNotCollected(modeOf, s, before, s.h[t].body.arr[i], false);
    assert before[t].body == s.h[t].body && ModeBits(modeOf, before, t);
  }

  /** A userdata that the program holds, but not only through others that wait, is marked finalized
      by then exactly if it was. */
  lemma FinalizedBefore(modeOf: Body -> (bool, bool), s: State, before: Heap, u: Ref)
    requires BitsHeld(modeOf, s, before) && Onward(s.h, before) && HeldPast(modeOf, s, s.ls.tmu, u) && u in s.h
    ensures Finalized(before, Ptr(u)) <==> Finalized(s.h, Ptr(u))
  {
    hide HeldPast;
  }

  /** A userdata that waits for its finalizer is no value of a weak table any more, but for array
      slots of one with weak keys alone. */
  lemma WaitingLeaves(modeOf: Body -> (bool, bool), s: State, before: Heap, k: Heap, weak: seq<Ref>, t: Ref, u: Ref)
    requires Ended(modeOf, s, before, k, weak) && t in weak && t in s.h && s.h[t].body.Table?
    requires Finalized(before, Ptr(u))
    ensures t in k && k[t].body.Table? && forall i :: 0 <= i < |k[t].body.nodes| ==> k[t].body.nodes[i].val != Ptr(u)
    ensures if Mode(modeOf, s.h, t).1 then Ptr(u) !in k[t].body.arr else k[t].body.arr == s.h[t].body.arr
  {
    hide KeepsHeld, BitsHeld;
    assert before[t].body == s.h[t].body && ModeBits(modeOf, before, t);
    assert Collected(before, Ptr(u), false);
    hide Collected;
    forall i | 0 <= i < |k[t].body.nodes| ensures k[t].body.nodes[i].val != Ptr(u) {
      assert EntryCleared(before, before[t].body.nodes[i], k[t].body.nodes[i]);
    }
  }

  /** As a key it stays, with a value that stays. */
  lemma WaitingKeyStays(modeOf: Body -> (bool, bool), s: State, before: Heap, k: Heap, weak: seq<Ref>, t: Ref, i: nat)
    requires Ended(modeOf, s, before, k, weak) && t in weak && t in s.h && s.h[t].body.Table?
    requires i < |s.h[t].body.nodes|
    requires var e := s.h[t].body.nodes[i];
             && e.val != Nil && Safe(modeOf, s, e.val) && !Finalized(before, e.val)
             && Finalized(before, e.key) && Marked(before, e.key.r)
    ensures t in k && k[t].body.Table? && |k[t].body.nodes| == |s.h[t].body.nodes|
          && k[t].body.nodes[i] == s.h[t].body.nodes[i]
  {
    hide KeepsHeld, BitsHeld, Safe, ArrayCleared, ModeBits;
    var e := s.h[t].body.nodes[i];
    SafeNotCollected(modeOf, s, before, e.val, false);
    assert !Collected(before, e.key, true);
    hide Collected;
    assert before[t].body == s.h[t].body;
    assert EntryCleared(before, e, k[t].body.nodes[i]);
  }

  // ----- A value that the program holds is lost -----

  /** Values are weak in tables whose metatable is empty. */
  function WeakValues(): Body -> (bool, bool) {
    b => (false, b == Table(Nil, [], []))
  }

  /** The main thread, whose stack holds userdata 3, finalized in an earlier collection, and table 2
      with weak values, of which it is one; the registry, table 1, is its metatable. */
  function Revived(): State {
    State(map[0 := GCObject(Gray, true, false, false, Thread(Nil, [Ptr(3), Ptr(2)], [])),
              1 := GCObject(Black, false, false, false, Table(Nil, [], [])),
              2 := GCObject(Gray, false, false, true, Table(Ptr(1), [], [Entry(Plain(0), Ptr(3))])),
              3 := GCObject(Black, false, true, false, Udata(Nil, Nil))],
          false, Propagate, Lists([2, 1, 0], [3], [[]], [], []), GrayLists([], [0], [2]), 1, 0, 0, 0, Ptr(1), [])
  }

  /** The program holds the value of an entry, and the entry goes. */
  lemma HeldValueLost(strHash: nat -> nat)
    ensures var s, m := Revived(), WeakValues();
            var k := s.h[2 := s.h[2].(body := Table(Ptr(1), [], [Entry(Plain(0), Nil)]))];
            && GcOk(strHash, s) && s.gl.gray == [] && Held(m, s, 3) && Safe(m, s, Plain(0))
            && s.h[2].body.nodes[0] == Entry(Plain(0), Ptr(3)) && Ended(m, s, s.h, k, s.gl.weak)
  {
    hide GcOk, Held, TablesCleared, KeepsHeld;
    var s, m := Revived(), WeakValues();
    var k := s.h[2 := s.h[2].(body := Table(Ptr(1), [], [Entry(Plain(0), Nil)]))];
    RevivedOk(strHash);
    RevivedCleared(k);
    RevivedHeld();
  }

  lemma RevivedHeld()
    ensures var s, m := Revived(), WeakValues(); Held(m, s, 3) && KeepsHeld(m, s, s.h)
  {
    var s, m := Revived(), WeakValues();
    var p := [0, 3];
    assert s.h[0].body.stack[0] == Ptr(3);
    assert HoldLinked(m, s.h, p, 1);
    assert HeldBy(m, s, p, 3);
    forall q: seq<Ref> | |q| > 0 && IsRoot(s, q[0]) && forall i :: 0 < i < |q| ==> HoldLinked(m, s.h, q, i)
      ensures Marked(s.h, q[|q| - 1])
    {
      if |q| > 1 {
        assert HoldLinked(m, s.h, q, |q| - 1);
        RevivedRefers(q[|q| - 2], q[|q| - 1]);
      }
    }
  }

  lemma RevivedRefers(o: Ref, x: Ref)
    requires o in Revived().h && (Holds(WeakValues(), Revived().h, o, x) || Refers(Revived().h, Revived().h[o].body, x))
    ensures Marked(Revived().h, x)
  {
    var h := Revived().h;
    assert forall v :: v in h[0].body.stack ==> v == Ptr(3) || v == Ptr(2);
  }

  lemma RevivedCleared(k: Heap)
    requires k == Revived().h[2 := Revived().h[2].(body := Table(Ptr(1), [], [Entry(Plain(0), Nil)]))]
    ensures TablesCleared(Revived().h, k, [2]) && ModeBits(WeakValues(), Revived().h, 2)
  {
    var h := Revived().h;
    assert Collected(h, Ptr(3), false);
    assert EntryCleared(h, h[2].body.nodes[0], k[2].body.nodes[0]);
    assert TableCleared(h, h[2].body, k[2].body, true);
  }

  lemma RevivedOk(strHash: nat -> nat)
    ensures GcOk(strHash, Revived())
  {
    hide Structure, LevelsOk, LiveClosed, RootsLive, ColorsOk, MarkingOk;
    RevivedLists(strHash);
    RevivedLive();
    RevivedMarking();
  }

  lemma RevivedLists(strHash: nat -> nat)
    ensures var s := Revived(); Structure(strHash, s.h, s.ls, s.main) && LevelsOk(s.h)
  {
    hide StringsOk, RootOk, UdataOk, UpvalsOk, Interned, LevelsOk;
    RevivedRoot();
    RevivedStrings(strHash);
    RevivedUpvals();
  }

  lemma RevivedRoot()
    ensures var s := Revived(); RootOk(s.h, s.ls.root, s.main) && UdataOk(s.h, s.ls.udata, s.ls.tmu)
  {
    var s := Revived();
    assert s.ls.root[0] == 2 && s.ls.root[1] == 1 && s.ls.root[2] == 0;
    assert s.ls.udata + s.ls.tmu == [3] && s.ls.udata[0] == 3;
  }

  lemma RevivedStrings(strHash: nat -> nat)
    ensures var s := Revived(); StringsOk(strHash, s.h, s.ls.strt) && Interned(s.h)
  {
    assert forall r :: r in Revived().h ==> !Revived().h[r].body.Str?;
  }

  lemma RevivedUpvals()
    ensures var s := Revived(); UpvalsOk(s.h, s.ls.upvals) && LevelsOk(s.h)
  {
    assert forall r :: r in Revived().h ==> !Revived().h[r].body.OpenUpval?;
  }

  lemma RevivedColors()
    ensures var s := Revived(); ColorsOk(s.h) && RootsLive(s) && forall r :: r in s.h ==> Marked(s.h, r)
  {
  }

  lemma RevivedLive()
    ensures var s := Revived(); LiveClosed(s.h, s.cw) && RootsLive(s) && ColorsOk(s.h)
  {
    hide RootsLive, ColorsOk;
    RevivedColors();
    var s := Revived();
    forall r, x | r in s.h && Refers(s.h, s.h[r].body, x) ensures Marked(s.h, x) { RevivedRefers(r, x); }
    hide Refers;
  }

  lemma RevivedMarking()
    ensures MarkingOk(Revived())
  {
    var s := Revived();
    assert AllGray(s.gl) == [0, 2] && [0, 2][0] == 0 && [0, 2][1] == 2;
    forall r, x | r in s.h && Refers(s.h, s.h[r].body, x) ensures Marked(s.h, x) { RevivedRefers(r, x); }
    assert Clean(s.h, 1) && Clean(s.h, 3);
    hide Clean, Refers, StrongClean;
  }
}
