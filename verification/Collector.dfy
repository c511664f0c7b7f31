/** The incremental collector of a Lua state, and the program's side of it: every
    way a program makes objects and changes references. */
module Collector {
  import opened GcHeap
  import opened GcLists
  import opened GcRemovals
  import opened GcInvariant
  import opened GcMarking
  import opened GcGrowth
  import opened GcAtomic
  import opened GcSweeping
  import opened GcHeld
  import opened GcContents
  import opened GcProgress
  import opened GcGarbage
  import opened GcPruned
  import opened GcFinalizing
  import opened GcClosures
  import opened GcMutation
  import opened GcCreation
  import opened GcFacts

  class GlobalState {
    /** Where strings are chained; what a metatable says about weakness and
        finalizers. */
    const strHash: nat -> nat
    const modeOf: Body -> (bool, bool)
    const hasGc: Body -> bool
    const main: Ref

    var heap: Heap
    var currentWhite: bool
    var phase: Phase
    var gray: seq<Ref>
    var grayagain: seq<Ref>
    var weak: seq<Ref>
    /** The chain of all objects up to the main thread, and the userdata after it. */
    var root: seq<Ref>
    var udata: seq<Ref>
    var strt: seq<seq<Ref>>
    var tmudata: seq<Ref>
    var uvhead: seq<Ref>
    var sweepStr: nat
    /** How many objects of the chain lie before the sweep pointer. */
    var sweepPos: nat
    var running: Ref
    var registry: Value
    var mt: seq<Value>
    /** Objects are numbered as they are made. */
    var nextRef: Ref
    /** Userdata whose finalizers have run. */
    ghost var called: set<Ref>
    /** Objects that the marking under way is not to touch. */
    ghost var garbage: set<Ref>

    /** A new state: the main thread, which is never freed, and the registry. */
    constructor (strHash: nat -> nat, modeOf: Body -> (bool, bool), hasGc: Body -> bool, strings: nat, types: nat)
      requires 0 < strings && TablesOnly(modeOf, hasGc)
      ensures Valid() && phase == Pause && running == main && Reachable(Now(), main)
    {
      this.strHash, this.modeOf, this.hasGc, main := strHash, modeOf, hasGc, 0;
      heap := map[0 := GCObject(White(false), true, false, false, Thread(Nil, [], [])),
                  1 := GCObject(White(false), false, false, false, Table(Nil, [], []))];
      currentWhite, phase := false, Pause;
      gray, grayagain, weak := [], [], [];
      root, udata, tmudata, uvhead := [1, 0], [], [], [];
      strt := seq(strings, i => []);
      sweepStr, sweepPos, running, registry := 0, 0, 0, Ptr(1);
      mt := seq(types, i => Nil);
      nextRef, called, garbage := 2, {}, {};
      new;
      NewState(strHash, Now());
      hide GcOk;
      assert Path(Now(), [main], main);
    }

    ghost function GL(): GrayLists
      reads this
    {
      GrayLists(gray, grayagain, weak)
    }

    ghost function Now(): State
      reads this
    {
      State(heap, currentWhite, phase, Lists(root, udata, strt, tmudata, uvhead), GL(),
            if phase == SweepString then sweepStr else |strt|, sweepPos, main, running, registry, mt)
    }

    // ----- Marking -----

    method MarkValue(v: Value, ghost u: set<Ref>)
      requires NoDangling(heap) && Apart(modeOf, heap, u) && (v.Ptr? ==> v.r in heap.Keys - u)
      modifies this`heap, this`gray
      ensures Advance(old(heap), old(gray), heap, gray, {}) && MarkedValue(heap, v) && Apart(modeOf, heap, u)
      decreases Whites(heap), 1
    {
      hide Apart;
      if v.Ptr? && heap[v.r].color.White? {
        ReallyMark(v.r, u);
      } else {
        AdvanceRefl(heap, gray);
      }
    }

    /** A white object becomes gray, and black at once if it is a userdata or a
        closed upvalue. */
    method ReallyMark(r: Ref, ghost u: set<Ref>)
      requires NoDangling(heap) && Apart(modeOf, heap, u) && IsWhite(heap, r) && r !in u
      modifies this`heap, this`gray
      ensures Advance(old(heap), old(gray), heap, gray, {}) && Marked(heap, r) && Apart(modeOf, heap, u)
      decreases Whites(heap), 0
    {
      hide Advance, MarkedWell, Clean, NoDangling, Apart;
      ghost var h0, g0 := heap, gray;
      var body := heap[r].body;
      ApartPaint(modeOf, heap, u, r, Gray);
      ApartPaint(modeOf, heap, u, r, Black);
      if Traversable(body) {
        AdvanceGray(heap, gray, r);
        gray := [r] + gray;
        heap := Painted(heap, r, Gray);
        return;
      }
      HeldIn(modeOf, heap, u, r);
      heap := Painted(heap, r, Gray);
      AdvancePaint(h0, g0, r, Gray);
      match body {
        case Str(_) =>
        case Udata(m, e) =>
          heap := Painted(heap, r, Black);
          assert heap == Painted(h0, r, Black);
          AdvancePaint(h0, g0, r, Black);
          MarkInside(h0, g0, r, m, u);
          MarkInside(h0, g0, r, e, u);
        case OpenUpval(t, l) =>
          MarkInside(h0, g0, r, SlotValue(heap, t, l), u);
          SlotKept(h0, g0, heap, gray, {r}, t, l);
        case ClosedUpval(v) =>
          MarkInside(h0, g0, r, v, u);
          Repaint(h0, g0, heap, gray, r, Black);
          ApartPaint(modeOf, heap, u, r, Black);
          heap := Painted(heap, r, Black);
      }
      MarkDone(h0, g0, heap, gray, r);
    }

    /** Marks what object r, just painted, refers to. */
    method MarkInside(ghost h0: Heap, ghost g0: seq<Ref>, ghost r: Ref, v: Value, ghost u: set<Ref>)
      requires NoDangling(h0) && Advance(h0, g0, heap, gray, {r}) && NewlyMarked(h0, heap, r)
      requires v.Ptr? ==> Refers(h0, h0[r].body, v.r)
      requires Apart(modeOf, heap, u) && forall x :: Refers(h0, h0[r].body, x) ==> x in h0.Keys - u
      modifies this`heap, this`gray
      ensures Advance(h0, g0, heap, gray, {r}) && NewlyMarked(h0, heap, r) && MarkedValue(heap, v)
            && Apart(modeOf, heap, u)
      ensures heap[r] == old(heap)[r] && forall x :: Marked(old(heap), x) ==> Marked(heap, x)
      decreases Whites(h0), 0, 0
    {
      hide Refers, MarkedWell, Clean, Apart;
      NoDanglingKept(h0, heap);
      assert r in Whites(h0) && r !in Whites(heap);
      WhitesShrink(h0, heap);
      ghost var h1, g1 := heap, gray;
      MarkValue(v, u);
      AdvanceTrans(h0, g0, h1, g1, heap, gray, {r}, {});
      assert {r} + {} == {r};
    }

    method MarkAll(vs: seq<Value>, ghost u: set<Ref>)
      requires NoDangling(heap) && Apart(modeOf, heap, u) && forall v :: v in vs && v.Ptr? ==> v.r in heap.Keys - u
      modifies this`heap, this`gray
      ensures Advance(old(heap), old(gray), heap, gray, {}) && forall v :: v in vs ==> MarkedValue(heap, v)
      ensures Apart(modeOf, heap, u)
    {
      hide Advance, NoDangling, Apart;
      ghost var h0, g0 := heap, gray;
      AdvanceRefl(heap, gray);
      var i := |vs|;
      while i != 0
        invariant 0 <= i <= |vs| && Advance(h0, g0, heap, gray, {}) && NoDangling(heap) && heap.Keys == h0.Keys
              && Apart(modeOf, heap, u)
        invariant forall j :: i <= j < |vs| ==> MarkedValue(heap, vs[j])
      {
        i := i - 1;
        ghost var h1, g1 := heap, gray;
        MarkValue(vs[i], u);
        MarkStep(h0, g0, h1, g1, heap, gray);
      }
    }

    /** Returns whether the table is weak; a weak one is listed to be cleared. */
    method TraverseTable(t: Ref) returns (isWeak: bool)
      requires NoDangling(heap) && Apart(modeOf, heap, garbage) && Marked(heap, t) && heap[t].body.Table?
      modifies this`heap, this`gray, this`weak
      ensures t in heap && heap[t].body == old(heap)[t].body && heap[t].color == old(heap)[t].color
            && heap[t].fixed == old(heap)[t].fixed
      ensures Advance(old(heap)[t := heap[t]], old(gray), heap, gray, {})
      ensures Apart(modeOf, heap, garbage)
      ensures weak == if isWeak then [t] + old(weak) else old(weak)
      ensures if isWeak then StrongClean(heap, t) && ModeBits(modeOf, heap, t) else Clean(heap, t)
    {
      hide Advance, NoDangling, Refers, StronglyRefers, Clean, StrongClean, Apart;
      ghost var h0, g0 := heap, gray;
      var b := heap[t].body;
      MarkedOutside(modeOf, heap, garbage, t);
      HeldThere(heap, t);
      TableRefs(heap, b, heap.Keys);
      if b.meta.Ptr? { MetaOutside(modeOf, heap, garbage, t); }
      MarkValue(b.meta, garbage);
      MarkStep0(h0, g0, heap, gray);
      var weakKey, weakVal := false, false;
      if b.meta.Ptr? {
        var mode := modeOf(heap[b.meta.r].body);
        weakKey, weakVal := mode.0, mode.1;
      }
      isWeak := weakKey || weakVal;
      ghost var ob := heap[t];
      if isWeak {
        ob := heap[t].(bit3 := weakKey, bit4 := weakVal);
        SwapMarks(h0, g0, heap, gray, t, ob);
        ApartBits(modeOf, heap, garbage, t, ob);
        heap := heap[t := heap[t].(bit3 := weakKey, bit4 := weakVal)];
        weak := [t] + weak;
      } else {
        SwapMarks(h0, g0, heap, gray, t, ob);
        assert heap[t := ob] == heap;
      }
      ghost var h1, g1 := h0[t := ob], g0;
      SwapDangling(h0, t, ob);
      MarkStep0(h1, g1, heap, gray);
      ghost var h2, g2 := heap, gray;
      assert heap[t].body == b;
      HeldThere(heap, t);
      TableHeld(modeOf, heap, garbage, t, weakKey, weakVal);
      TraverseEntries(t, b, weakKey, weakVal);
      MarkStep(h1, g1, h2, g2, heap, gray);
      if isWeak { SameBody(h2, g2, heap, gray, b.meta.r); }
    }

    /** The parts of a table that its mode does not make weak. */
    method TraverseEntries(ghost t: Ref, b: Body, weakKey: bool, weakVal: bool)
      requires NoDangling(heap) && Marked(heap, t) && b == heap[t].body && b.Table? && MarkedValue(heap, b.meta)
      requires weakKey || weakVal ==> heap[t].bit3 == weakKey && heap[t].bit4 == weakVal
      requires Apart(modeOf, heap, garbage) && forall x :: Refers(heap, b, x) ==> x in heap
      requires forall x :: StronglyRefers(b, weakKey, weakVal, x) ==> x !in garbage
      modifies this`heap, this`gray
      ensures Advance(old(heap), old(gray), heap, gray, {}) && t in heap && Apart(modeOf, heap, garbage)
      ensures if weakKey || weakVal then StrongClean(heap, t) else Clean(heap, t)
    {
      hide Advance, NoDangling, Refers, StronglyRefers, Clean, StrongClean, Apart;
      ghost var h1, g1 := heap, gray;
      AdvanceRefl(heap, gray);
      TableRefs(heap, b, heap.Keys);
      StrongRefs(b, weakKey, weakVal, garbage);
      if weakKey && weakVal {
        TableDone(heap, t, weakKey, weakVal);
        return;
      }
      if !weakVal {
        MarkAll(b.arr, garbage);
        MarkStep0(h1, g1, heap, gray);
      }
      ghost var h3, g3 := heap, gray;
      MarkNodes(b.nodes, weakKey, weakVal);
      MarkStep(h1, g1, h3, g3, heap, gray);
      TableDone(heap, t, weakKey, weakVal);
    }

    /** An emptied entry is left out; its key is dead. */
    method MarkNodes(nodes: seq<Entry>, weakKey: bool, weakVal: bool)
      requires NoDangling(heap) && Apart(modeOf, heap, garbage)
      requires forall i :: 0 <= i < |nodes| && nodes[i].val != Nil ==>
                 (nodes[i].key.Ptr? ==> nodes[i].key.r in heap)
                       && (nodes[i].val.Ptr? ==> nodes[i].val.r in heap)
                 && NodeOutside(nodes[i], weakKey, weakVal, garbage)
      modifies this`heap, this`gray
      ensures Advance(old(heap), old(gray), heap, gray, {})
      ensures forall j :: 0 <= j < |nodes| ==> NodeMarked(heap, nodes[j], weakKey, weakVal)
      ensures Apart(modeOf, heap, garbage)
    {
      hide Advance, NoDangling, Apart;
      ghost var h0, g0 := heap, gray;
      AdvanceRefl(heap, gray);
      var i := |nodes|;
      while i != 0
        invariant 0 <= i <= |nodes| && Advance(h0, g0, heap, gray, {}) && NoDangling(heap) && heap.Keys == h0.Keys
              && Apart(modeOf, heap, garbage)
        invariant forall j :: i <= j < |nodes| ==> NodeMarked(heap, nodes[j], weakKey, weakVal)
      {
        i := i - 1;
        if nodes[i].val != Nil {
          ghost var h2, g2 := heap, gray;
          if !weakKey {
            MarkValue(nodes[i].key, garbage);
            MarkStep(h0, g0, h2, g2, heap, gray);
          }
          ghost var h3, g3 := heap, gray;
          if !weakVal {
            MarkValue(nodes[i].val, garbage);
            MarkStep(h0, g0, h3, g3, heap, gray);
          }
          NodesKept(h2, h3, nodes, weakKey, weakVal, i + 1);
          NodesKept(h3, heap, nodes, weakKey, weakVal, i + 1);
        }
      }
    }

    method TraverseClosure(o: Ref)
      requires NoDangling(heap) && Apart(modeOf, heap, garbage) && Marked(heap, o) && heap[o].body.Closure?
      modifies this`heap, this`gray
      ensures Advance(old(heap), old(gray), heap, gray, {}) && o in heap && heap[o] == old(heap)[o] && Clean(heap, o)
      ensures Apart(modeOf, heap, garbage)
    {
      hide Advance, NoDangling, Refers, Clean, Apart;
      MarkedOutside(modeOf, heap, garbage, o);
      HeldIn(modeOf, heap, garbage, o);
      ClosureRefs(heap, heap[o].body, heap.Keys - garbage);
      ghost var h0, g0 := heap, gray;
      MarkAll(heap[o].body.held, garbage);
      MarkStep0(h0, g0, heap, gray);
      ValuesClean(heap, o);
    }

    method TraverseProto(o: Ref)
      requires NoDangling(heap) && Apart(modeOf, heap, garbage) && Marked(heap, o) && heap[o].body.Proto?
      modifies this`heap, this`gray
      ensures Advance(old(heap), old(gray), heap, gray, {}) && o in heap && heap[o] == old(heap)[o] && Clean(heap, o)
      ensures Apart(modeOf, heap, garbage)
    {
      hide Advance, NoDangling, Refers, Clean, Apart;
      MarkedOutside(modeOf, heap, garbage, o);
      HeldIn(modeOf, heap, garbage, o);
      ClosureRefs(heap, heap[o].body, heap.Keys - garbage);
      ghost var h0, g0 := heap, gray;
      MarkAll(heap[o].body.names, garbage);
      MarkStep0(h0, g0, heap, gray);
      ghost var h1, g1 := heap, gray;
      MarkAll(heap[o].body.constants, garbage);
      MarkStep(h0, g0, h1, g1, heap, gray);
      ValuesClean(heap, o);
    }

    method TraverseStack(o: Ref)
      requires NoDangling(heap) && Apart(modeOf, heap, garbage) && Marked(heap, o) && heap[o].body.Thread?
      modifies this`heap, this`gray
      ensures Advance(old(heap), old(gray), heap, gray, {}) && o in heap && heap[o] == old(heap)[o] && Clean(heap, o)
      ensures Apart(modeOf, heap, garbage)
    {
      hide Advance, NoDangling, Refers, Clean, Apart;
      MarkedOutside(modeOf, heap, garbage, o);
      HeldIn(modeOf, heap, garbage, o);
      ClosureRefs(heap, heap[o].body, heap.Keys - garbage);
      ghost var h0, g0 := heap, gray;
      MarkValue(heap[o].body.globals, garbage);
      MarkStep0(h0, g0, heap, gray);
      ghost var h1, g1 := heap, gray;
      MarkAll(heap[o].body.stack, garbage);
      MarkStep(h0, g0, h1, g1, heap, gray);
      ValuesClean(heap, o);
    }

    /** Traverses the first gray object. */
    method PropagateMark()
      requires NoDangling(heap) && Apart(modeOf, heap, garbage) && Listed(heap, GL()) && gray != []
      modifies this`heap, this`gray, this`grayagain, this`weak
      ensures Propagated(old(heap), old(GL()), heap, GL(), old(gray[0]))
      ensures Apart(modeOf, heap, garbage)
      ensures weak != old(weak) ==> ModeBits(modeOf, heap, old(gray[0]))
    {
      hide Advance, NoDangling, Refers, Clean, StrongClean, Apart;
      ghost var h0, g0 := heap, gray[1..];
      var o := gray[0];
      GrayHead(heap, GL());
      MarkedOutside(modeOf, heap, garbage, o);
      ApartPaint(modeOf, heap, garbage, o, Black);
      ApartPaint(modeOf, heap, garbage, o, Gray);
      heap := Painted(heap, o, Black);
      SwapDangling(h0, o, heap[o]);
      gray := gray[1..];
      var body := heap[o].body;
      match body {
        case Table(_, _, _) =>
          var w := TraverseTable(o);
          assert h0[o := h0[o].(color := Black)][o := heap[o]] == h0[o := heap[o]];
          if w {
            SwapMarks(h0[o := heap[o]], g0, heap, gray, o, heap[o].(color := Gray));
            SwapStrong(heap, o, Gray);
            ApartPaint(modeOf, heap, garbage, o, Gray);
            heap := Painted(heap, o, Gray);
            assert h0[o := heap[o].(color := Black)][o := heap[o]] == h0[o := heap[o]];
          }
        case Closure(_) =>
          TraverseClosure(o);
        case Proto(_, _) =>
          TraverseProto(o);
        case Thread(_, _, _) =>
          grayagain := [o] + grayagain;
          ApartPaint(modeOf, heap, garbage, o, Gray);
          heap := Painted(heap, o, Gray);
          assert heap == h0[o := h0[o].(color := Gray)];
          SwapDangling(h0, o, heap[o]);
          TraverseStack(o);
      }
    }

    /** Every marked object outside s is covered. */
    ghost predicate Marking(s: set<Ref>)
      reads this
    {
      && NoDangling(heap) && Listed(heap, GL()) && ColorsOk(heap) && Covered(heap, s + ToSet(gray), ToSet(weak))
      && Apart(modeOf, heap, garbage) && RootsApart()
    }

    /** No root is to be left alone. */
    ghost predicate RootsApart()
      reads this`running, this`registry, this`mt, this`garbage
    {
      && main !in garbage && running !in garbage && (registry.Ptr? ==> registry.r !in garbage)
      && forall v :: v in mt && v.Ptr? ==> v.r !in garbage
    }

    ghost predicate Modes()
      reads this
    {
      forall t :: t in weak ==> ModeBits(modeOf, heap, t)
    }

    method PropagateAll(ghost s: set<Ref>)
      requires Marking(s)
      modifies this`heap, this`gray, this`grayagain, this`weak
      ensures gray == [] && Marking(s) && Covered(heap, s, ToSet(weak)) && Grown(old(heap), heap)
      ensures ToSet(old(weak)) <= ToSet(weak) && ToSet(old(grayagain)) <= ToSet(grayagain)
      ensures old(Modes()) ==> Modes()
    {
      hide Apart, Propagated, Listed, Covered, NoDangling, ColorsOk, ModeBits;
      ghost var h0 := heap;
      while gray != []
        invariant Marking(s) && Grown(h0, heap)
        invariant ToSet(old(weak)) <= ToSet(weak) && ToSet(old(grayagain)) <= ToSet(grayagain)
        invariant old(Modes()) ==> Modes()
        decreases Whites(heap), |gray|
      {
        ghost var h1, gl1 := heap, GL();
        GrayHead(heap, gl1);
        PropagateMark();
        PropagatedAll(h1, gl1, heap, GL(), s);
        GrownTrans(h0, h1, heap);
        if old(Modes()) { PropagatedModes(modeOf, h1, gl1, heap, GL(), gl1.gray[0]); }
      }
      assert s + ToSet(gray) == s;
    }

    /** Open upvalues may have got new values since they were marked. */
    method RemarkUpvals()
      requires NoDangling(heap) && Apart(modeOf, heap, garbage) && forall u :: u in uvhead ==>
            u in heap && heap[u].body.OpenUpval?
      modifies this`heap, this`gray
      ensures Advance(old(heap), old(gray), heap, gray, {}) && Apart(modeOf, heap, garbage)
      ensures forall u :: u in uvhead && Marked(old(heap), u) ==> u in heap && Clean(heap, u)
    {
      hide Advance, NoDangling, Refers, Clean, MarkedValue, Apart;
      ghost var h0, g0 := heap, gray;
      AdvanceRefl(heap, gray);
      var i := 0;
      while i < |uvhead|
        invariant 0 <= i <= |uvhead| && Advance(h0, g0, heap, gray, {}) && NoDangling(heap)
              && Apart(modeOf, heap, garbage)
        invariant forall u :: u in uvhead ==> u in heap && heap[u].body == h0[u].body
        invariant forall j :: 0 <= j < i && Marked(h0, uvhead[j]) ==> Clean(heap, uvhead[j])
      {
        var u := uvhead[i];
        ghost var h1, g1 := heap, gray;
        if !heap[u].color.White? {
          var v := SlotValue(heap, heap[u].body.thread, heap[u].body.level);
          MarkedOutside(modeOf, heap, garbage, u);
          HeldIn(modeOf, heap, garbage, u);
          SlotRefers(heap, u, heap.Keys - garbage);
          MarkValue(v, garbage);
          MarkStep(h0, g0, h1, g1, heap, gray);
          SlotKept(h1, g1, heap, gray, {}, heap[u].body.thread, heap[u].body.level);
          UpvalsKept(h1, g1, heap, gray, uvhead);
          SlotClean(heap, u);
        } else {
          WasWhite(h0, g0, heap, gray, u);
        }
        i := i + 1;
      }
    }

    /** Marks the basic metatables. */
    method MarkMt()
      requires NoDangling(heap) && Apart(modeOf, heap, garbage) && forall v :: v in mt && v.Ptr? ==>
            v.r in heap.Keys - garbage
      modifies this`heap, this`gray
      ensures Advance(old(heap), old(gray), heap, gray, {}) && forall v :: v in mt ==> MarkedValue(heap, v)
      ensures Apart(modeOf, heap, garbage)
    {
      MarkAll(mt, garbage);
    }

    // ----- The atomic step -----

    ghost function Ls(): Lists
      reads this
    {
      Lists(root, udata, strt, tmudata, uvhead)
    }

    /** Moves userdata that need finalization, and are dead or all are asked for,
        to the end of their own list, in the order of the chain. */
    method SeparateUdata(all: bool)
      requires Structure(strHash, heap, Ls(), main) && NewestFirst(heap, udata)
      modifies this`heap, this`udata, this`tmudata
      ensures Structure(strHash, heap, Ls(), main) && NewestFirst(heap, udata) && OnlyFinalized(old(heap), heap)
      ensures old(|tmudata|) <= |tmudata| && tmudata[..old(|tmudata|)] == old(tmudata)
            && Descends(tmudata[old(|tmudata|)..])
      ensures forall u :: u in tmudata[old(|tmudata|)..] <==> u in old(udata) && ToFinalize(hasGc, old(heap), u, all)
      ensures BitsWhite(old(heap), heap, all)
    {
      ghost var h0, ls0, n := heap, Ls(), |tmudata|;
      OnlyFinalizedRefl(heap);
      assert tmudata[n..] == [] && tmudata[..n] == tmudata;
      SeparatedStart(strHash, hasGc, heap, Ls(), main, all);
      hide Structure, HasFinalizer, ToFinalize, OnlyFinalized, Separated, NewestFirst, Descends, BitsWhite;
      var i := 0;
      while i < |udata|
        invariant 0 <= i <= |udata| && Structure(strHash, heap, Ls(), main) && OnlyFinalized(h0, heap)
        invariant n <= |tmudata| && tmudata[..n] == old(tmudata)
        invariant Separated(hasGc, h0, heap, old(udata), udata, i, tmudata[n..], all)
        decreases |udata| - i
      {
        i := SeparateOne(i, h0, old(udata), n, all);
      }
      SeparatedAll(hasGc, h0, heap, old(udata), udata, tmudata[n..], all);
      SeparatedBits(strHash, hasGc, h0, ls0, main, heap, udata, tmudata[n..], all);
    }

    method SeparateOne(i: nat, ghost h0: Heap, ghost udata0: seq<Ref>, ghost n: nat, all: bool) returns (next: nat)
      requires Structure(strHash, heap, Ls(), main) && OnlyFinalized(h0, heap)
      requires n <= |tmudata| && Separated(hasGc, h0, heap, udata0, udata, i, tmudata[n..], all) && i < |udata|
      modifies this`heap, this`udata, this`tmudata
      ensures Structure(strHash, heap, Ls(), main) && OnlyFinalized(h0, heap)
      ensures n <= |tmudata| && Separated(hasGc, h0, heap, udata0, udata, next, tmudata[n..], all)
      ensures next <= |udata| && |udata| - next < old(|udata|) - i && tmudata[..n] == old(tmudata[..n])
    {
      hide Structure, HasFinalizer, ToFinalize, OnlyFinalized, Separated;
      var u := udata[i];
      UdataThere(strHash, heap, Ls(), main, i);
      UdataSame(h0, heap, u);
      SeparatedNow(hasGc, h0, heap, udata0, udata, i, tmudata[n..], all);
      TestFinalize(hasGc, heap, u, all);
      if !(heap[u].color.White? || all) || heap[u].bit3 {
        SeparatedPass(hasGc, h0, heap, udata0, udata, i, tmudata[n..], all, heap[u].bit3);
        next := i + 1;
      } else if !HasFinalizer(hasGc, heap, u) {
        LeaveOut(i, h0, udata0, n, all);
        next := i + 1;
      } else {
        SetAside(i, h0, udata0, n, all);
        next := i;
      }
    }

    /** Userdata i of the chain needs no finalization. */
    method LeaveOut(i: nat, ghost h0: Heap, ghost udata0: seq<Ref>, ghost n: nat, ghost all: bool)
      requires Structure(strHash, heap, Ls(), main) && OnlyFinalized(h0, heap)
      requires n <= |tmudata| && Separated(hasGc, h0, heap, udata0, udata, i, tmudata[n..], all)
      requires i < |udata| && udata[i] in heap && heap[udata[i]].body.Udata? && !ToFinalize(hasGc, h0, udata[i], all)
      requires udata[i] in h0 && (h0[udata[i]].color.White? || all)
      modifies this`heap
      ensures Structure(strHash, heap, Ls(), main) && OnlyFinalized(h0, heap)
      ensures Separated(hasGc, h0, heap, udata0, udata, i + 1, tmudata[n..], all)
    {
      hide Structure, ToFinalize, OnlyFinalized, Separated;
      var u := udata[i];
      SeparatedPass(hasGc, h0, heap, udata0, udata, i, tmudata[n..], all, true);
      FinalizedBit(strHash, h0, heap, Ls(), main, u);
      heap := heap[u := heap[u].(bit3 := true)];
    }

    /** Userdata i of the chain is to be finalized. */
    method SetAside(i: nat, ghost h0: Heap, ghost udata0: seq<Ref>, ghost n: nat, ghost all: bool)
      requires Structure(strHash, heap, Ls(), main) && OnlyFinalized(h0, heap)
      requires n <= |tmudata| && Separated(hasGc, h0, heap, udata0, udata, i, tmudata[n..], all)
      requires i < |udata| && udata[i] in heap && heap[udata[i]].body.Udata?
      requires ToFinalize(hasGc, h0, udata[i], all) && heap[udata[i]] == h0[udata[i]]
      modifies this`heap, this`udata, this`tmudata
      ensures Structure(strHash, heap, Ls(), main) && OnlyFinalized(h0, heap)
      ensures n <= |tmudata| && Separated(hasGc, h0, heap, udata0, udata, i, tmudata[n..], all)
      ensures |udata| == old(|udata|) - 1 && tmudata[..n] == old(tmudata[..n])
    {
      hide Structure, ToFinalize, OnlyFinalized, Separated;
      var u := udata[i];
      SeparatedMove(hasGc, h0, heap, udata0, udata, i, tmudata[n..], all);
      FinalizedBit(strHash, h0, heap, Ls(), main, u);
      SetApart(strHash, heap, Ls(), main, i);
      heap := heap[u := heap[u].(bit3 := true)];
      udata := Without(udata, i);
      assert (tmudata + [u])[n..] == tmudata[n..] + [u] && (tmudata + [u])[..n] == tmudata[..n];
      tmudata := tmudata + [u];
    }

    /** Keeps the userdata set apart, and all they refer to. */
    method MarkTmu()
      requires (forall u :: u in tmudata ==> u !in garbage)
      requires Marking(ToSet(tmudata)) && forall u :: u in tmudata ==> u in heap && heap[u].body.Udata?
      modifies this`heap, this`gray
      ensures Marking({}) && Grown(old(heap), heap) && forall u :: u in tmudata ==> Marked(heap, u)
      ensures old(Modes()) ==> Modes()
    {
      hide Apart, Listed, Covered, NoDangling, ColorsOk, ModeBits;
      ghost var h0 := heap;
      var i := 0;
      while i < |tmudata|
        invariant forall t :: t in weak && ModeBits(modeOf, h0, t) ==> ModeBits(modeOf, heap, t)
        invariant 0 <= i <= |tmudata| && Marking(ToSet(tmudata[i..])) && Grown(h0, heap)
        invariant forall u :: u in tmudata ==> u in heap && heap[u].body.Udata?
        invariant forall j :: 0 <= j < i ==> Marked(heap, tmudata[j])
      {
        ghost var h1 := heap;
        MarkOneTmu(i);
        GrownTrans(h0, h1, heap);
        GrownOnward(h1, heap);
        i := i + 1;
      }
      assert ToSet(tmudata[i..]) == {};
    }

    /** A userdata may be marked already, if it is left from an earlier cycle. */
    method MarkOneTmu(i: nat)
      requires i < |tmudata| && tmudata[i] !in garbage
      requires i < |tmudata| && Marking(ToSet(tmudata[i..])) && tmudata[i] in heap && heap[tmudata[i]].body.Udata?
      modifies this`heap, this`gray
      ensures Marking(ToSet(tmudata[i + 1..])) && Grown(old(heap), heap) && Marked(heap, tmudata[i])
      ensures forall t :: ModeBits(modeOf, old(heap), t) ==> ModeBits(modeOf, heap, t)
    {
      hide Apart, Listed, Covered, NoDangling, ColorsOk, Advance, ModeBits;
      var u := tmudata[i];
      ghost var h1, gl1 := heap, GL();
      assert tmudata[i..] == [u] + tmudata[i + 1..];
      assert ToSet(tmudata[i..]) == ToSet(tmudata[i + 1..]) + {u};
      TmuPaint(heap, gl1, u, White(currentWhite));
      ApartPaint(modeOf, heap, garbage, u, White(currentWhite));
      heap := Painted(heap, u, White(currentWhite));
      ReallyMark(u, garbage);
      TmuStep(h1, gl1, u, White(currentWhite), heap, gray, ToSet(tmudata[i + 1..]), ToSet(weak));
      TmuModes(modeOf, h1, gl1.gray, u, White(currentWhite), heap, gray);
    }

    /** Strings are never taken out of weak tables, and are marked. */
    method IsCleared(v: Value, isKey: bool, ghost g: set<Ref>) returns (c: bool)
      requires Fenced(heap, garbage, g) && (v.Ptr? ==> v.r in heap.Keys - g)
      modifies this`heap
      ensures StringsMarked(old(heap), heap) && c == Collected(old(heap), v, isKey) && (!c ==> MarkedValue(heap, v))
      ensures Fenced(heap, garbage, g)
    {
      hide Fenced;
      if !v.Ptr? { return false; }
      if heap[v.r].body.Str? {
        if heap[v.r].color.White? { FencedPaint(heap, garbage, g, v.r, Gray); heap := Painted(heap, v.r, Gray); }
        return false;
      }
      c := heap[v.r].color.White? || (heap[v.r].body.Udata? && !isKey && heap[v.r].bit3);
    }

    method ClearArray(arr: seq<Value>, ghost g: set<Ref>) returns (a: seq<Value>)
      requires Fenced(heap, garbage, g) && forall v :: v in arr && v.Ptr? ==> v.r in heap.Keys - g
      modifies this`heap
      ensures Fenced(heap, garbage, g)
      ensures StringsMarked(old(heap), heap) && ArrayCleared(old(heap), arr, a) && forall j :: 0 <= j < |a| ==>
            MarkedValue(heap, a[j])
    {
      hide StringsMarked, Collected, Fenced;
      ghost var h0 := heap;
      StringsMarkedRefl(heap);
      a := arr;
      var i := |arr|;
      while i != 0
        invariant 0 <= i <= |arr| == |a| && StringsMarked(h0, heap) && heap.Keys == h0.Keys
        invariant forall j :: i <= j < |a| ==> a[j] == if Collected(h0, arr[j], false) then Nil else arr[j]
        invariant (forall j :: 0 <= j < i ==> a[j] == arr[j]) && Fenced(heap, garbage, g)
        invariant forall j :: i <= j < |a| ==> MarkedValue(heap, a[j])
      {
        i := i - 1;
        ghost var h1 := heap;
        var c := IsCleared(a[i], false, g);
        StringsStep(h0, h1, heap);
        CollectedKept(h0, h1, a[i], false);
        if c { a := a[i := Nil]; }
      }
    }

    method ClearNodes(nodes: seq<Entry>, ghost g: set<Ref>) returns (ns: seq<Entry>)
      requires Fenced(heap, garbage, g)
      requires forall i :: 0 <= i < |nodes| && nodes[i].val != Nil ==>
                 (nodes[i].key.Ptr? ==> nodes[i].key.r in heap.Keys - g)
                       && (nodes[i].val.Ptr? ==> nodes[i].val.r in heap.Keys - g)
      modifies this`heap
      ensures Fenced(heap, garbage, g)
      ensures StringsMarked(old(heap), heap) && NodesCleared(old(heap), nodes, ns)
      ensures forall j :: 0 <= j < |ns| && ns[j].val != Nil ==>
            MarkedValue(heap, ns[j].key) && MarkedValue(heap, ns[j].val)
    {
      hide StringsMarked, Collected, Fenced;
      ghost var h0 := heap;
      StringsMarkedRefl(heap);
      ns := nodes;
      var i := |nodes|;
      while i != 0
        invariant 0 <= i <= |nodes| == |ns| && StringsMarked(h0, heap) && heap.Keys == h0.Keys
        invariant forall j :: i <= j < |ns| ==> EntryCleared(h0, nodes[j], ns[j])
        invariant (forall j :: 0 <= j < i ==> ns[j] == nodes[j]) && Fenced(heap, garbage, g)
        invariant forall j :: i <= j < |ns| && ns[j].val != Nil ==>
              MarkedValue(heap, ns[j].key) && MarkedValue(heap, ns[j].val)
      {
        i := i - 1;
        if ns[i].val != Nil {
          ghost var h1 := heap;
          var c := IsCleared(ns[i].key, true, g);
          StringsStep(h0, h1, heap);
          CollectedKept(h0, h1, ns[i].key, true);
          if !c {
            ghost var h2 := heap;
            c := IsCleared(ns[i].val, false, g);
            StringsStep(h0, h2, heap);
            StringsStep(h1, h2, heap);
            CollectedKept(h0, h2, ns[i].val, false);
          }
          if c { ns := ns[i := Entry(ns[i].key, Nil)]; }
        }
      }
    }

    /** Takes out of the weak tables what is about to be collected. */
    method ClearTables(ghost g: set<Ref>)
      requires NoDangling(heap) && Fenced(heap, garbage, g) && Covered(heap, {}, ToSet(weak)) && ColorsOk(heap)
            && NoDup(weak)
      requires forall t :: t in weak ==> Marked(heap, t) && heap[t].body.Table? && StrongClean(heap, t)
      modifies this`heap
      ensures Covered(heap, {}, {}) && ColorsOk(heap) && TablesCleared(old(heap), heap, weak)
      ensures Fenced(heap, garbage, g)
    {
      hide Covered, NoDangling, ColorsOk, StringsMarked, TableCleared, Clean, StrongClean, Refers, ArrayCleared,
            NodesCleared, Fenced;
      ghost var h0 := heap;
      TablesClearedRefl(heap);
      var i := 0;
      assert weak[0..] == weak;
      forall j | 0 <= j < |weak| ensures ToClear(h0, heap, weak[j]) { assert weak[j] in weak; }
      while i < |weak|
        invariant 0 <= i <= |weak| && Covered(heap, {}, ToSet(weak[i..])) && ColorsOk(heap) && NoDangling(heap)
        invariant TablesCleared(h0, heap, weak[..i]) && Fenced(heap, garbage, g)
        invariant forall j :: i <= j < |weak| ==> ToClear(h0, heap, weak[j])
      {
        ghost var h1 := heap;
        ClearOne(weak[i], g);
        assert weak[i..] == [weak[i]] + weak[i + 1..];
        assert ToSet(weak[i..]) == ToSet(weak[i + 1..]) + {weak[i]};
        assert weak[..i + 1] == weak[..i] + [weak[i]];
        ClearedMore(h0, h1, heap, weak[..i], weak[i], ToSet(weak[i + 1..]));
        forall j | i + 1 <= j < |weak|
              ensures ToClear(h0, heap, weak[j]) { ToClearKept(h0, h1, heap, weak[i], weak[j]); }
        i := i + 1;
      }
      assert ToSet(weak[i..]) == {} && weak[..i] == weak;
    }

    method ClearOne(t: Ref, ghost g: set<Ref>)
      requires NoDangling(heap) && Fenced(heap, garbage, g) && Marked(heap, t) && heap[t].body.Table?
            && StrongClean(heap, t)
      modifies this`heap
      ensures ClearedTo(old(heap), heap, t) && Fenced(heap, garbage, g)
    {
      hide NoDangling, StringsMarked, Clean, StrongClean, Refers, ArrayCleared, NodesCleared, Collected, Fenced;
      ghost var h0 := heap;
      var b := heap[t].body;
      FencedOutside(heap, garbage, g, t);
      TableRefs(heap, b, heap.Keys - g);
      StrongParts(heap, t);
      StringsMarkedRefl(heap);
      var a := b.arr;
      if heap[t].bit4 { a := ClearArray(a, g); }
      StringsStep(h0, h0, heap);
      ghost var h1 := heap;
      var ns := ClearNodes(b.nodes, g);
      StringsStep(h0, h1, heap);
      ClearedNodes(h0, h1, b.nodes, ns);
      var now := Table(b.meta, a, ns);
      TableKept(h0, heap, t);
      ClearedClean(heap, t, now);
      assert TableCleared(h0, b, now, h0[t].bit4);
      FencedCleared(h0, heap, garbage, g, t, now, h0[t].bit4);
      heap := heap[t := heap[t].(body := now)];
    }

    /** Marks all that can be reached, but for what only userdata to be finalized
        keep. */
    method MarkRest()
      requires Apart(modeOf, heap, garbage) && RootsApart()
      requires MarkingOk(Now()) && NoDangling(heap) && ColorsOk(heap) && gray == []
      requires forall u :: u in uvhead ==> u in heap && heap[u].body.OpenUpval?
      requires running in heap && forall v :: v in mt && v.Ptr? ==> v.r in heap
      modifies this`heap, this`gray, this`grayagain, this`weak
      ensures gray == [] && Marking(ToSet(tmudata)) && Grown(old(heap), heap) && Modes()
      ensures Marked(heap, running) && forall v :: v in mt ==> MarkedValue(heap, v)
    {
      hide Apart, RootsApart, Listed, Covered, NoDangling, ColorsOk, ModeBits;
      ghost var h0, again0, weak0 := heap, ToSet(grayagain), ToSet(weak);
      RemarkStage();
      ghost var h1 := heap;
      WeakStage(again0, weak0);
      GrownTrans(h0, h1, heap);
      ghost var h2 := heap;
      AgainStage(again0);
      GrownTrans(h0, h2, heap);
      GrownMarked(h2, heap);
    }

    /** Objects caught by barriers, and what open upvalues have got. */
    method RemarkStage()
      requires Apart(modeOf, heap, garbage) && RootsApart()
      requires MarkingOk(Now()) && NoDangling(heap) && ColorsOk(heap) && gray == []
      requires forall u :: u in uvhead ==> u in heap && heap[u].body.OpenUpval?
      modifies this`heap, this`gray, this`grayagain, this`weak
      ensures gray == [] && Marking(ToSet(old(grayagain)) + ToSet(old(weak)) + ToSet(tmudata)) && Grown(old(heap), heap)
      ensures ToSet(old(weak)) <= ToSet(weak) && ToSet(old(grayagain)) <= ToSet(grayagain)
    {
      hide Apart, RootsApart, Listed, Covered, NoDangling, ColorsOk, Advance, Clean;
      ghost var h0, gl0, tmu := heap, GL(), ToSet(tmudata);
      ghost var s := ToSet(grayagain) + ToSet(weak) + tmu;
      RemarkUpvals();
      RemarkedCovered(h0, heap, gl0, gray, Ls());
      MarkedMore(h0, gl0, heap, gray, {}, {});
      ghost var h1 := heap;
      PropagateAll(s);
      GrownTrans(h0, h1, heap);
    }

    /** Weak tables again, the running thread and the basic metatables. */
    method WeakStage(ghost again0: set<Ref>, ghost weak0: set<Ref>)
      requires gray == [] && Marking(again0 + weak0 + ToSet(tmudata)) && weak0 <= ToSet(weak)
            && again0 <= ToSet(grayagain)
      requires running in heap && forall v :: v in mt && v.Ptr? ==> v.r in heap
      modifies this`heap, this`gray, this`grayagain, this`weak
      ensures gray == [] && Marking(again0 + ToSet(tmudata)) && again0 <= ToSet(grayagain) && Grown(old(heap), heap)
            && Modes()
      ensures Marked(heap, running) && forall v :: v in mt ==> MarkedValue(heap, v)
    {
      hide Apart, RootsApart, Listed, Covered, NoDangling, ColorsOk, Advance, ModeBits;
      ghost var tmu := ToSet(tmudata);
      assert again0 + weak0 + tmu + ToSet(gray) == again0 + weak0 + tmu;
      SwapWeak(heap, GL(), again0, weak0, tmu);
      gray := weak;
      weak := [];
      assert ToSet(weak) == {};
      MarkRoots(again0 + tmu);
      ghost var h3 := heap;
      PropagateAll(again0 + tmu);
      GrownTrans(old(heap), h3, heap);
      GrownMarked(h3, heap);
    }

    /** Marks the running thread and the basic metatables. */
    method MarkRoots(ghost s: set<Ref>)
      requires Marking(s) && running in heap && forall v :: v in mt && v.Ptr? ==> v.r in heap
      modifies this`heap, this`gray
      ensures Marking(s) && Grown(old(heap), heap)
      ensures Marked(heap, running) && forall v :: v in mt ==> MarkedValue(heap, v)
    {
      hide Apart, Listed, Covered, NoDangling, ColorsOk, Advance;
      ghost var h1, gl1 := heap, GL();
      MarkValue(Ptr(running), garbage);
      MarkedMore(h1, gl1, heap, gray, s, ToSet(weak));
      ghost var h2, gl2 := heap, GL();
      MarkMt();
      MarkedMore(h2, gl2, heap, gray, s, ToSet(weak));
      GrownTrans(h1, h2, heap);
      GrownMarked(h2, heap);
    }

    /** The threads, and the tables written to since they were traversed. */
    method AgainStage(ghost again0: set<Ref>)
      requires gray == [] && Marking(again0 + ToSet(tmudata)) && again0 <= ToSet(grayagain) && Modes()
      modifies this`heap, this`gray, this`grayagain, this`weak
      ensures gray == [] && Marking(ToSet(tmudata)) && Grown(old(heap), heap) && Modes()
    {
      hide Apart, RootsApart, Listed, Covered, NoDangling, ColorsOk, ModeBits;
      ghost var tmu := ToSet(tmudata);
      assert again0 + tmu + ToSet(gray) == again0 + tmu;
      SwapAgain(heap, GL(), again0, tmu);
      gray := grayagain;
      grayagain := [];
      PropagateAll(tmu);
    }

    /** What the finalizers rely on. */
    ghost predicate FinalizersOk()
      reads this
    {
      FinOk(heap, udata, tmudata, called, nextRef) && TablesOnly(modeOf, hasGc)
    }

    /** What a marking needs to leave the garbage alone. */
    ghost predicate Sparing()
      reads this
    {
      && Apart(modeOf, heap, garbage) && RootsApart() && NotFixed(heap, garbage)
      && forall u :: u in tmudata ==> u !in garbage
    }

    ghost predicate Valid()
      reads this
    {
      GcOk(strHash, Now()) && FinalizersOk()
    }

    /** Ends the marking. Weak tables lose only what the program does not hold,
        and values about to be finalized. */
    method Atomic() returns (ghost before: Heap)
      requires Sparing()
      requires Valid() && phase == Propagate && gray == []
      modifies this`heap, this`gray, this`grayagain, this`weak, this`udata, this`tmudata, this`garbage
      modifies this`currentWhite, this`sweepStr, this`sweepPos, this`phase
      ensures Valid() && phase == SweepString && currentWhite == !old(currentWhite)
      ensures Ended(modeOf, old(Now()), before, heap, weak)
      ensures SetApartInOrder(old(heap), old(udata), old(tmudata), tmudata)
      ensures forall u :: u in tmudata[|old(tmudata)|..] ==> !HeldPast(modeOf, old(Now()), old(tmudata), u)
      ensures forall u :: u in tmudata ==> Marked(before, u) && before[u].body.Udata? && before[u].bit3
      ensures AllWhiteIn(heap, garbage) && NoneOther(heap, !currentWhite)
      ensures SetRight(modeOf, hasGc, old(Now()), old(garbage), garbage, tmudata)
    {
      hide Covered, ColorsOk, Structure, LevelsOk, FinOk, TablesCleared, NoneOther, GcOk, PhaseOk, Grown, Onward,
            KeepsHeld,
           SetApartInOrder, IsRoot, Marked, Listed, NoDangling, ModeBits, Apart, AllWhiteIn, RootsApart, NotFixed,
           Sparing, SetRight, HeldPast, BitsHeld;
      ghost var s0 := Now();
      MarkEverything();
      before := heap;
      TmuBits(strHash, heap, Ls(), main);
      ClearStage();
      AtomicRoots(s0, before, heap, weak);
      currentWhite := !currentWhite;
      sweepStr := 0;
      sweepPos := 0;
      phase := SweepString;
      AtomicOk(strHash, s0, Now());
    }

    method MarkEverything()
      requires Sparing()
      requires Valid() && phase == Propagate && gray == []
      modifies this`heap, this`gray, this`grayagain, this`weak, this`udata, this`tmudata, this`garbage
      ensures gray == [] && Covered(heap, {}, ToSet(weak)) && Marking({}) && FinalizersOk()
      ensures Structure(strHash, heap, Ls(), main) && LevelsOk(heap) && NoneOther(heap, currentWhite)
      ensures Onward(old(heap), heap) && KeepsHeld(modeOf, old(Now()), heap)
      ensures (forall r :: IsRoot(old(Now()), r) ==> Marked(heap, r)) && running in old(heap)
            && old(heap)[running].body.Thread?
      ensures (forall u :: u in tmudata ==> Marked(heap, u))
            && SetApartInOrder(old(heap), old(udata), old(tmudata), tmudata)
      ensures forall u :: u in tmudata[|old(tmudata)|..] ==> !HeldPast(modeOf, old(Now()), old(tmudata), u)
      ensures SetRight(modeOf, hasGc, old(Now()), old(garbage), garbage, tmudata) && Modes()
      ensures BitsHeld(modeOf, old(Now()), heap)
    {
      hide Listed, Covered, NoDangling, ColorsOk, ModeBits, Structure, LevelsOk, LiveClosed, FinOk, RootsLive,
           NoneOther, GcOk, PhaseOk, MarkingOk, Grown, Onward, IsRoot, KeepsHeld, SetApartInOrder, Apart, RootsApart,
                 NotFixed, HeldPast, SetRight, BitsHeld, BitsWhite;
      ghost var s0 := Now();
      AtomicStart(strHash, s0);
      MarkRest();
      ghost var h1 := heap;
      GrownStructure(strHash, s0.h, heap, Ls(), main, currentWhite);
      GrownOnward(s0.h, heap);
      ghost var s1, g0 := Now(), garbage;
      FinKept(s0.h, heap, udata, tmudata, called, nextRef);
      ghost var w1 := ToSet(weak);
      RootsMarked(s0, h1, h1);
      assert ToSet(tmudata) + ToSet(gray) == ToSet(s0.ls.tmu);
      SeparateStage();
      NewUnheld(modeOf, s0, h1, w1, s0.ls.udata, tmudata);
      BitsUnheld(modeOf, s0, h1, w1, heap);
      SetRightSince(modeOf, hasGc, s0, s1, g0, garbage, tmudata);
      ApartSince(s0.h, h1, s0.ls.udata, s0.ls.tmu, tmudata);
      RootsMarked(s0, h1, heap);
      OnwardTrans(s0.h, h1, heap);
      HeldAll(modeOf, s0, heap, ToSet(weak));
    }

    /** Userdata to be finalized are set apart and kept for their finalizers. */
    method SeparateStage()
      requires forall u :: u in tmudata ==> u !in garbage
      requires gray == [] && Marking(ToSet(tmudata)) && Modes() && FinalizersOk()
      requires Structure(strHash, heap, Ls(), main) && LevelsOk(heap) && NoneOther(heap, currentWhite)
      modifies this`heap, this`gray, this`grayagain, this`weak, this`udata, this`tmudata, this`garbage
      ensures gray == [] && Covered(heap, {}, ToSet(weak)) && Marking({}) && Modes() && FinalizersOk()
      ensures Structure(strHash, heap, Ls(), main) && LevelsOk(heap) && NoneOther(heap, currentWhite)
            && Onward(old(heap), heap)
      ensures forall u :: u in tmudata ==> Marked(heap, u)
      ensures SetApartInOrder(old(heap), old(udata), old(tmudata), tmudata)
      ensures forall u :: u in tmudata[|old(tmudata)|..] ==> IsWhite(old(heap), u)
      ensures SetRight(modeOf, hasGc, old(Now()), old(garbage), garbage, tmudata)
      ensures BitsWhite(old(heap), heap, false)
    {
      hide Listed, Covered, NoDangling, ColorsOk, ModeBits, Structure, LevelsOk, FinOk, Descends, NoneOther,
            SetApartInOrder, Onward, Apart, RootsApart, SetRight, BitsWhite, SameBodies;
      ghost var h1, tmu1 := heap, tmudata;
      SeparateDead();
      ghost var h2 := heap;
      MarkTmu();
      ghost var h3 := heap;
      PropagateAll({});
      GrownTrans(h2, h3, heap);
      GrownMarked(h3, heap);
      BitsGrown(h1, h2, heap);
      GrownStructure(strHash, h2, heap, Ls(), main, currentWhite);
      GrownOnward(h2, heap);
      FinKept(h2, heap, udata, tmudata, called, nextRef);
      OnwardTrans(h1, h2, heap);
    }

    method SeparateDead()
      requires forall u :: u in tmudata ==> u !in garbage
      requires gray == [] && Marking(ToSet(tmudata)) && Modes() && FinalizersOk()
      requires Structure(strHash, heap, Ls(), main) && LevelsOk(heap) && NoneOther(heap, currentWhite)
      modifies this`heap, this`udata, this`tmudata, this`garbage
      ensures gray == [] && Marking(ToSet(tmudata)) && Modes() && FinalizersOk()
      ensures Structure(strHash, heap, Ls(), main) && LevelsOk(heap) && NoneOther(heap, currentWhite)
            && Onward(old(heap), heap)
      ensures forall u :: u in tmudata ==> u in heap && heap[u].body.Udata?
      ensures forall u :: u in tmudata ==> u !in garbage
      ensures SetApartInOrder(old(heap), old(udata), old(tmudata), tmudata)
      ensures forall u :: u in tmudata[|old(tmudata)|..] ==> IsWhite(old(heap), u)
      ensures SetRight(modeOf, hasGc, old(Now()), old(garbage), garbage, tmudata)
      ensures BitsWhite(old(heap), heap, false) && SameBodies(old(heap), heap)
    {
      hide Listed, Covered, NoDangling, ColorsOk, ModeBits, Structure, LevelsOk, FinOk, NoneOther, Apart, SetRight,
            StillLost, BitsWhite, SameBodies;
      ApartWhite(modeOf, heap, garbage);
      ghost var h1, ls1, s1, g1 := heap, Ls(), Now(), garbage;
      FinNewest(heap, udata, tmudata, called, nextRef);
      SeparateUdata(false);
      ApartFinalized(modeOf, h1, heap, garbage);
      FinalizedBodies(h1, heap);
      ghost var d := tmudata[|ls1.tmu|..];
      StillApart(modeOf, heap, garbage, d);
      garbage := StillLost(modeOf, heap, garbage, d);
      SetRightNow(strHash, modeOf, hasGc, s1, heap, g1, d, tmudata);
      assert tmudata == ls1.tmu + tmudata[|ls1.tmu|..];
      SeparatedMarking(strHash, modeOf, h1, heap, GL(), ls1, Ls(), main, currentWhite);
      SeparatedFinalizers(strHash, hasGc, h1, heap, ls1, Ls(), called, nextRef);
    }

    method ClearStage()
      requires gray == [] && Covered(heap, {}, ToSet(weak)) && Marking({}) && FinalizersOk()
      requires Structure(strHash, heap, Ls(), main) && LevelsOk(heap) && NoneOther(heap, currentWhite)
      modifies this`heap
      ensures Covered(heap, {}, {}) && ColorsOk(heap) && TablesCleared(old(heap), heap, weak) && FinalizersOk()
      ensures Structure(strHash, heap, Ls(), main) && LevelsOk(heap) && NoneOther(heap, currentWhite)
      ensures (forall r :: Marked(old(heap), r) ==> Marked(heap, r)) && AllWhiteIn(heap, garbage)
    {
      hide Listed, Covered, NoDangling, ColorsOk, Structure, LevelsOk, FinOk, NoneOther, TablesCleared, Clean,
            StrongClean, Apart, RootsApart, Fenced, AllWhiteIn;
      ghost var h0 := heap;
      WeakReady(heap, GL());
      ghost var g := Strings(heap, garbage);
      ApartFenced(modeOf, heap, garbage);
      ClearTables(g);
      FencedWhite(heap, garbage, g);
      ClearedAfter(strHash, h0, heap, Ls(), main, currentWhite, weak);
      FinKept(h0, heap, udata, tmudata, called, nextRef);
    }

    /** Starts a cycle. */
    method MarkRoot()
      requires Apart(modeOf, heap, garbage) && RootsApart()
      requires Valid() && (phase == Pause || phase == Finalize)
      modifies this`heap, this`gray, this`grayagain, this`weak, this`phase
      ensures Valid() && phase == Propagate && Onward(old(heap), heap) && Grown(old(heap), heap)
            && Apart(modeOf, heap, garbage)
    {
      hide Listed, Covered, NoDangling, ColorsOk, Structure, LevelsOk, LiveClosed, FinOk, NoneOther, GcOk, Grown,
            Advance, RootsLive,
           PhaseOk, MainRefers, Onward, Marked, MarkedValue, FinSame, Apart, RootsApart;
      ghost var s0 := Now();
      CycleStart(strHash, s0);
      EmptyLists();
      assert ToSet(weak) == {};
      MarkFirst(ToSet(tmudata));
      CycleBegun(strHash, s0, heap, gray, called, nextRef);
      EnterPropagate(s0);
    }

    method EnterPropagate(ghost s0: State)
      requires Now() == s0.(h := heap, gl := GrayLists(gray, [], [])) && phase != SweepString
      modifies this`phase
      ensures phase == Propagate && Now() == Begun(s0, heap, gray)
    {
      phase := Propagate;
    }

    method EmptyLists()
      modifies this`gray, this`grayagain, this`weak
      ensures gray == [] && grayagain == [] && weak == []
    {
      gray, grayagain, weak := [], [], [];
    }

    method StartSweep()
      modifies this`sweepStr, this`sweepPos, this`phase
      ensures sweepStr == 0 && sweepPos == 0 && phase == SweepString
    {
      sweepStr, sweepPos := 0, 0;
      phase := SweepString;
    }

    method MarkFirst(ghost s: set<Ref>)
      requires Marking(s) && MainRefers(heap, main)
      requires (registry.Ptr? ==> registry.r in heap) && forall v :: v in mt && v.Ptr? ==> v.r in heap
      modifies this`heap, this`gray
      ensures Marking(s) && Grown(old(heap), heap) && Marked(heap, main) && MarkedValue(heap, registry)
    {
      hide Apart, Listed, Covered, NoDangling, ColorsOk, Grown, MainRefers, Marked;
      ghost var h0 := heap;
      MarkMain(s);
      ghost var h1 := heap;
      MarkRegistry(s);
      GrownTrans(h0, h1, heap);
      GrownMarked(h1, heap);
    }

    /** Marks the main thread and its globals. */
    method MarkMain(ghost s: set<Ref>)
      requires Marking(s) && MainRefers(heap, main)
      modifies this`heap, this`gray
      ensures Marking(s) && Grown(old(heap), heap) && Marked(heap, main) && heap.Keys == old(heap).Keys
    {
      hide Apart, Listed, Covered, NoDangling, ColorsOk, Advance;
      ghost var h0, gl0 := heap, GL();
      MarkValue(Ptr(main), garbage);
      MarkedMore(h0, gl0, heap, gray, s, ToSet(weak));
      ghost var h1, gl1 := heap, GL();
      MainGlobals(h0, h1, main);
      HeldIn(modeOf, heap, garbage, main);
      ClosureRefs(heap, heap[main].body, heap.Keys - garbage);
      MarkValue(heap[main].body.globals, garbage);
      MarkedMore(h1, gl1, heap, gray, s, ToSet(weak));
      GrownTrans(h0, h1, heap);
      GrownMarked(h1, heap);
    }

    /** Marks the registry and the basic metatables. */
    method MarkRegistry(ghost s: set<Ref>)
      requires Marking(s) && (registry.Ptr? ==> registry.r in heap) && forall v :: v in mt && v.Ptr? ==> v.r in heap
      modifies this`heap, this`gray
      ensures Marking(s) && Grown(old(heap), heap) && MarkedValue(heap, registry)
    {
      hide Apart, Listed, Covered, NoDangling, ColorsOk, Advance;
      ghost var h0, gl0 := heap, GL();
      MarkValue(registry, garbage);
      MarkedMore(h0, gl0, heap, gray, s, ToSet(weak));
      ghost var h1, gl1 := heap, GL();
      GrownMarked(h0, h1);
      MarkMt();
      MarkedMore(h1, gl1, heap, gray, s, ToSet(weak));
      GrownTrans(h0, h1, heap);
      GrownMarked(h1, heap);
    }

    // ----- Sweeping -----

    /** The sweep is in progress. */
    ghost predicate Sweeping()
      reads this
    {
      CoreOk(strHash, Now()) && SweepRest(Now()) && FinalizersOk()
    }

    /** Sweeps one bucket of the string table. */
    method SweepBucket(b: nat)
      requires Sweeping() && phase == SweepString && sweepPos == 0 && sweepStr == b < |strt|
      modifies this`heap, this`strt, this`sweepStr
      ensures Sweeping() && sweepStr == b + 1 && |strt| == old(|strt|)
      ensures Swept(old(heap), heap, currentWhite)
    {
      hide CoreOk, SweepRest, FinOk;
      ghost var h0 := heap;
      var i := 0;
      while i < |strt[b]|
        invariant |strt| == old(|strt|) && 0 <= i <= |strt[b]| && sweepStr == b && Sweeping()
        invariant forall j :: 0 <= j < i ==> strt[b][j] in heap && heap[strt[b][j]].color == White(currentWhite)
        invariant Swept(h0, heap, currentWhite)
        decreases |strt[b]| - i
      {
        i := SweepString1(b, i, h0);
      }
      BucketDone(strHash, Now(), b);
      sweepStr := sweepStr + 1;
    }

    method SweepString1(b: nat, i: nat, ghost h0: Heap) returns (next: nat)
      requires Sweeping() && phase == SweepString && sweepStr == b < |strt| && sweepPos == 0 && i < |strt[b]|
            && Swept(h0, heap, currentWhite)
      requires forall j :: 0 <= j < i ==> strt[b][j] in heap && heap[strt[b][j]].color == White(currentWhite)
      modifies this`heap, this`strt
      ensures Sweeping() && |strt| == old(|strt|) && next <= |strt[b]| && |strt[b]| - next < old(|strt[b]|) - i
      ensures forall j :: 0 <= j < next ==> strt[b][j] in heap && heap[strt[b][j]].color == White(currentWhite)
      ensures Swept(h0, heap, currentWhite)
    {
      hide CoreOk, SweepRest, Structure, FinOk, Swept;
      var r := strt[b][i];
      StringThere(strHash, Now(), b, i);
      if heap[r].color == White(!currentWhite) && !heap[r].fixed {
        FreeString(strHash, Now(), b, i);
        UpvalThreads(strHash, Now());
        SweptMore(h0, heap, currentWhite, r);
        heap := Dropped(heap, r);
        strt := strt[b := Without(strt[b], i)];
        next := i;
        DroppedFin(old(heap), r, udata, tmudata, called, nextRef);
        OthersStay(old(heap), r, old(strt[b]), i, currentWhite);
      } else {
        WhitenOne(strHash, Now(), r);
        SweptSame(h0, heap, currentWhite, r);
        PaintedFin(heap, r, White(currentWhite), udata, tmudata, called, nextRef);
        heap := Painted(heap, r, White(currentWhite));
        next := i + 1;
      }
    }

    /** Frees a dead open upvalue of thread t. */
    method FreeUpval(t: Ref, j: nat)
      requires Sweeping() && t in heap && heap[t].body.Thread? && j < |heap[t].body.open|
            && Dead(heap, currentWhite, heap[t].body.open[j])
      modifies this`heap, this`uvhead
      ensures Sweeping() && heap == Dropped(Unlinked(old(heap), t, j), old(heap)[t].body.open[j])
      ensures t in heap && heap[t] == WithOpen(old(heap)[t], Without(old(heap)[t].body.open, j))
      ensures |uvhead| == old(|uvhead|) - 1
    {
      hide CoreOk, SweepRest, FinOk;
      var u := heap[t].body.open[j];
      OpenThere(strHash, Now(), t, j);
      var i :| 0 <= i < |uvhead| && uvhead[i] == u;
      FreeUpvalCore(strHash, Now(), t, j, i);
      FreeUpvalRest(strHash, Now(), t, j, i);
      UnlinkedFin(heap, t, j, u, udata, tmudata, called, nextRef);
      heap := Dropped(Unlinked(heap, t, j), u);
      WithoutSize(uvhead, i);
      uvhead := Without(uvhead, i);
    }

    /** Sweeps the open upvalues of a thread. */
    method SweepOpen(t: Ref)
      requires Sweeping() && t in heap && heap[t].body.Thread?
      modifies this`heap, this`uvhead
      ensures Sweeping() && t in heap && heap[t].body.Thread? && heap[t].color == old(heap)[t].color
            && heap[t].fixed == old(heap)[t].fixed
      ensures OpenWhite(heap, currentWhite, t) && Swept(old(heap), heap, currentWhite)
      ensures |uvhead| <= old(|uvhead|)
    {
      hide CoreOk, SweepRest, FinOk, Without, Swept;
      ghost var h0 := heap;
      SweptRefl(heap, currentWhite);
      var j := 0;
      while j < |heap[t].body.open|
        invariant t in heap && heap[t].body.Thread? && 0 <= j <= |heap[t].body.open| && Sweeping()
        invariant heap[t].color == h0[t].color && heap[t].fixed == h0[t].fixed
        invariant forall i :: 0 <= i < j ==>
              heap[t].body.open[i] in heap && heap[heap[t].body.open[i]].color == White(currentWhite)
        invariant Swept(h0, heap, currentWhite) && |uvhead| <= old(|uvhead|)
        decreases |heap[t].body.open| - j
      {
        j := SweepOpen1(t, j, h0);
      }
      AllOpenWhite(strHash, Now(), t);
    }

    method SweepOpen1(t: Ref, j: nat, ghost h0: Heap) returns (next: nat)
      requires Sweeping() && t in heap && heap[t].body.Thread? && j < |heap[t].body.open|
            && Swept(h0, heap, currentWhite)
      requires forall i :: 0 <= i < j ==>
            heap[t].body.open[i] in heap && heap[heap[t].body.open[i]].color == White(currentWhite)
      modifies this`heap, this`uvhead
      ensures Sweeping() && t in heap && heap[t].body.Thread? && Swept(h0, heap, currentWhite)
      ensures heap[t].color == old(heap)[t].color && heap[t].fixed == old(heap)[t].fixed
      ensures next <= |heap[t].body.open| && |heap[t].body.open| - next < old(|heap[t].body.open|) - j
      ensures |uvhead| <= old(|uvhead|)
      ensures forall i :: 0 <= i < next ==>
            heap[t].body.open[i] in heap && heap[heap[t].body.open[i]].color == White(currentWhite)
    {
      hide CoreOk, SweepRest, FinOk, Without, Swept;
      var u := heap[t].body.open[j];
      OpenThere(strHash, Now(), t, j);
      UpvalThreads(strHash, Now());
      ghost var h1 := heap;
      if heap[u].color == White(!currentWhite) && !heap[u].fixed {
        FreeUpval(t, j);
        OpenStay(strHash, Now(), h1, heap, t, j, u, currentWhite);
        SweptUpval(h0, h1, currentWhite, t, j, u);
        next := j;
      } else {
        WhitenOne(strHash, Now(), u);
        SweptSame(h0, heap, currentWhite, u);
        PaintedFin(heap, u, White(currentWhite), udata, tmudata, called, nextRef);
        heap := Painted(heap, u, White(currentWhite));
        next := j + 1;
      }
    }

    // ----- Open upvalues -----

    /** Closes the upvalue of the highest slot of thread t: it keeps the value of
        the slot and joins the chain of all objects. */
    method CloseFirst(t: Ref)
      requires Valid() && t in heap && heap[t].body.Thread? && heap[t].body.open != []
            && Live(heap, currentWhite, heap[t].body.open[0])
      modifies this`heap, this`uvhead, this`root, this`gray, this`sweepPos
      ensures Valid() && ClosedTo(old(heap), heap, t, old(heap)[t].body.open[0])
            && FreedDead(old(heap), heap, currentWhite)
      ensures phase != Propagate ==>
            t in heap && heap[t].color == old(heap)[t].color && heap[t].fixed == old(heap)[t].fixed
      ensures phase != Propagate ==> Unrevived(old(heap), heap, currentWhite)
      ensures root == [old(heap)[t].body.open[0]] + old(root) && |uvhead| == old(|uvhead|) - 1
            && sweepPos == if old(sweepPos) == 0 then 0 else old(sweepPos) + 1
    {
      hide CoreOk, PhaseOk, MarkingOk, MarkingBut, FinOk, Advance, Without, LiveClosed, GcOk, Closed, FreedDead,
            ClosedTo, SameBodies, Unrevived;
      ghost var s0 := Now();
      var u := heap[t].body.open[0];
      GcCore(strHash, s0);
      HeadReady(strHash, s0, t, u);
      var v := SlotValue(heap, t, heap[u].body.level);
      var c := if heap[u].color.Gray? then (if phase == Propagate then Black else White(currentWhite))
            else heap[u].color;
      MoveToRoot(t, u, c);
      ghost var s1 := Now();
      HeadClosed(strHash, s0, t, u, c, s1);
      UnrevivedClosed(s0.h, t, u, c, currentWhite);
      LinkUpval(u, v);
      ClosedThen(s0.h, s1.h, heap, t, u, currentWhite);
    }

    /** Takes the first open upvalue of thread t off its lists. */
    method MoveToRoot(t: Ref, u: Ref, c: Color)
      requires CoreOk(strHash, Now()) && FinalizersOk() && t in heap && heap[t].body.Thread? && heap[t].body.open != []
      requires u == heap[t].body.open[0] && Live(heap, currentWhite, u) && c != White(!currentWhite) && c != Gray
      modifies this`heap, this`uvhead, this`root, this`sweepPos
      ensures u in old(heap) && old(heap)[u].body.OpenUpval? && u != t && heap == Closed(old(heap), t, u, c)
      ensures CoreOk(strHash, Now()) && FinalizersOk()
      ensures ClosedWell(old(heap), heap, t, u, currentWhite)
      ensures forall x :: x in old(uvhead) ==> x == u || x in uvhead
      ensures root == [u] + old(root) && sweepPos == if old(sweepPos) == 0 then 0 else old(sweepPos) + 1
      ensures |uvhead| == old(|uvhead|) - 1
    {
      hide CoreOk, FinOk, Without, Closed, ClosedWell, Live, Dead, FinSame, Marked;
      ghost var s0 := Now();
      OpenThere(strHash, s0, t, 0);
      var i :| 0 <= i < |uvhead| && uvhead[i] == u;
      RootMoved(strHash, s0, t, u, i, c, called, nextRef);
      JoinRoot(t, u, i, c);
    }

    method JoinRoot(t: Ref, u: Ref, i: nat, c: Color)
      requires t in heap && heap[t].body.Thread? && heap[t].body.open != [] && u in heap && i < |uvhead|
      requires heap[u].body.OpenUpval? && u != t
      modifies this`heap, this`uvhead, this`root, this`sweepPos
      ensures Now() == WithClosed(old(Now()), t, u, i, c) && heap == Closed(old(heap), t, u, c)
      ensures |uvhead| == old(|uvhead|) - 1 && uvhead == Without(old(uvhead), i)
      ensures root == [u] + old(root) && sweepPos == if old(sweepPos) == 0 then 0 else old(sweepPos) + 1
    {
      hide Closed;
      WithoutSize(uvhead, i);
      heap := Closed(heap, t, u, c);
      uvhead := Without(uvhead, i);
      root := [u] + root;
      if sweepPos > 0 { sweepPos := sweepPos + 1; }
    }

    /** A closed upvalue that was gray has become black, and needs a barrier. */
    method LinkUpval(u: Ref, v: Value)
      requires CoreOk(strHash, Now()) && FinalizersOk() && Live(heap, currentWhite, u)
            && LiveValue(heap, currentWhite, v)
      requires heap[u].body.ClosedUpval? && !heap[u].color.Gray?
      requires if phase == Propagate then MarkingBut(Now(), u, v, Nil) else PhaseOk(Now())
      modifies this`heap, this`gray
      ensures Valid() && SameBodies(old(heap), heap) && FreedDead(old(heap), heap, currentWhite)
      ensures phase != Propagate ==> heap == old(heap)
    {
      hide CoreOk, PhaseOk, MarkingBut, FinOk, GcOk, FreedDead;
      if phase == Propagate {
        if heap[u].color.Black? {
          Barrier(u, v);
          return;
        }
        NoBarrier(Now(), u, v, Nil);
        PhaseMarking(Now());
      }
      FreedRefl(heap, currentWhite);
      CoreGc(strHash, Now());
    }

    /** Closes the open upvalues of thread t at or above a level; dead ones are
        freed. */
    method CloseUpvals(t: Ref, level: nat)
      requires Valid() && t in heap && heap[t].body.Thread?
      modifies this`heap, this`uvhead, this`root, this`gray, this`sweepPos
      ensures Valid() && FreedDead(old(heap), heap, currentWhite) && AllClosed(old(heap), heap, t, currentWhite, level)
      ensures phase != Propagate ==>
            t in heap && heap[t].color == old(heap)[t].color && heap[t].fixed == old(heap)[t].fixed
      ensures Shifted(old(root), old(sweepPos), root, sweepPos) && |root| + |uvhead| <= old(|root| + |uvhead|)
      ensures phase != Propagate ==> Unrevived(old(heap), heap, currentWhite)
      ensures forall u :: u in heap ==> u in old(heap) && UpvalueOf(heap, u) == UpvalueOf(old(heap), u)
    {
      hide GcOk, FinOk, FreedDead, AllClosed, Shifted, UpvalueOf, ClosingTo, OneLess, Unrevived;
      ghost var s0, root0, pos0, n := Now(), root, sweepPos, 0;
      ShiftedRefl(root, sweepPos);
      UnrevivedRefl(heap, currentWhite);
      ClosingStart(strHash, s0, t, level);
      while heap[t].body.open != [] && heap[heap[t].body.open[0]].body.level >= level
        invariant Valid() && ClosingTo(s0.h, heap, t, currentWhite, level, n) && Shifted(root0, pos0, root, sweepPos)
        invariant t in heap && heap[t].body.Thread? && |root| + |uvhead| <= old(|root| + |uvhead|)
        invariant heap[t].body.open != [] ==> heap[t].body.open[0] in heap && heap[heap[t].body.open[0]].body.OpenUpval?
        invariant phase != Propagate ==> heap[t].color == s0.h[t].color && heap[t].fixed == s0.h[t].fixed
        invariant phase != Propagate ==> Unrevived(s0.h, heap, currentWhite)
        decreases |heap[t].body.open|
      {
        ghost var s1 := Now();
        CloseOne(t);
        if phase != Propagate { UnrevivedTrans(s0.h, s1.h, heap, currentWhite); }
        ShiftedTrans(root0, pos0, s1.ls.root, s1.pos, root, sweepPos);
        ClosingStep(strHash, s0, s1.h, Now(), t, level, n);
        n := n + 1;
      }
      ClosingEnd(strHash, s0, heap, t, level, n);
      ClosedReads(s0.h, heap, t, currentWhite, level);
    }

    method CloseOne(t: Ref)
      requires Valid() && t in heap && heap[t].body.Thread? && heap[t].body.open != []
      modifies this`heap, this`uvhead, this`root, this`gray, this`sweepPos
      ensures Valid() && FreedDead(old(heap), heap, currentWhite) && OneLess(old(heap), heap, t, currentWhite)
      ensures phase != Propagate ==>
            t in heap && heap[t].color == old(heap)[t].color && heap[t].fixed == old(heap)[t].fixed
      ensures phase != Propagate ==> Unrevived(old(heap), heap, currentWhite)
      ensures Shifted(old(root), old(sweepPos), root, sweepPos) && |root| + |uvhead| <= old(|root| + |uvhead|)
    {
      hide CoreOk, PhaseOk, GcOk, FinOk, FreedDead, SweepRest, Unrevived;
      var u := heap[t].body.open[0];
      OpenHead(strHash, Now(), t);
      if heap[u].color == White(!currentWhite) {
        DeadSweep(strHash, Now(), u);
        ghost var h0 := heap;
        FreeUpval(t, 0);
        UnrevivedUpval(h0, t, 0, u, currentWhite);
        FreedHead(h0, t, u, currentWhite);
        SweepBack(strHash, old(Now()), Now());
        ShiftedRefl(root, sweepPos);
      } else {
        CloseFirst(t);
        assert root[1..] == old(root);
      }
    }

    // ----- The sweep of the chain -----

    /** Sweeps at most count objects of the chain. */
    method SweepList(count: nat)
      requires Valid() && phase == Sweep
      modifies this`heap, this`root, this`udata, this`uvhead, this`gray, this`sweepPos
      ensures Valid() && Swept(old(heap), heap, currentWhite)
      ensures if count > 0
            && old(sweepPos < |root| + |udata|) then ToSweep(Ls(), sweepPos) < old(ToSweep(Ls(), sweepPos))
              else sweepPos == old(sweepPos) && root == old(root) && udata == old(udata)
    {
      hide GcOk, FinOk, Swept;
      ghost var h0 := heap;
      SweptRefl(heap, currentWhite);
      var n := count;
      while sweepPos < |root| + |udata| && n > 0
        invariant Valid() && Swept(h0, heap, currentWhite) && 0 <= n <= count
        invariant n < count ==> old(sweepPos < |root| + |udata|)
        invariant if n < count then ToSweep(Ls(), sweepPos) < old(ToSweep(Ls(), sweepPos))
                  else sweepPos == old(sweepPos) && root == old(root) && udata == old(udata) && uvhead == old(uvhead)
        decreases n
      {
        ghost var h1 := heap;
        SweepOne();
        SweptTrans(h0, h1, heap, currentWhite);
        n := n - 1;
      }
    }

    method SweepOne()
      requires Valid() && phase == Sweep && sweepPos < |root| + |udata|
      modifies this`heap, this`root, this`udata, this`uvhead, this`gray, this`sweepPos
      ensures Valid() && Swept(old(heap), heap, currentWhite)
      ensures ToSweep(Ls(), sweepPos) < old(ToSweep(Ls(), sweepPos))
    {
      hide CoreOk, GcOk, FinOk, Swept, SweepRest, OpenWhite;
      ghost var h0 := heap;
      SweepView(strHash, Now());
      ChainThere(strHash, Now(), sweepPos);
      var r := if sweepPos < |root| then root[sweepPos] else udata[sweepPos - |root|];
      SweepItsOpen(r);
      ghost var h1 := heap;
      if heap[r].color == White(!currentWhite) && !heap[r].fixed {
        SweepGc(strHash, Now());
        FreeObj(r);
      } else {
        SweepPast(r);
      }
      SweptTrans(h0, h1, heap, currentWhite);
    }

    /** Sweeps the open upvalues that object r has if it is a thread. */
    method SweepItsOpen(r: Ref)
      requires Sweeping() && r in heap
      modifies this`heap, this`uvhead
      ensures Sweeping() && r in heap && heap[r].color == old(heap)[r].color && heap[r].fixed == old(heap)[r].fixed
      ensures OpenWhite(heap, currentWhite, r) && Swept(old(heap), heap, currentWhite) && |uvhead| <= old(|uvhead|)
    {
      hide CoreOk, FinOk, Swept, SweepRest, OpenWhite;
      if heap[r].body.Thread? {
        SweepOpen(r);
      } else {
        SweptRefl(heap, currentWhite);
        NoThread(strHash, Now(), r);
        NoneOpen(heap, r, currentWhite);
      }
    }

    /** The object at the sweep pointer goes back to white. */
    method SweepPast(r: Ref)
      requires Sweeping() && phase == Sweep && sweepPos < |root| + |udata|
      requires r == At(Ls(), sweepPos) && Live(heap, currentWhite, r) && OpenWhite(heap, currentWhite, r)
      modifies this`heap, this`sweepPos
      ensures Valid() && Swept(old(heap), heap, currentWhite)
      ensures ToSweep(Ls(), sweepPos) < old(ToSweep(Ls(), sweepPos))
    {
      hide CoreOk, GcOk, FinOk, Swept, SweepRest, OpenWhite;
      SweptRefl(heap, currentWhite);
      WhitenOne(strHash, Now(), r);
      SweptSame(heap, heap, currentWhite, r);
      PaintedFin(heap, r, White(currentWhite), udata, tmudata, called, nextRef);
      WhiteOpen(heap, r, currentWhite);
      heap := Painted(heap, r, White(currentWhite));
      Advanced(Now(), r);
      CorePos(strHash, Now(), Now().(pos := sweepPos + 1));
      sweepPos := sweepPos + 1;
      SweepGc(strHash, Now());
    }

    /** Frees the object at the sweep pointer; a thread first closes its upvalues. */
    method FreeObj(r: Ref)
      requires Valid() && phase == Sweep && sweepPos < |root| + |udata| && r == At(Ls(), sweepPos)
            && Dead(heap, currentWhite, r)
      modifies this`heap, this`root, this`udata, this`uvhead, this`gray, this`sweepPos
      ensures Valid() && Swept(old(heap), heap, currentWhite)
      ensures ToSweep(Ls(), sweepPos) < old(ToSweep(Ls(), sweepPos))
    {
      hide GcOk, FinOk, Swept, AllClosed, Shifted, At;
      ghost var h0 := heap;
      var place := sweepPos;
      SweptRefl(heap, currentWhite);
      if heap[r].body.Thread? {
        var n := |root|;
        ghost var s0 := Now();
        CloseUpvals(r, 0);
        SweptClosed(s0.h, heap, currentWhite, r);
        NoneLeft(strHash, Now(), s0.h, r);
        ShiftedSize(s0.ls.root, s0.pos, root, sweepPos);
        place := place + |root| - n;
        SamePlace(s0.ls, s0.pos, Ls(), sweepPos, place);
      }
      ghost var h1 := heap;
      DropAt(place);
      SweptTrans(h0, h1, heap, currentWhite);
    }

    method DropAt(place: nat)
      requires Valid() && phase == Sweep && sweepPos <= place < |root| + |udata|
            && Dead(heap, currentWhite, At(Ls(), place))
      requires heap[At(Ls(), place)].body.Thread? ==> heap[At(Ls(), place)].body.open == []
      modifies this`heap, this`root, this`udata
      ensures Valid() && Swept(old(heap), heap, currentWhite)
      ensures |root| + |udata| == old(|root| + |udata|) - 1
    {
      hide CoreOk, GcOk, FinOk, Swept, SweepRest, Without, Dropped, InRoot, Structure;
      SweepView(strHash, Now());
      ChainThere(strHash, Now(), place);
      var r := if place < |root| then root[place] else udata[place - |root|];
      FreeChained(strHash, Now(), place);
      SweptRefl(heap, currentWhite);
      UpvalThreads(strHash, Now());
      SweptMore(heap, heap, currentWhite, r);
      DroppedFin(heap, r, udata, tmudata, called, nextRef);
      if place < |root| {
        WithoutSize(root, place);
        root := Without(root, place);
      } else {
        WithoutFin(Dropped(heap, r), place - |root|, udata, tmudata, called, nextRef);
        WithoutSize(udata, place - |root|);
        udata := Without(udata, place - |root|);
      }
      heap := Dropped(heap, r);
      SweepGc(strHash, Now());
    }

    // ----- One step of the collector -----

    /** Calls the finalizer of the userdata set apart first: it goes back to the
        chain, and on the stack of the running thread. */
    method GCTM() returns (runs: bool)
      requires Valid() && phase == Finalize && tmudata != []
      modifies this`heap, this`udata, this`tmudata, this`called
      ensures Valid() && tmudata == old(tmudata)[1..] && udata == [old(tmudata)[0]] + old(udata)
      ensures old(tmudata)[0] in old(heap)
      ensures var u, h := old(tmudata)[0], Painted(old(heap), old(tmudata)[0], White(currentWhite));
              heap == (if runs then Pushed(h, running, Ptr(u)) else h) && runs == HasFinalizer(hasGc, h, u)
      ensures runs ==> old(tmudata)[0] !in old(called) && called == old(called) + {old(tmudata)[0]}
      ensures !runs ==> called == old(called)
    {
      hide CoreOk, GcOk, FinOk, PhaseOk, Structure, RootsLive;
      ghost var s := Now();
      TakenOk(strHash, s, called, nextRef);
      var u := TakeFirst();
      assert Now() == s.(h := heap, ls := s.ls.(udata := udata, tmu := tmudata));
      runs := HasFinalizer(hasGc, heap, u);
      if runs { CallFinalizer(u); }
    }

    /** The finalizer is called; the userdata goes to the stack. */
    method CallFinalizer(u: Ref)
      requires Valid() && phase == Finalize && Live(heap, currentWhite, u) && heap[u].body.Udata? && heap[u].bit3
      requires u !in tmudata && u !in called
      modifies this`heap, this`called
      ensures Valid() && heap == Pushed(old(heap), running, Ptr(u)) && called == old(called) + {u}
    {
      hide GcOk, FinOk;
      CalledFin(heap, udata, tmudata, called, nextRef, u);
      called := called + {u};
      RunningThread(strHash, Now());
      ReadyToPush(strHash, Now(), u);
      SetStack(running, heap[running].body.stack + [Ptr(u)]);
    }

    // ----- Closing the state -----

    /** What GCTM does to the lists, in whatever phase. */
    method TakeFirst() returns (u: Ref)
      requires Structure(strHash, heap, Ls(), main) && tmudata != []
      modifies this`heap, this`udata, this`tmudata
      ensures Structure(strHash, heap, Ls(), main) && u == old(tmudata)[0] && tmudata == old(tmudata)[1..]
            && udata == [u] + old(udata)
      ensures u in old(heap) && heap == Painted(old(heap), u, White(currentWhite))
    {
      hide Structure;
      ghost var ls := Ls();
      FirstTaken(strHash, heap, ls, main, White(currentWhite));
      u := tmudata[0];
      tmudata := tmudata[1..];
      udata := [u] + udata;
      heap := Painted(heap, u, White(currentWhite));
      assert Ls() == ls.(udata := [u] + ls.udata, tmu := ls.tmu[1..]);
    }

    /** luaC_callGCTM, protected: it ends at the first finalizer that raises an error. */
    method CallAllGCTM(raises: Ref -> bool) returns (failed: bool, ran: seq<Ref>)
      requires Structure(strHash, heap, Ls(), main)
      modifies this`heap, this`udata, this`tmudata
      ensures Structure(strHash, heap, Ls(), main) && SameBodies(old(heap), heap)
      ensures |tmudata| <= old(|tmudata|) && (failed ==> |tmudata| < old(|tmudata|)) && (!failed ==> tmudata == [])
      ensures tmudata == old(tmudata)[old(|tmudata|) - |tmudata|..]
      ensures ran == WithFinalizer(hasGc, old(heap), old(tmudata)[..old(|tmudata|) - |tmudata|])
      ensures EndsAtError(raises, ran, failed)
    {
      hide Structure, HasFinalizer, WithFinalizer;
      NoneRan(hasGc, heap);
      ghost var h0, all := heap, tmudata;
      failed, ran := false, [];
      while tmudata != [] && !failed
        invariant Structure(strHash, heap, Ls(), main) && SameBodies(h0, heap) && |tmudata| <= |all|
        invariant tmudata == all[|all| - |tmudata|..] && ran == WithFinalizer(hasGc, h0, all[..|all| - |tmudata|])
        invariant (failed ==> |tmudata| < |all|) && EndsAtError(raises, ran, failed)
        decreases |tmudata|
      {
        ghost var h1 := heap;
        var u := TakeFirst();
        RanMore(hasGc, h0, heap, all, |all| - |tmudata|, u);
        if HasFinalizer(hasGc, heap, u) {
          ran := ran + [u];
          failed := raises(u);
        }
      }
      assert tmudata == [] ==> all[..|all| - |tmudata|] == all;
    }

    /** lua_close, once the upvalues of the main thread are closed: it sets apart every userdata
        that has a finalizer and starts again after each error until none is left. All finalizers
        that have not been called are, once. */
    method FinalizeAll(raises: Ref -> bool) returns (ran: seq<Ref>)
      requires Valid()
      modifies this`heap, this`udata, this`tmudata
      ensures tmudata == [] && Structure(strHash, heap, Ls(), main) && SameBodies(old(heap), heap)
      ensures forall u :: u in old(udata) && ToFinalize(hasGc, old(heap), u, true) ==> u in ran
      ensures forall u :: u in old(tmudata) && HasFinalizer(hasGc, old(heap), u) ==> u in ran
      ensures NoDup(ran) && forall u :: u in ran ==> u !in called
      ensures var first := WithFinalizer(hasGc, old(heap), old(tmudata));
              |first| <= |ran| && ran[..|first|] == first && Descends(ran[|first|..])
    {
      hide Structure, HasFinalizer, Descends, WithFinalizer, OnlyFinalized, GcOk, FinOk, NewestFirst, ToFinalize;
      ghost var s := Now();
      ClosingLists(strHash, s, called, nextRef);
      SeparateUdata(true);
      ghost var h1, all := heap, tmudata;
      FinalizedBodies(s.h, h1);
      AllDistinct(strHash, h1, Ls(), main);
      AllUncalled(hasGc, s, all, called, nextRef);
      ran := Drain(raises);
      BodiesTwice(s.h, h1, heap);
      FinalizersAll(hasGc, h1, all);
      AllFinalized(hasGc, s.h, h1, s.ls, all);
      FinalizersInOrder(hasGc, s.h, h1, s.ls.tmu, all);
    }

    /** Repeats until no finalizer raises an error. */
    method Drain(raises: Ref -> bool) returns (ran: seq<Ref>)
      requires Structure(strHash, heap, Ls(), main)
      modifies this`heap, this`udata, this`tmudata
      ensures tmudata == [] && ran == WithFinalizer(hasGc, old(heap), old(tmudata))
      ensures Structure(strHash, heap, Ls(), main) && SameBodies(old(heap), heap)
    {
      hide Structure, HasFinalizer, SameBodies;
      ghost var h1, all := heap, tmudata;
      var failed;
      failed, ran := CallAllGCTM(raises);
      ghost var done := |all| - |tmudata|;
      while failed
        invariant Structure(strHash, heap, Ls(), main) && SameBodies(h1, heap) && |tmudata| <= |all|
              && done == |all| - |tmudata|
        invariant tmudata == all[done..] && ran == WithFinalizer(hasGc, h1, all[..done])
        invariant !failed ==> tmudata == []
        decreases |tmudata|, failed
      {
        ghost var h2 := heap;
        var more;
        failed, more := CallAllGCTM(raises);
        BodiesTwice(h1, h2, heap);
        FinalizersJoin(hasGc, h1, h2, all, done, |all| - |tmudata|);
        ran := ran + more;
        done := |all| - |tmudata|;
      }
      assert all[..done] == all;
    }

    /** What is to be garbage is left alone by the marking, then dead, and then gone. */
    ghost predicate Waste()
      reads this
    {
      match phase
      case Propagate => Sparing()
      case SweepString => forall r :: r in garbage && r in heap ==> Dead(heap, currentWhite, r)
      case Sweep => forall r :: r in garbage && r in heap ==> Dead(heap, currentWhite, r)
      case _ => forall r :: r in garbage ==> r !in heap
    }

    /** The step an allocation may trigger. */
    method SingleStep()
      requires Valid()
      modifies this`heap, this`gray, this`grayagain, this`weak, this`root, this`udata, this`strt, this`tmudata,
            this`uvhead
      modifies this`currentWhite, this`phase, this`sweepStr, this`sweepPos, this`called, this`garbage
      ensures Valid() && forall r :: Reachable(old(Now()), r) ==> r in heap
      ensures Nearer(old(Now()), Now()) && Keeps(modeOf, old(Now()), Now())
      ensures old(phase) == SweepString || old(phase) == Sweep ==> Pruned(old(Now()), Now())
    {
      hide GcOk, FinOk, Reachable, Onward, Keeps, Swept, Grown, Apart;
      ghost var s := Now();
      garbage := {};
      ApartNone(modeOf, heap);
      if phase == Pause {
        ReachableStay(strHash, s);
        MarkRoot();
        OnwardKeys(s.h, heap);
        MarkingKeeps(modeOf, s, Now());
      } else {
        Step();
      }
    }

    /** A step in the middle of a collection. */
    method Step()
      requires Valid() && phase != Pause && Waste()
      modifies this`heap, this`gray, this`grayagain, this`weak, this`root, this`udata, this`strt, this`tmudata,
            this`uvhead
      modifies this`currentWhite, this`phase, this`sweepStr, this`sweepPos, this`called, this`garbage
      ensures Valid() && Waste() && (forall r :: Reachable(old(Now()), r) ==> r in heap) && heap.Keys <= old(heap).Keys
      ensures Nearer(old(Now()), Now()) && Keeps(modeOf, old(Now()), Now())
      ensures old(phase) == SweepString || old(phase) == Sweep ==> Pruned(old(Now()), Now())
      ensures StepDoes(modeOf, hasGc, old(Now()), old(garbage), old(called), Now(), garbage, called)
    {
      hide GcOk, FinOk, FreedDead, Reachable, Grown, PhaseOk, Keeps, Swept, Dead, Sparing, TablesOnly, SetRight,
            Waiting, Passed, OnlyPushed;
      ghost var s := Now();
      ReachableStay(strHash, s);
      match phase
      case Propagate =>
        if gray != [] {
          PropagateStep();
          MarkingKeeps(modeOf, s, Now());
        } else {
          AtomicStep();
        }
      case SweepString =>
        SweepStringStep();
      case Sweep =>
        SweepStep();
      case Finalize =>
        FinalizeStep();
        FinalizeKeeps(strHash, modeOf, s, Now());
    }

    method PropagateStep()
      requires Valid() && phase == Propagate && gray != [] && Sparing()
      modifies this`heap, this`gray, this`grayagain, this`weak
      ensures Valid() && heap.Keys == old(heap).Keys && Nearer(old(Now()), Now()) && Grown(old(heap), heap)
            && Sparing()
    {
      hide GcOk, FinOk, CoreOk, Propagated, Structure, Covered, Listed, NoDangling, Onward, Apart, RootsApart, NotFixed,
            Grown;
      ghost var s := Now();
      AtomicStart(strHash, s);
      PropagateMark();
      PropagatedLess(s.h, s.gl, heap, GL(), s.gl.gray[0]);
      PropagatedOnward(s.h, s.gl, heap, GL(), s.gl.gray[0]);
      SparedGrown(s.h, heap, garbage);
      PropagatedGc(strHash, s, Now());
      FinKept(s.h, heap, udata, tmudata, called, nextRef);
    }

    method AtomicStep()
      requires Valid() && phase == Propagate && gray == [] && Sparing()
      modifies this`heap, this`gray, this`grayagain, this`weak, this`udata, this`tmudata, this`garbage
      modifies this`currentWhite, this`sweepStr, this`sweepPos, this`phase
      ensures Valid() && phase == SweepString && heap.Keys == old(heap).Keys && Keeps(modeOf, old(Now()), Now())
      ensures forall r :: r in garbage && r in heap ==> Dead(heap, currentWhite, r)
      ensures SetRight(modeOf, hasGc, old(Now()), old(garbage), garbage, tmudata)
      ensures Waiting(modeOf, hasGc, old(Now()), Now())
    {
      hide GcOk, FinOk, Onward, TablesCleared, SetApartInOrder, KeepsHeld, PhaseOk, Keeps, Dead, Apart, AllWhiteIn,
            NotFixed, NoneOther, RootsApart, SetRight, HeldPast, ModeBits, Waiting, BitsHeld, ContentsLeft;
      ghost var s, g0 := Now(), garbage;
      ghost var before := Atomic();
      SetRightLess(modeOf, hasGc, s, g0, garbage, tmudata);
      OnwardKeys(s.h, before);
      ClearedKeys(before, heap, weak);
      NewOnes(s.h, s.ls.udata, s.ls.tmu, tmudata);
      FewerFixed(s.h, g0, garbage);
      GarbageFixed(s.h, before, heap, weak, garbage);
      GarbageDead(heap, !currentWhite, garbage);
      AtomicKeeps(modeOf, s, before, Now(), weak);
      WaitingNow(modeOf, hasGc, s, before, Now(), weak);
    }

    /** What a step of a sweep has done. */
    ghost predicate SweptStep(s: State, c0: set<Ref>, t: State, c1: set<Ref>) {
      && (s.phase == SweepString || s.phase == Sweep) && t.phase != Propagate && Nearer(s, t) && t.h.Keys <= s.h.Keys
      && Pruned(s, t) && Keeps(modeOf, s, t) && Passed(hasGc, s, c0, t, c1)
      && forall r :: Live(s.h, s.cw, r) ==> r in t.h
    }

    method SweepStringStep()
      requires Valid() && phase == SweepString && Waste()
      modifies this`heap, this`strt, this`sweepStr, this`phase
      ensures Valid() && Waste() && SweptStep(old(Now()), old(called), Now(), called)
    {
      hide GcOk, FinOk, CoreOk, SweepRest, Swept, Dead, Passed, Keeps, TablesOnly;
      ghost var s := Now();
      StringsView(strHash, Now());
      SweepBucket(sweepStr);
      if sweepStr >= |strt| {
        StringsDone(strHash, Now());
        phase := Sweep;
      }
      StringsGc(strHash, Now());
      PrunedPassed(strHash, modeOf, hasGc, s, Now(), called);
      SweepTaken(modeOf, s, Now(), garbage);
    }

    method SweepStep()
      requires Valid() && phase == Sweep && Waste()
      modifies this`heap, this`root, this`udata, this`uvhead, this`gray, this`sweepPos, this`phase
      ensures Valid() && Waste() && SweptStep(old(Now()), old(called), Now(), called)
    {
      hide GcOk, FinOk, Swept, PhaseOk, Dead, Passed, Keeps, TablesOnly;
      ghost var s := Now();
      SweepBound(strHash, Now());
      SweepList(40);
      if sweepPos == |root| + |udata| {
        SweepDone(strHash, Now());
        phase := Finalize;
      }
      PrunedPassed(strHash, modeOf, hasGc, s, Now(), called);
      SweepTaken(modeOf, s, Now(), garbage);
      if phase == Finalize { DeadGone(strHash, Now(), garbage); }
    }

    method FinalizeStep()
      requires Valid() && phase == Finalize
      modifies this`heap, this`udata, this`tmudata, this`called, this`phase
      ensures Valid() && heap.Keys == old(heap).Keys && Nearer(old(Now()), Now())
      ensures Passed(hasGc, old(Now()), old(called), Now(), called) && OnlyPushed(old(Now()), heap)
    {
      hide GcOk, FinOk, PhaseOk, HasFinalizer, TablesOnly, Passed, OnlyPushed, LevelsOk;
      GcLevels(strHash, Now());
      if tmudata != [] {
        ghost var s, c := Now(), called;
        var runs := GCTM();
        assert heap.Keys == old(heap).Keys;
        TurnPushed(s, s.ls.tmu[0], White(currentWhite), runs, heap);
        TurnPassed(modeOf, hasGc, s, c, Now(), called, runs);
      } else {
        NonePassed(hasGc, Now(), called);
        NonePushed(Now());
        FinalizeDone(strHash, Now());
        phase := Pause;
      }
    }

    /** A full collection begun in the middle of a marking gives up the marking
        and first returns all objects to white. */
    method RestartSweep()
      requires Valid() && (phase == Pause || phase == Propagate)
      modifies this`gray, this`grayagain, this`weak, this`sweepStr, this`sweepPos, this`phase
      ensures Valid() && Now() == Restart(old(Now()))
    {
      hide GcOk, FinOk;
      ghost var s := Now();
      RestartedGc(strHash, s);
      EmptyLists();
      StartSweep();
      assert Now() == Restart(s);
    }

    /** luaC_fullgc, from any state. It comes to an end: what sweep there is is finished, then a
        whole collection is done. It keeps all objects that the program held when it began and
        none but those that were wanted then, with their contents, but for what weak tables lose. */
    method FullGc()
      requires Valid()
      modifies this`heap, this`gray, this`grayagain, this`weak, this`root, this`udata, this`strt, this`tmudata,
            this`uvhead
      modifies this`currentWhite, this`phase, this`sweepStr, this`sweepPos, this`called, this`garbage
      ensures Valid() && phase == Pause && tmudata == []
      ensures forall r :: Held(modeOf, old(Now()), r) ==> r in heap
      ensures forall r :: r in heap ==> r in old(heap) && Wanted(modeOf, hasGc, old(Now()), r)
      ensures ContentsLeft(modeOf, old(Now()), heap)
    {
      hide GcOk, FinOk, Held, Wanted, Pruned, TablesOnly, ContentsLeft;
      ghost var s := Now();
      PrunedRefl(s, s);
      if phase == Pause || phase == Propagate {
        RestartSweep();
        PrunedRefl(s, Now());
      }
      FinishSweep(s);
      ghost var t := Now();
      PrunedKeys(s, t);
      Collect();
      forall r | Held(modeOf, s, r) ensures r in heap { HeldPruned(strHash, modeOf, hasGc, s, t, r); }
      forall r | r in heap ensures r in s.h && Wanted(modeOf, hasGc, s, r) {
        WantedPruned(strHash, modeOf, hasGc, s, t, r);
      }
      ContentsPruned(strHash, modeOf, hasGc, s, t, heap);
    }

    method FinishSweep(ghost s: State)
      requires Valid() && phase != Pause && phase != Propagate && Pruned(s, Now())
      modifies this`heap, this`gray, this`grayagain, this`weak, this`root, this`udata, this`strt, this`tmudata,
            this`uvhead
      modifies this`currentWhite, this`phase, this`sweepStr, this`sweepPos, this`called, this`garbage
      ensures Valid() && phase == Finalize && Pruned(s, Now())
    {
      hide GcOk, FinOk, Reachable, Keeps, Work, Pruned, TablesOnly;
      while phase != Finalize
        invariant Valid() && phase != Pause && phase != Propagate && Pruned(s, Now())
        decreases Rank(phase), Work(Now())
      {
        WorkNat(strHash, Now());
        ghost var t := Now();
        SingleStep();
        PrunedTrans(s, t, Now());
      }
    }

    /** One whole collection. It ends, and keeps all objects that the program held at its start and
        none but those that were wanted then. It calls the finalizers that were due of all userdata
        to which nothing led, unless a weak metatable lost one, and of none that the program held,
        but perhaps through others that waited. What is left has its contents, but for what weak
        tables lose. */
    method Collect()
      requires Valid() && (phase == Pause || phase == Finalize)
      modifies this`heap, this`gray, this`grayagain, this`weak, this`root, this`udata, this`strt, this`tmudata,
            this`uvhead
      modifies this`currentWhite, this`phase, this`sweepStr, this`sweepPos, this`called, this`garbage
      ensures Valid() && phase == Pause && tmudata == []
      ensures forall r :: Held(modeOf, old(Now()), r) ==> r in heap
      ensures forall r :: r in heap ==> r in old(heap) && Wanted(modeOf, hasGc, old(Now()), r)
      ensures forall u :: Due(hasGc, old(heap), u) && !Reached(modeOf, old(Now()), u) && Firm(modeOf, old(heap), u) ==>
                u in called
      ensures old(called) <= called && forall u :: u in called - old(called) ==> Allowed(modeOf, old(Now()), u)
      ensures ContentsLeft(modeOf, old(Now()), heap)
    {
      hide GcOk, FinOk, Held, Wanted, Onward, Grown, Apart, NotFixed, Lost, Finalizing, TablesOnly, ContentsLeft;
      ghost var s0 := Now();
      garbage := Lost(modeOf, s0);
      LostSpared();
      MarkRoot();
      OnwardKeys(s0.h, heap);
      SparedGrown(s0.h, heap, garbage);
      FinishCycle(s0);
      LostGone(modeOf, hasGc, s0, old(called), Now(), garbage, called);
    }

    method FinishCycle(ghost s0: State)
      requires Valid() && phase == Propagate && Waste() && Grown(s0.h, heap) && tmudata == s0.ls.tmu
      requires SameRoots(s0, Now())
      modifies this`heap, this`gray, this`grayagain, this`weak, this`root, this`udata, this`strt, this`tmudata,
            this`uvhead
      modifies this`currentWhite, this`phase, this`sweepStr, this`sweepPos, this`called, this`garbage
      ensures Valid() && phase == Pause && tmudata == [] && heap.Keys <= old(heap).Keys
      ensures Finalizing(modeOf, hasGc, s0, old(garbage), old(called), Now(), garbage, called)
      ensures (forall r :: Held(modeOf, s0, r) ==> r in heap) && forall r :: r in garbage ==> r !in heap
      ensures ContentsLeft(modeOf, s0, heap)
    {
      hide GcOk, FinOk, Reachable, Keeps, Work, KeptSince, Grown, Held, Waste, Pruned, Finalizing, StepDoes, TablesOnly,
           ContentsLeft;
      ghost var g0, c0 := garbage, called;
      KeptStart(modeOf, s0, Now());
      FinalizingStart(modeOf, hasGc, s0, Now(), garbage, called);
      while phase != Pause
        invariant Valid() && Waste() && KeptSince(modeOf, s0, Now()) && heap.Keys <= old(heap).Keys
        invariant Finalizing(modeOf, hasGc, s0, g0, c0, Now(), garbage, called)
        decreases Rank(phase), Work(Now())
      {
        ghost var s, g, c := Now(), garbage, called;
        WorkNat(strHash, s);
        Step();
        KeptOn(modeOf, s0, s, Now());
        KeptMarking(modeOf, s0, s);
        FinalizingOn(modeOf, hasGc, s0, g0, c0, s, g, c, Now(), garbage, called);
      }
      NoneWaiting(strHash, Now());
      KeptThere(modeOf, s0, Now());
      WasteGone();
    }

    lemma LostSpared()
      requires Valid() && (phase == Pause || phase == Finalize) && garbage == Lost(modeOf, Now())
      ensures Sparing()
    {
      hide GcOk, FinOk, Apart, NotFixed, Lost, TablesOnly;
      LostApart(strHash, modeOf, Now());
      assert forall r :: IsRoot(Now(), r) ==> Anchor(NoneHas(), Now(), r);
      assert forall r :: r in tmudata ==> Anchor(NoneHas(), Now(), r);
      forall v | v in mt && v.Ptr? ensures v.r !in garbage { assert IsRoot(Now(), v.r); }
      assert IsRoot(Now(), main) && IsRoot(Now(), running);
      if registry.Ptr? { assert IsRoot(Now(), registry.r); }
    }

    lemma WasteGone()
      requires phase == Pause && Waste()
      ensures forall r :: r in garbage ==> r !in heap
    {
    }

    // ----- Writes to a thread -----

    /** Values are put on or taken off a stack, with no barrier; slots with open
        upvalues stay. */
    method SetStack(t: Ref, stack: seq<Value>)
      requires Valid() && t in heap && heap[t].body.Thread? && StackFits(heap, currentWhite, t, stack)
      modifies this`heap
      ensures Valid() && heap == old(heap)[t := old(heap)[t].(body := Thread(old(heap)[t].body.globals, stack,
            old(heap)[t].body.open))]
    {
      hide GcOk, FinOk, CoreOk, PhaseOk;
      ghost var s := Now();
      GcCore(strHash, s);
      StackWritten(strHash, s, t, stack);
      FinKept(heap, WithStack(heap, t, stack), udata, tmudata, called, nextRef);
      heap := heap[t := heap[t].(body := Thread(heap[t].body.globals, stack, heap[t].body.open))];
      CoreGc(strHash, Now());
    }

    // ----- Barriers -----

    /** The forward barrier: after v has been stored in object o. */
    method Barrier(o: Ref, v: Value)
      requires CoreOk(strHash, Now()) && FinalizersOk() && Live(heap, currentWhite, o)
            && LiveValue(heap, currentWhite, v)
      requires !heap[o].body.Str? && !heap[o].body.OpenUpval?
      requires if phase == Propagate then MarkingBut(Now(), o, v, Nil) else PhaseOk(Now())
      modifies this`heap, this`gray
      ensures Valid() && SameBodies(old(heap), heap) && FreedDead(old(heap), heap, currentWhite)
      ensures phase == Pause ==> heap == old(heap)
      ensures phase != Propagate ==>
                heap == if v.Ptr? && old(heap)[v.r].color.White? && old(heap)[o].color.Black?
                        then Painted(old(heap), o, White(currentWhite)) else old(heap)
    {
      hide CoreOk, PhaseOk, MarkingBut, FinOk, GcOk, FreedDead, SameBodies;
      ghost var s := Now();
      FreedRefl(heap, currentWhite);
      SameBodiesRefl(heap);
      if v.Ptr? && heap[v.r].color.White? && heap[o].color.Black? {
        if phase == Propagate {
          MarkStored(o, v);
        } else {
          if phase == Pause { PauseWhite(s, o); }
          Whiten(o);
        }
      } else if phase == Propagate {
        if heap[o].color.Gray? {
          MarkingButListed(s, o, v, Nil);
          GrayPending(strHash, s, o);
        }
        NoBarrier(s, o, v, Nil);
        PhaseMarking(s);
      }
      CoreGc(strHash, Now());
    }

    /** During the marking the value stored is marked. */
    method MarkStored(o: Ref, v: Value)
      requires CoreOk(strHash, Now()) && FinalizersOk() && phase == Propagate && MarkingBut(Now(), o, v, Nil)
      requires v.Ptr? && Live(heap, currentWhite, v.r) && heap[v.r].color.White?
      requires Live(heap, currentWhite, o) && !heap[o].body.Str? && !heap[o].body.OpenUpval? && heap[o].color.Black?
      modifies this`heap, this`gray
      ensures CoreOk(strHash, Now()) && PhaseOk(Now()) && FinalizersOk()
      ensures SameBodies(old(heap), heap) && FreedDead(old(heap), heap, currentWhite)
    {
      hide CoreOk, PhaseOk, MarkingBut, FinOk, Advance, GcOk, FreedDead;
      ghost var s := Now();
      Marker(strHash, s, o, v);
      ApartNone(modeOf, heap);
      ReallyMark(v.r, {});
      ForwardDone(strHash, s, o, v, heap, gray);
      PhaseMarking(Now());
      MarkedAfter(s.h, s.gl.gray, heap, gray, currentWhite);
      FinKept(s.h, heap, udata, tmudata, called, nextRef);
    }

    /** At other times the object goes back to white, and needs no more barriers. */
    method Whiten(o: Ref)
      requires CoreOk(strHash, Now()) && FinalizersOk() && phase != Propagate && PhaseOk(Now())
      requires Live(heap, currentWhite, o) && !heap[o].body.Str? && !heap[o].body.OpenUpval? && heap[o].color.Black?
      modifies this`heap
      ensures CoreOk(strHash, Now()) && PhaseOk(Now()) && FinalizersOk()
      ensures SameBodies(old(heap), heap) && FreedDead(old(heap), heap, currentWhite)
      ensures heap == Painted(old(heap), o, White(currentWhite))
    {
      hide CoreOk, PhaseOk, FinOk, GcOk, FreedDead;
      ghost var s := Now();
      FreedRefl(heap, currentWhite);
      WhitenCore(strHash, s, o);
      WhitenPhase(s, o);
      PaintedFin(heap, o, White(currentWhite), udata, tmudata, called, nextRef);
      FreedSame(heap, heap, currentWhite, o);
      heap := Painted(heap, o, White(currentWhite));
    }

    /** The backward barrier: after v has been stored in table t. */
    method BarrierBack(t: Ref, v: Value, w: Value)
      requires CoreOk(strHash, Now()) && FinalizersOk() && t in heap && heap[t].body.Table?
      requires LiveValue(heap, currentWhite, v) && LiveValue(heap, currentWhite, w)
      requires if phase == Propagate then MarkingBut(Now(), t, v, w) else PhaseOk(Now())
      modifies this`heap, this`grayagain
      ensures Valid() && SameBodies(old(heap), heap) && FreedDead(old(heap), heap, currentWhite)
    {
      hide CoreOk, PhaseOk, MarkingBut, FinOk, GcOk, FreedDead;
      ghost var s := Now();
      FreedRefl(heap, currentWhite);
      if heap[t].color.Black? && ((v.Ptr? && heap[v.r].color.White?) || (w.Ptr? && heap[w.r].color.White?)) {
        BackAgain(strHash, s, t, v, w);
        PaintedFin(heap, t, Gray, udata, tmudata, called, nextRef);
        FreedGray(heap, t, currentWhite);
        heap := Painted(heap, t, Gray);
        grayagain := [t] + grayagain;
        assert Now() == WithAgain(s, t);
      } else {
        BackNone(strHash, s, t, v, w);
      }
    }

    // ----- The program: stores -----

    /** Table t gets new contents, with no new references but v and w: an
        assignment, a new key, a metatable. */
    method StoreTable(t: Ref, body: Body, v: Value, w: Value)
      requires Valid() && t in heap && Wrote(heap, heap[t := heap[t].(body := body)], t, v, w) && body.Table?
      requires LiveValue(heap, currentWhite, v) && LiveValue(heap, currentWhite, w)
      modifies this`heap, this`grayagain
      ensures Valid() && Stored(old(heap), heap, t, body) && FreedDead(old(heap), heap, currentWhite)
    {
      hide CoreOk, PhaseOk, MarkingBut, FinOk, GcOk, FreedDead, Wrote, MarkingOk, SameColors, Stored, SameBodies;
      ghost var s := Now();
      ghost var k := heap[t := heap[t].(body := body)];
      GcCore(strHash, s);
      WroteStep(strHash, s, k, t, v, w, udata, tmudata, called, nextRef);
      StoredLive(s.h, k, t, body, s.cw);
      WroteTable(s.h, k, t, v, w);
      heap := heap[t := heap[t].(body := body)];
      BarrierBack(t, v, w);
      StoredThen(s.h, k, heap, t, body, currentWhite);
    }

    /** An entry of the array part. */
    method SetArray(t: Ref, i: nat, v: Value)
      requires Valid() && t in heap && heap[t].body.Table? && i < |heap[t].body.arr| && LiveValue(heap, currentWhite, v)
      modifies this`heap, this`grayagain
      ensures Valid() && FreedDead(old(heap), heap, currentWhite)
      ensures Stored(old(heap), heap, t,
            Table(old(heap)[t].body.meta, old(heap)[t].body.arr[i := v], old(heap)[t].body.nodes))
    {
      var b := heap[t].body;
      ArrayWrote(heap, t, i, v);
      hide GcOk, FinOk, Wrote, Stored, FreedDead;
      StoreTable(t, Table(b.meta, b.arr[i := v], b.nodes), v, Nil);
    }

    /** An entry of the hash part, key and value. */
    method SetNode(t: Ref, i: nat, key: Value, v: Value)
      requires Valid() && t in heap && heap[t].body.Table? && i < |heap[t].body.nodes|
      requires LiveValue(heap, currentWhite, key) && LiveValue(heap, currentWhite, v)
      modifies this`heap, this`grayagain
      ensures Valid() && FreedDead(old(heap), heap, currentWhite)
      ensures Stored(old(heap), heap, t,
            Table(old(heap)[t].body.meta, old(heap)[t].body.arr, old(heap)[t].body.nodes[i := Entry(key, v)]))
    {
      var b := heap[t].body;
      NodeWrote(heap, t, i, key, v);
      hide GcOk, FinOk, Wrote, Stored, FreedDead;
      StoreTable(t, Table(b.meta, b.arr, b.nodes[i := Entry(key, v)]), key, v);
    }

    /** A metatable, or none. */
    method SetMetatable(t: Ref, m: Value)
      requires Valid() && t in heap && heap[t].body.Table? && LiveValue(heap, currentWhite, m)
      modifies this`heap, this`grayagain
      ensures Valid() && FreedDead(old(heap), heap, currentWhite)
      ensures Stored(old(heap), heap, t, Table(m, old(heap)[t].body.arr, old(heap)[t].body.nodes))
    {
      var b := heap[t].body;
      MetaWrote(heap, t, m);
      hide GcOk, FinOk, Wrote, Stored, FreedDead;
      StoreTable(t, Table(m, b.arr, b.nodes), m, Nil);
    }

    /** A closure, function prototype, userdata or closed upvalue gets new
        contents, with no new reference but v. */
    method StoreObject(o: Ref, body: Body, v: Value)
      requires Valid() && Live(heap, currentWhite, o) && Wrote(heap, heap[o := heap[o].(body := body)], o, v, Nil)
      requires body.Closure? || body.Proto? || body.Udata? || body.ClosedUpval?
      requires LiveValue(heap, currentWhite, v)
      modifies this`heap, this`gray
      ensures Valid() && Stored(old(heap), heap, o, body) && FreedDead(old(heap), heap, currentWhite)
    {
      hide CoreOk, PhaseOk, MarkingBut, FinOk, GcOk, FreedDead, Wrote, MarkingOk, SameColors, Stored, SameBodies;
      ghost var s := Now();
      ghost var k := heap[o := heap[o].(body := body)];
      GcCore(strHash, s);
      WroteStep(strHash, s, k, o, v, Nil, udata, tmudata, called, nextRef);
      StoredLive(s.h, k, o, body, s.cw);
      heap := heap[o := heap[o].(body := body)];
      Barrier(o, v);
      StoredThen(s.h, k, heap, o, body, currentWhite);
    }

    /** An upvalue or the environment of a closure. */
    method SetHeld(c: Ref, i: nat, v: Value)
      requires Valid() && Live(heap, currentWhite, c) && heap[c].body.Closure? && i < |heap[c].body.held|
            && LiveValue(heap, currentWhite, v)
      modifies this`heap, this`gray
      ensures Valid() && FreedDead(old(heap), heap, currentWhite)
            && Stored(old(heap), heap, c, Closure(old(heap)[c].body.held[i := v]))
    {
      HeldWrote(heap, c, i, v);
      hide GcOk, FinOk, Wrote, Stored, FreedDead;
      StoreObject(c, Closure(heap[c].body.held[i := v]), v);
    }

    /** The metatable of a userdata. */
    method SetUserMeta(u: Ref, m: Value)
      requires Valid() && Live(heap, currentWhite, u) && heap[u].body.Udata? && LiveValue(heap, currentWhite, m)
      modifies this`heap, this`gray
      ensures Valid() && FreedDead(old(heap), heap, currentWhite)
            && Stored(old(heap), heap, u, Udata(m, old(heap)[u].body.uenv))
    {
      UserWrote(heap, u, m);
      hide GcOk, FinOk, Wrote, Stored, FreedDead;
      StoreObject(u, Udata(m, heap[u].body.uenv), m);
    }

    /** A constant of a function being compiled. */
    method SetConstant(p: Ref, i: nat, v: Value)
      requires Valid() && Live(heap, currentWhite, p) && heap[p].body.Proto? && i < |heap[p].body.constants|
            && LiveValue(heap, currentWhite, v)
      modifies this`heap, this`gray
      ensures Valid() && FreedDead(old(heap), heap, currentWhite)
      ensures Stored(old(heap), heap, p, Proto(old(heap)[p].body.names, old(heap)[p].body.constants[i := v]))
    {
      ConstantWrote(heap, p, i, v);
      hide GcOk, FinOk, Wrote, Stored, FreedDead;
      StoreObject(p, Proto(heap[p].body.names, heap[p].body.constants[i := v]), v);
    }

    /** Assigns to an upvalue: to its own value if it is closed, and to the stack
        it points into if it is open. */
    method SetUpvalue(u: Ref, v: Value)
      requires Valid() && Live(heap, currentWhite, u) && (heap[u].body.ClosedUpval? || heap[u].body.OpenUpval?)
            && LiveValue(heap, currentWhite, v)
      modifies this`heap, this`gray
      ensures Valid() && FreedDead(old(heap), heap, currentWhite) && u in heap && UpvalueOf(heap, u) == v
    {
      hide GcOk, FinOk, FreedDead, StackFits;
      if heap[u].body.ClosedUpval? {
        ClosedWrote(heap, u, v);
        hide Wrote;
        StoreObject(u, ClosedUpval(v), v);
      } else {
        ghost var h0 := heap;
        var t, l := heap[u].body.thread, heap[u].body.level;
        SlotThere(strHash, Now(), u);
        SlotStackFits(strHash, Now(), u, v);
        SetStack(t, heap[t].body.stack[l := v]);
        FreedStack(h0, t, h0[t].body.stack[l := v], currentWhite);
      }
    }

    /** The globals of a thread. */
    method SetGlobals(t: Ref, v: Value)
      requires Valid() && t in heap && heap[t].body.Thread? && LiveValue(heap, currentWhite, v)
      modifies this`heap
      ensures Valid() && FreedDead(old(heap), heap, currentWhite)
      ensures Stored(old(heap), heap, t, Thread(v, old(heap)[t].body.stack, old(heap)[t].body.open))
    {
      hide GcOk, FinOk, CoreOk, PhaseOk, FreedDead;
      ghost var s := Now();
      GcCore(strHash, s);
      GlobalsWritten(strHash, s, t, v);
      FinKept(heap, heap[t := heap[t].(body := Thread(v, heap[t].body.stack, heap[t].body.open))], udata, tmudata,
            called, nextRef);
      GlobalsFreed(heap, t, v, currentWhite);
      heap := heap[t := heap[t].(body := Thread(v, heap[t].body.stack, heap[t].body.open))];
      CoreGc(strHash, Now());
    }

    /** A basic metatable; these are marked again at the end of each marking. */
    method SetBasicMeta(i: nat, v: Value)
      requires Valid() && i < |mt| && LiveValue(heap, currentWhite, v)
      modifies this`mt
      ensures Valid() && mt == old(mt)[i := v]
    {
      hide FinOk, PhaseOk;
      RootWritten(strHash, Now(), Now().(mt := mt[i := v]));
      hide GcOk;
      mt := mt[i := v];
    }

    /** Another thread runs. */
    method SetRunning(t: Ref)
      requires Valid() && Live(heap, currentWhite, t) && heap[t].body.Thread?
      modifies this`running
      ensures Valid() && running == t
    {
      hide FinOk, PhaseOk;
      RootWritten(strHash, Now(), Now().(running := t));
      hide GcOk;
      running := t;
    }

    // ----- The program: new objects -----

    /** Links a new object, of the present white, into the chain. */
    method NewObject(body: Body) returns (r: Ref)
      requires Valid() && InRoot(body) && (body.Thread? ==> body.open == [])
      requires forall x :: Refers(heap, body, x) ==> Live(heap, currentWhite, x)
      modifies this`heap, this`root, this`sweepPos, this`nextRef
      ensures Valid() && r == old(nextRef) && r !in old(heap)
            && heap == old(heap)[r := GCObject(White(currentWhite), false, false, false, body)]
    {
      hide GcOk, CoreOk, PhaseOk, FinOk, Structure, SameTail, Refers;
      r := nextRef;
      ghost var s := Now();
      var o := GCObject(White(currentWhite), false, false, false, body);
      GcCore(strHash, s);
      AddedFin(heap, udata, tmudata, called, r, o);
      NotListed(strHash, s, r);
      CoreParts(strHash, s);
      AddRoot(strHash, heap, s.ls, main, r, o);
      ghost var ls := Lists([r] + root, udata, strt, tmudata, uvhead);
      var pos := if sweepPos == 0 then 0 else sweepPos + 1;
      ShiftTail(s.ls, s.pos, ls, pos, r);
      AddedCore(strHash, s, r, o, ls, pos);
      AddedPhase(s, r, o, ls, pos);
      heap := heap[r := o];
      root := [r] + root;
      sweepPos := pos;
      nextRef := nextRef + 1;
      CoreGc(strHash, Now());
    }

    /** Userdata are linked after the main thread. */
    method NewUdata(env: Value) returns (r: Ref)
      requires Valid() && LiveValue(heap, currentWhite, env)
      modifies this`heap, this`udata, this`sweepPos, this`nextRef
      ensures Valid() && r == old(nextRef) && r !in old(heap)
      ensures heap == old(heap)[r := GCObject(White(currentWhite), false, false, false, Udata(Nil, env))]
    {
      hide GcOk, CoreOk, PhaseOk, FinOk, Structure, SameTail;
      r := nextRef;
      ghost var s := Now();
      var o := GCObject(White(currentWhite), false, false, false, Udata(Nil, env));
      GcCore(strHash, s);
      AddedFin(heap, udata, tmudata, called, r, o);
      NotListed(strHash, s, r);
      CoreParts(strHash, s);
      AddUdata(strHash, heap, s.ls, main, r, o);
      ghost var ls := Lists(root, [r] + udata, strt, tmudata, uvhead);
      var pos := if sweepPos <= |root| then sweepPos else sweepPos + 1;
      UdataFront(s.ls, s.pos, r);
      AddedCore(strHash, s, r, o, ls, pos);
      AddedPhase(s, r, o, ls, pos);
      heap := heap[r := o];
      udata := [r] + udata;
      sweepPos := pos;
      nextRef := nextRef + 1;
      CoreGc(strHash, Now());
    }

    /** The string with the given contents: the one there is, brought back if it
        was dead, or a new one. */
    method Intern(content: nat) returns (r: Ref)
      requires Valid()
      modifies this`heap, this`strt, this`nextRef
      ensures Valid() && Live(heap, currentWhite, r) && heap[r].body == Str(content)
      ensures (forall q :: q in old(heap) && old(heap)[q].body == Str(content) ==> r == q)
            && FreedDead(old(heap), heap, currentWhite) && Kept(old(heap), heap, r)
    {
      hide GcOk, CoreOk, PhaseOk, FinOk, FreedDead, Kept, SameBodies;
      var found;
      found, r := FindString(content);
      if found {
        Revive(r);
        KeptBodies(old(heap), heap, r);
      } else {
        r := NewString(content);
      }
    }

    method FindString(content: nat) returns (found: bool, r: Ref)
      requires Valid()
      ensures found ==>
          r in heap && heap[r].body == Str(content) && forall q :: q in heap && heap[q].body == Str(content) ==> q == r
      ensures !found ==> forall q :: q in heap ==> heap[q].body != Str(content)
    {
      hide GcOk, CoreOk, PhaseOk, FinOk;
      ghost var s := Now();
      GcCore(strHash, s);
      TableThere(strHash, s);
      var b := Bucket(strHash, |strt|, content);
      var j := 0;
      while j < |strt[b]|
        invariant 0 <= j <= |strt[b]| && forall i :: 0 <= i < j ==>
              strt[b][i] in heap && heap[strt[b][i]].body != Str(content)
      {
        r := strt[b][j];
        InBucket(strHash, s, b, j);
        if heap[r].body == Str(content) {
          OnlyOne(strHash, s, r);
          return true, r;
        }
        j := j + 1;
      }
      NotInterned(strHash, s, b, content);
      return false, 0;
    }

    /** Chains all strings anew; not while they are being swept. */
    method ResizeStrings(newsize: nat)
      requires Valid() && 0 < newsize
      modifies this`strt
      ensures Valid() && |strt| == if phase == SweepString then old(|strt|) else newsize
    {
      hide GcOk, FinOk, Rehashed, SeenStrings;
      if phase == SweepString { return; }
      var newhash := Rehash(newsize);
      assert |newhash| == newsize;
      SeenAll(strHash, Now(), newhash);
      strt := newhash;
    }

    method Rehash(newsize: nat) returns (newhash: seq<seq<Ref>>)
      requires Valid() && 0 < newsize
      ensures |newhash| == newsize && Rehashed(strHash, heap, newhash, SeenStrings(strt, |strt|, 0))
    {
      hide GcOk, FinOk, Rehashed, SeenStrings, StringsOk;
      StringsThere(strHash, Now());
      newhash := seq(newsize, i => []);
      NothingSeen(strHash, heap, newsize);
      NoneSeen(strt);
      var i := 0;
      while i < |strt|
        invariant 0 <= i <= |strt| && |newhash| == newsize && Rehashed(strHash, heap, newhash, SeenStrings(strt, i, 0))
      {
        var j := 0;
        while j < |strt[i]|
          invariant 0 <= j <= |strt[i]| && |newhash| == newsize
                && Rehashed(strHash, heap, newhash, SeenStrings(strt, i, j))
        {
          var r := strt[i][j];
          SeenNext(strHash, heap, strt, i, j);
          RehashOne(strHash, heap, newhash, SeenStrings(strt, i, j), r);
          var h1 := Bucket(strHash, newsize, heap[r].body.content);
          newhash := newhash[h1 := [r] + newhash[h1]];
          j := j + 1;
        }
        SeenBucket(strt, i);
        i := i + 1;
      }
    }

    method NewString(content: nat) returns (r: Ref)
      requires Valid() && forall q :: q in heap ==> heap[q].body != Str(content)
      modifies this`heap, this`strt, this`nextRef
      ensures Valid() && r !in old(heap) && Live(heap, currentWhite, r) && heap[r].body == Str(content)
            && FreedDead(old(heap), heap, currentWhite) && Kept(old(heap), heap, r)
    {
      hide GcOk, CoreOk, PhaseOk, FinOk, Structure, SameTail, FreedDead, Kept;
      r := nextRef;
      ghost var s := Now();
      var o := GCObject(White(currentWhite), false, false, false, Str(content));
      GcCore(strHash, s);
      AddedFin(heap, udata, tmudata, called, r, o);
      NotListed(strHash, s, r);
      CoreParts(strHash, s);
      AddString(strHash, heap, s.ls, main, r, o);
      var b := Bucket(strHash, |strt|, content);
      BucketFront(s.ls, s.pos, b, r);
      AddedCore(strHash, s, r, o, s.ls.(strt := strt[b := [r] + strt[b]]), s.pos);
      AddedPhase(s, r, o, s.ls.(strt := strt[b := [r] + strt[b]]), s.pos);
      AddedFreed(heap, r, o, currentWhite);
      UpvalThreads(strHash, s);
      KeptNew(heap, r, o);
      heap := heap[r := o];
      strt := strt[b := [r] + strt[b]];
      nextRef := nextRef + 1;
      assert Now() == s.(h := heap, ls := s.ls.(strt := strt));
      CoreGc(strHash, Now());
    }

    /** A string or open upvalue of the other white changes its white. */
    method Revive(r: Ref)
      requires Valid() && r in heap && forall x :: Refers(heap, heap[r].body, x) ==> Live(heap, currentWhite, x)
      modifies this`heap
      ensures Valid() && Live(heap, currentWhite, r) && SameBodies(old(heap), heap)
            && FreedDead(old(heap), heap, currentWhite)
    {
      hide GcOk, CoreOk, PhaseOk, FinOk, FreedDead;
      FreedRefl(heap, currentWhite);
      if heap[r].color == White(!currentWhite) {
        ghost var s := Now();
        GcCore(strHash, s);
        ReviveCore(strHash, s, r);
        RevivePhase(s, r);
        PaintedFin(heap, r, White(currentWhite), udata, tmudata, called, nextRef);
        RevivedFreed(heap, r, currentWhite);
        heap := Painted(heap, r, White(currentWhite));
        CoreGc(strHash, Now());
      }
    }

    /** The open upvalue of a stack slot: the one there is, brought back if it was
        dead, or a new one at its place in the list. */
    method FindUpval(t: Ref, level: nat) returns (u: Ref)
      requires Valid() && Live(heap, currentWhite, t) && heap[t].body.Thread? && level < |heap[t].body.stack|
      modifies this`heap, this`uvhead, this`nextRef
      ensures Valid() && Live(heap, currentWhite, u) && heap[u].body == OpenUpval(t, level)
            && FreedDead(old(heap), heap, currentWhite) && Kept(old(heap), heap, u)
      ensures forall q :: q in old(heap) && old(heap)[q].body == OpenUpval(t, level) ==> q == u
    {
      hide GcOk, CoreOk, PhaseOk, FinOk, FreedDead, OpenPlace, Kept, SameBodies;
      var found, j := FindPlace(t, level);
      if found {
        u := heap[t].body.open[j];
        GcCore(strHash, Now());
        SlotOfLive(strHash, Now(), t, u);
        Revive(u);
        KeptBodies(old(heap), heap, u);
      } else {
        u := NewUpval(t, level, j);
      }
    }

    method FindPlace(t: Ref, level: nat) returns (found: bool, j: nat)
      requires Valid() && t in heap && heap[t].body.Thread?
      ensures found ==> j < |heap[t].body.open| && heap[t].body.open[j] in heap
      ensures found ==> heap[heap[t].body.open[j]].body == OpenUpval(t, level)
      ensures found ==> forall q :: q in heap && heap[q].body == OpenUpval(t, level) ==> q == heap[t].body.open[j]
      ensures !found ==> OpenPlace(heap, heap[t].body.open, level, j) && forall q :: q in heap ==>
            heap[q].body != OpenUpval(t, level)
    {
      hide GcOk, CoreOk, PhaseOk, FinOk, OpenListOk, OpenPlace;
      ghost var s := Now();
      GcCore(strHash, s);
      var open := heap[t].body.open;
      j := 0;
      if j < |open| { OpenThere(strHash, s, t, j); }
      while j < |open| && heap[open[j]].body.level > level
        invariant 0 <= j <= |open| && forall i :: 0 <= i < j ==> level < Level(heap, open[i])
        invariant j < |open| ==> open[j] in heap && heap[open[j]].body.OpenUpval? && heap[open[j]].body.thread == t
      {
        j := j + 1;
        if j < |open| { OpenThere(strHash, s, t, j); }
      }
      SearchEnd(strHash, s, t, level, j);
      found := j < |open| && heap[open[j]].body.level == level;
    }

    method NewUpval(t: Ref, level: nat, j: nat) returns (u: Ref)
      requires Valid() && Live(heap, currentWhite, t) && heap[t].body.Thread? && level < |heap[t].body.stack|
      requires OpenPlace(heap, heap[t].body.open, level, j)
      modifies this`heap, this`uvhead, this`nextRef
      ensures Valid() && u !in old(heap) && Live(heap, currentWhite, u) && heap[u].body == OpenUpval(t, level)
            && FreedDead(old(heap), heap, currentWhite) && Kept(old(heap), heap, u)
    {
      hide GcOk, CoreOk, PhaseOk, FinOk, FreedDead, OpenPlace, Kept;
      u := nextRef;
      ghost var s := Now();
      var o := GCObject(White(currentWhite), false, false, false, OpenUpval(t, level));
      PlaceIn(heap, heap[t].body.open, level, j);
      GcCore(strHash, s);
      AddedFin(heap, udata, tmudata, called, u, o);
      NotListed(strHash, s, u);
      UpvalCore(strHash, s, t, u, o, j);
      UpvalPhase(s, t, u, o, j);
      UpvalMarks(heap, t, u, o, j);
      UpvalFreed(heap, t, u, o, j, currentWhite, udata, tmudata, called, nextRef + 1);
      UpvalThreads(strHash, s);
      KeptUpval(heap, t, u, o, j);
      heap := WithUpval(heap, t, u, o, j);
      uvhead := [u] + uvhead;
      nextRef := nextRef + 1;
      assert Now() == s.(h := heap, ls := s.ls.(upvals := uvhead));
      CoreGc(strHash, Now());
    }

    /** OP_CLOSURE in a frame of thread t: the closure holds its environment and prototype (own)
        and then its upvalues, which are among those of the enclosing closure (ups) or the open
        upvalues of registers. */
    method MakeClosure(t: Ref, frame: nat, own: seq<Value>, ups: seq<Value>, caps: seq<Capture>) returns (c: Ref)
      requires Valid() && Live(heap, currentWhite, t) && heap[t].body.Thread?
      requires forall v :: v in own + ups ==> LiveValue(heap, currentWhite, v)
      requires forall j :: 0 <= j < |caps| ==> Fitting(heap, t, frame, ups, caps[j])
      modifies this`heap, this`uvhead, this`root, this`sweepPos, this`gray, this`nextRef
      ensures Valid() && c !in old(heap) && Live(heap, currentWhite, c) && heap[c].body.Closure?
      ensures |own| <= |heap[c].body.held| && heap[c].body.held[..|own|] == own
      ensures AllCaptured(heap, t, frame, ups, caps, heap[c].body.held[|own|..])
      ensures Preserved(old(heap), heap) && FreedDead(old(heap), heap, currentWhite)
    {
      hide GcOk, FinOk, FreedDead, Preserved, AllCaptured, Fitting;
      ghost var h0 := heap;
      c := NewClosure(t, frame, own, ups, caps);
      var j := 0;
      while j < |caps|
        invariant 0 <= j <= |caps| && Valid() && SoFar(h0, heap, currentWhite, t, frame, own, ups, caps, c, j)
      {
        CaptureOne(t, frame, own, ups, caps, c, j, h0);
        j := j + 1;
      }
      Finished(h0, heap, currentWhite, t, frame, own, ups, caps, c);
    }

    method NewClosure(t: Ref, frame: nat, own: seq<Value>, ups: seq<Value>, caps: seq<Capture>) returns (c: Ref)
      requires Valid() && Live(heap, currentWhite, t) && heap[t].body.Thread?
      requires forall v :: v in own + ups ==> LiveValue(heap, currentWhite, v)
      requires forall j :: 0 <= j < |caps| ==> Fitting(heap, t, frame, ups, caps[j])
      modifies this`heap, this`root, this`sweepPos, this`nextRef
      ensures Valid() && SoFar(old(heap), heap, currentWhite, t, frame, own, ups, caps, c, 0)
    {
      hide GcOk, FinOk, FreedDead, SoFar, Fitting, CoreOk;
      ghost var h0 := heap;
      GcCore(strHash, Now());
      UpvalThreads(strHash, Now());
      var held := own + seq(|caps|, i => Nil);
      OwnLive(heap, currentWhite, own, ups, held);
      c := NewObject(Closure(held));
      AddedFreed(h0, c, heap[c], currentWhite);
      StartSoFar(h0, currentWhite, t, frame, own, ups, caps, c, heap[c]);
    }

    method CaptureOne(t: Ref, frame: nat, own: seq<Value>, ups: seq<Value>, caps: seq<Capture>, c: Ref, j: nat,
          ghost h0: Heap)
      requires Valid() && j < |caps| && SoFar(h0, heap, currentWhite, t, frame, own, ups, caps, c, j)
      modifies this`heap, this`uvhead, this`gray, this`nextRef
      ensures Valid() && SoFar(h0, heap, currentWhite, t, frame, own, ups, caps, c, j + 1)
    {
      hide GcOk, FinOk, FreedDead, Preserved, Stored, AllCaptured, Kept;
      var v;
      if caps[j].FromEnclosing? {
        v := ups[caps[j].i];
        assert v in own + ups;
      } else {
        ghost var h1 := heap;
        assert Fitting(heap, t, frame, ups, caps[j]);
        var u := FindUpval(t, frame + caps[j].l);
        KeptSoFar(h0, h1, heap, currentWhite, u, t, frame, own, ups, caps, c, j);
        v := Ptr(u);
      }
      assert Fitting(heap, t, frame, ups, caps[j]);
      ghost var h2 := heap;
      SetHeld(c, |own| + j, v);
      StoredSoFar(h0, h2, heap, currentWhite, t, frame, own, ups, caps, c, j, v);
    }
  }
}
