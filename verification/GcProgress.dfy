/** Every step of the collector brings a collection nearer to its end. */
module GcProgress {
  import opened GcHeap
  import opened GcLists
  import opened GcInvariant
  import opened GcMarking
  import opened GcGrowth
  import opened GcAtomic
  import opened GcFacts
  import opened GcHeld
  import opened GcContents

  /** The phase after a phase. */
  function Next(p: Phase): Phase {
    match p
    case Pause => Propagate
    case Propagate => SweepString
    case SweepString => Sweep
    case Sweep => Finalize
    case Finalize => Pause
  }

  /** How many phases there are before the pause. */
  function Rank(p: Phase): nat {
    match p
    case Pause => 0
    case Propagate => 4
    case SweepString => 3
    case Sweep => 2
    case Finalize => 1
  }

  /** What the phase has still to do. A sweep may have to free threads, whose open upvalues
      then join the chain. */
  function Work(s: State): int {
    match s.phase
    case Pause => 0
    case Propagate => |Whites(s.h)| + |s.gl.gray|
    case SweepString => |s.ls.strt| - s.strPos
    case Sweep => ToSweep(s.ls, s.pos)
    case Finalize => |s.ls.tmu|
  }

  function ToSweep(ls: Lists, pos: nat): int {
    |ls.root| + |ls.udata| - pos + |ls.upvals|
  }

  /** A step went on in its phase with less to do, or to the next phase. */
  predicate Nearer(s0: State, s1: State) {
    s1.phase == Next(s0.phase) || (s1.phase == s0.phase && s0.phase != Pause && Work(s1) < Work(s0))
  }

  lemma WorkNat(strHash: nat -> nat, s: State)
    requires GcOk(strHash, s)
    ensures Work(s) >= 0
  {
    hide Structure, LevelsOk, LiveClosed, RootsLive, ColorsOk, AllWhite, TmuLive, MarkingOk;
  }

  lemma SweepBound(strHash: nat -> nat, s: State)
    requires GcOk(strHash, s) && s.phase == Sweep
    ensures s.pos <= |s.ls.root| + |s.ls.udata|
  {
    hide Structure, LevelsOk, LiveClosed, RootsLive, ColorsOk, AllWhite, TmuLive;
  }

  lemma {:induction false} NoDupSize(s: seq<Ref>)
    requires NoDup(s)
    ensures |ToSet(s)| == |s|
    decreases |s|
  {
    if s != [] {
      var t := s[..|s| - 1];
      NoDupSize(t);
      forall i | 0 <= i < |t| ensures t[i] != s[|s| - 1] { assert s[i] != s[|s| - 1]; }
      assert ToSet(s) == ToSet(t) + {s[|s| - 1]};
    } else {
      assert ToSet(s) == {};
    }
  }

  /** What is newly gray was white. */
  lemma AdvanceLess(h: Heap, g: seq<Ref>, k: Heap, g': seq<Ref>)
    requires Advance(h, g, k, g', {})
    ensures |Whites(k)| + |g'| <= |Whites(h)| + |g|
  {
    hide MarkedWell;
    var more := g'[..|g'| - |g|];
    NoDupSize(more);
    WhitesShrink(h, k);
    assert forall r :: r in more ==> NewlyMarked(h, k, r);
    assert ToSet(more) + Whites(k) <= Whites(h);
    assert ToSet(more) !! Whites(k);
    assert |ToSet(more) + Whites(k)| == |more| + |Whites(k)|;
    Smaller(ToSet(more) + Whites(k), Whites(h));
  }

  lemma Smaller(a: set<Ref>, b: set<Ref>)
    requires a <= b
    ensures |a| <= |b|
  {
    assert b == a + (b - a);
  }

  lemma PropagatedLess(h: Heap, gl: GrayLists, k: Heap, gl': GrayLists, o: Ref)
    requires Propagated(h, gl, k, gl', o) && Listed(h, gl)
    ensures |Whites(k)| + |gl'.gray| < |Whites(h)| + |gl.gray|
  {
    hide Advance, Clean, StrongClean, NoDup;
    assert AllGray(gl)[0] == o && h[o].color.Gray?;
    var h1 := h[o := k[o]];
    assert Whites(h1) == Whites(h);
    AdvanceLess(h1, gl.gray[1..], k, gl'.gray);
  }

  // ----- What a whole collection keeps -----

  /** What a step keeps on the way from the start of a marking to the pause. */
  ghost predicate Keeps(modeOf: Body -> (bool, bool), s0: State, s1: State) {
    if s1.phase == Propagate then Grown(s0.h, s1.h) && s1.ls.tmu == s0.ls.tmu
    else if s0.phase == Propagate then
      (forall r :: Held(modeOf, s0, r) ==> Live(s1.h, s1.cw, r)) && ContentsLeft(modeOf, s0, s1.h)
    else (forall r :: Live(s0.h, s0.cw, r) ==> Live(s1.h, s1.cw, r)) && OnlyPushed(s0, s1.h)
  }

  /** What was held at the start s0 of a marking is held, or after the marking live. */
  ghost predicate KeptSince(modeOf: Body -> (bool, bool), s0: State, s: State) {
    && SameRoots(s0, s)
    && if s.phase == Propagate then Grown(s0.h, s.h) && s.ls.tmu == s0.ls.tmu
       else (forall r :: Held(modeOf, s0, r) ==> Live(s.h, s.cw, r)) && ContentsLeft(modeOf, s0, s.h)
  }

  lemma KeptOn(modeOf: Body -> (bool, bool), s0: State, s: State, t: State)
    requires KeptSince(modeOf, s0, s) && Keeps(modeOf, s, t) && SameRoots(s, t)
          && (t.phase == Propagate ==> s.phase == Propagate)
    ensures KeptSince(modeOf, s0, t)
  {
    hide Held, Live, ContentsLeft, OnlyPushed;
    if t.phase == Propagate {
      GrownTrans(s0.h, s.h, t.h);
    } else if s.phase != Propagate {
      LeftThen(modeOf, s0, s, t.h);
    } else {
      GrownOnward(s0.h, s.h);
      hide Onward, Grown;
      LeftOnward(modeOf, s0, s, t.h);
      forall r | Held(modeOf, s0, r) ensures Live(t.h, t.cw, r) { HeldOnward(modeOf, s0, s, r); }
    }
  }

  lemma KeptStart(modeOf: Body -> (bool, bool), s0: State, s: State)
    requires Grown(s0.h, s.h) && s.ls.tmu == s0.ls.tmu && SameRoots(s0, s) && s.phase == Propagate
    ensures KeptSince(modeOf, s0, s)
  {
  }

  lemma KeptThere(modeOf: Body -> (bool, bool), s0: State, s: State)
    requires KeptSince(modeOf, s0, s) && s.phase == Pause
    ensures (forall r :: Held(modeOf, s0, r) ==> r in s.h) && ContentsLeft(modeOf, s0, s.h)
  {
    hide Held, ContentsLeft;
  }

  lemma MarkingKeeps(modeOf: Body -> (bool, bool), s: State, t: State)
    requires Grown(s.h, t.h) && t.ls.tmu == s.ls.tmu && t.phase == Propagate
    ensures Keeps(modeOf, s, t)
  {
  }

  /** The end of the marking keeps what is held. */
  lemma AtomicKeeps(modeOf: Body -> (bool, bool), s: State, before: Heap, t: State, weak: seq<Ref>)
    requires s.phase == Propagate && t.phase != Propagate && t.cw == !s.cw
    requires Ended(modeOf, s, before, t.h, weak)
    ensures Keeps(modeOf, s, t)
  {
    AtomicLeaves(modeOf, s, before, t.h, weak);
    hide Onward, KeepsHeld, TablesCleared, Held, ContentsLeft, BitsHeld, ModeBits;
    forall r | Held(modeOf, s, r) ensures Live(t.h, t.cw, r) {
      HeldMarkedThen(modeOf, s, before, r);
      ClearedMarked(before, t.h, weak, r);
    }
  }

  lemma ClearedMarked(h: Heap, k: Heap, weak: seq<Ref>, r: Ref)
    requires TablesCleared(h, k, weak) && Marked(h, r)
    ensures Marked(k, r)
  {
  }

  lemma SweepKeeps(modeOf: Body -> (bool, bool), s: State, t: State)
    requires s.phase != Propagate && t.phase != Propagate && t.cw == s.cw && Swept(s.h, t.h, s.cw)
    ensures Keeps(modeOf, s, t)
  {
    SweptPushed(s, t.h);
    hide OnlyPushed, Unrevived, Contents;
  }

  lemma FinalizeKeeps(strHash: nat -> nat, modeOf: Body -> (bool, bool), s: State, t: State)
    requires s.phase == Finalize && (t.phase == Finalize || t.phase == Pause) && t.h.Keys == s.h.Keys
          && GcOk(strHash, t) && OnlyPushed(s, t.h)
    ensures Keeps(modeOf, s, t)
  {
    hide OnlyPushed, PhaseOk, Structure, LevelsOk, LiveClosed, RootsLive, ColorsOk;
    forall r | Live(s.h, s.cw, r) ensures Live(t.h, t.cw, r) { NoneDead(t, r); }
  }

  lemma PropagatedOnward(h: Heap, gl: GrayLists, k: Heap, gl': GrayLists, o: Ref)
    requires Propagated(h, gl, k, gl', o) && Listed(h, gl)
    ensures Onward(h, k) && Grown(h, k)
  {
    assert AllGray(gl)[0] == o && h[o].color.Gray?;
    PropagatedGrown(h, gl, k, gl', o);
    hide Clean, StrongClean, MarkedWell, NoDup;
    assert Extends(h[o := k[o]], k);
    forall r | r in h
      ensures r in k && k[r].body == h[r].body && k[r].fixed == h[r].fixed && (Marked(h, r) ==> Marked(k, r))
    {
      assert r in h[o := k[o]];
    }
    assert k.Keys == h.Keys;
  }

  lemma NoneWaiting(strHash: nat -> nat, s: State)
    requires GcOk(strHash, s) && s.phase == Pause
    ensures s.ls.tmu == []
  {
    hide Structure, LevelsOk, LiveClosed, RootsLive, ColorsOk, AllWhite;
  }
}
