/** Why the program's writes, with their barriers, keep the invariant. */
module GcMutation {
  import opened GcHeap
  import opened GcLists
  import opened GcRemovals
  import opened GcInvariant
  import opened GcMarking
  import opened GcGrowth
  import opened GcSweeping

  /** Marking leaves what does not depend on the phase. */
  lemma GrownCore(strHash: nat -> nat, s: State, k: Heap)
    requires CoreOk(strHash, s) && Grown(s.h, k) && NoneOther(s.h, s.cw) && ColorsOk(k)
    ensures CoreOk(strHash, s.(h := k)) && NoneOther(k, s.cw)
  {
    hide Structure, Refers, ColorsOk, LevelsOk;
    GrownFrames(s.h, k);
    FramesStructure(strHash, s.h, k, s.ls, s.main);
    forall r, x | Live(k, s.cw, r) && Refers(k, k[r].body, x) ensures Live(k, s.cw, x) {
      GrownRefers(s.h, k, r, x);
      assert Live(s.h, s.cw, r) && Live(s.h, s.cw, x);
    }
    assert forall x :: Live(s.h, s.cw, x) ==> Live(k, s.cw, x);
  }

  lemma AllLiveNoDangling(h: Heap, cw: bool)
    requires LiveClosed(h, cw) && NoneOther(h, cw)
    ensures NoDangling(h)
  {
    hide Refers;
    forall r, x | r in h && Refers(h, h[r].body, x) ensures x in h { assert Live(h, cw, r) && Live(h, cw, x); }
  }

  /** A marking in which only object o may refer to white objects, the values v
      and w. */
  ghost predicate MarkingBut(s: State, o: Ref, v: Value, w: Value) {
    && NoneOther(s.h, s.cw) && Listed(s.h, s.gl) && Covered(s.h, Pending(s.ls, s.gl) + {o}, {})
    && Marked(s.h, s.main) && MarkedValue(s.h, s.registry) && o in s.h
    && (Marked(s.h, o) && o !in Pending(s.ls, s.gl) ==>
          forall x :: Refers(s.h, s.h[o].body, x) ==> Marked(s.h, x) || Ptr(x) == v || Ptr(x) == w)
  }

  /** The forward barrier marks the value. */
  lemma ForwardDone(strHash: nat -> nat, s: State, o: Ref, v: Value, k: Heap, g': seq<Ref>)
    requires CoreOk(strHash, s) && MarkingBut(s, o, v, Nil) && Marked(s.h, o) && Advance(s.h, s.gl.gray, k, g', {})
          && MarkedValue(k, v)
    ensures CoreOk(strHash, s.(h := k, gl := s.gl.(gray := g'))) && MarkingOk(s.(h := k, gl := s.gl.(gray := g')))
  {
    hide Refers, Structure, LevelsOk, Listed, Covered;
    var gl' := s.gl.(gray := g');
    AllLiveNoDangling(s.h, s.cw);
    AdvanceColors(s.h, s.gl.gray, k, g');
    AdvanceGrown(s.h, s.gl.gray, k, g');
    GrownCore(strHash, s, k);
    AdvanceListed(s.h, s.gl, k, g');
    if o !in Pending(s.ls, s.gl) {
      forall x | Refers(k, k[o].body, x) ensures Marked(k, x) { GrownRefers(s.h, k, o, x); }
      assert Clean(k, o);
    }
    hide MarkingBut, CoreOk;
    ForwardCovered(s, o, k, g');
    RootsStay(s, o, v, Nil, k, g');
  }

  lemma RootsStay(s: State, o: Ref, v: Value, w: Value, k: Heap, g': seq<Ref>)
    requires MarkingBut(s, o, v, w) && Advance(s.h, s.gl.gray, k, g', {})
    ensures Marked(k, s.main) && MarkedValue(k, s.registry)
  {
  }

  lemma MarkingButListed(s: State, o: Ref, v: Value, w: Value)
    requires MarkingBut(s, o, v, w)
    ensures Listed(s.h, s.gl)
  {
  }

  lemma GrayStays(h: Heap, g: seq<Ref>, k: Heap, g': seq<Ref>, xs: set<Ref>, o: Ref)
    requires Advance(h, g, k, g', xs) && o in g
    ensures o in g'
  {
    assert o in g'[|g'| - |g|..];
  }

  lemma ForwardCovered(s: State, o: Ref, k: Heap, g': seq<Ref>)
    requires Covered(s.h, Pending(s.ls, s.gl) + {o}, {}) && Advance(s.h, s.gl.gray, k, g', {}) && o in k
    requires Clean(k, o) || o in Pending(s.ls, s.gl)
    ensures Covered(k, Pending(s.ls, s.gl.(gray := g')), {})
  {
    hide Clean, Refers, Advance;
    var rest := ToSet(s.gl.again) + ToSet(s.gl.weak) + ToSet(s.ls.tmu) + ToSet(s.ls.upvals) + {o};
    assert Pending(s.ls, s.gl) + {o} == rest + ToSet(s.gl.gray);
    AdvanceCovered(s.h, s.gl.gray, k, g', rest, {});
    assert rest + ToSet(g') == Pending(s.ls, s.gl.(gray := g')) + {o};
    if o in s.gl.gray { GrayStays(s.h, s.gl.gray, k, g', {}, o); }
  }

  /** There is nothing for the barrier to do. */
  lemma NoBarrier(s: State, o: Ref, v: Value, w: Value)
    requires MarkingBut(s, o, v, w)
          && (!Marked(s.h, o) || (MarkedValue(s.h, v) && MarkedValue(s.h, w)) || o in Pending(s.ls, s.gl))
    ensures MarkingOk(s)
  {
    hide Refers, Listed;
    assert Marked(s.h, o) && MarkedValue(s.h, v) && MarkedValue(s.h, w) && o !in Pending(s.ls, s.gl) ==> Clean(s.h, o);
  }

  /** A gray object is still to be looked at. */
  lemma GrayPending(strHash: nat -> nat, s: State, o: Ref)
    requires CoreOk(strHash, s) && Listed(s.h, s.gl) && o in s.h && s.h[o].color.Gray? && !s.h[o].body.Str?
          && !s.h[o].body.OpenUpval?
    ensures o in Pending(s.ls, s.gl)
  {
    hide Structure, LiveClosed, RootsLive, LevelsOk, AllGray;
  }

  lemma PhaseMarking(s: State)
    requires s.phase == Propagate
    ensures PhaseOk(s) <==> MarkingOk(s)
  {
    hide MarkingOk;
  }

  /** In a sweep, the object written to goes back to white. */
  lemma WhitenPhase(s: State, o: Ref)
    requires PhaseOk(s) && s.phase != Propagate && o in s.h
    ensures PhaseOk(s.(h := Painted(s.h, o, White(s.cw))))
  {
    var k := Painted(s.h, o, White(s.cw));
    var s' := s.(h := k);
    assert Todo(s') == Todo(s) by {
      forall x | x in s.h ensures Unswept(k, s.ls, s.strPos, s.pos, x) == Unswept(s.h, s.ls, s.strPos, s.pos, x) { }
      hide Unswept;
    }
    hide Todo;
  }

  // ----- Closing an upvalue during a marking -----

  lemma ClosedMarks(h: Heap, t: Ref, u: Ref, c: Color)
    requires t in h && h[t].body.Thread? && h[t].body.open != [] && u in h && h[u].body.OpenUpval? && u != t
    ensures var k := Closed(h, t, u, c);
            && k.Keys == h.Keys
                  && (forall x :: x in h && x != u ==> k[x].color == h[x].color && k[x].fixed == h[x].fixed)
            && k[u].color == c && (forall x :: x in h && x != u && x != t ==> k[x] == h[x])
            && k[t].body.Thread? && k[u].body.ClosedUpval? && k[u].body.value == SlotValue(h, t, h[u].body.level)
  {
  }

  lemma ClosedListed(h: Heap, t: Ref, u: Ref, c: Color, gl: GrayLists)
    requires t in h && h[t].body.Thread? && h[t].body.open != [] && u in h && h[u].body.OpenUpval? && u != t
          && Listed(h, gl)
    ensures Listed(Closed(h, t, u, c), gl)
  {
    ClosedMarks(h, t, u, c);
    assert forall r :: r in gl.again || r in gl.weak ==> r in AllGray(gl);
    hide Closed, AllGray;
  }

  lemma ClosedCovered(h: Heap, t: Ref, u: Ref, c: Color, p: set<Ref>)
    requires t in h && h[t].body.Thread? && h[t].body.open != [] && u in h && h[u].body.OpenUpval? && u != t
    requires h[u].body.thread == t && Covered(h, p, {}) && c.White? == h[u].color.White?
    ensures Covered(Closed(h, t, u, c), p + {u}, {})
  {
    var k := Closed(h, t, u, c);
    ClosedMarks(h, t, u, c);
    hide Closed, Refers;
    forall r | Marked(k, r) && r !in p + {u} ensures Clean(k, r) {
      assert Marked(h, r) && Clean(h, r);
      forall x | Refers(k, k[r].body, x) ensures Marked(k, x) { ClosedSame(h, t, u, c, r, x); }
    }
  }

  lemma ClosedMarking(s: State, t: Ref, u: Ref, c: Color, ls: Lists)
    requires t in s.h && s.h[t].body.Thread? && s.h[t].body.open != [] && u in s.h && s.h[u].body.OpenUpval? && u != t
    requires s.h[u].body.thread == t && MarkingOk(s) && c.White? == s.h[u].color.White? && c != White(!s.cw)
    requires ls.tmu == s.ls.tmu && forall x :: x in s.ls.upvals ==> x == u || x in ls.upvals
    ensures MarkingBut(s.(h := Closed(s.h, t, u, c), ls := ls), u, SlotValue(s.h, t, s.h[u].body.level), Nil)
  {
    var k := Closed(s.h, t, u, c);
    hide Covered, Listed;
    ClosedMarks(s.h, t, u, c);
    ClosedListed(s.h, t, u, c, s.gl);
    ClosedCovered(s.h, t, u, c, Pending(s.ls, s.gl));
    CoveredMono(k, Pending(s.ls, s.gl) + {u}, {}, Pending(ls, s.gl) + {u}, {});
    hide Closed;
    if s.registry.Ptr? && s.registry.r == u { assert Marked(k, u); }
  }

  /** Closing an upvalue in the other phases. */
  lemma ClosedPhase(strHash: nat -> nat, s: State, t: Ref, u: Ref, c: Color, ls: Lists, pos: nat)
    requires CoreOk(strHash, s) && PhaseOk(s) && s.phase != Propagate && c == White(s.cw)
    requires t in s.h && s.h[t].body.Thread? && s.h[t].body.open != [] && u in s.h && s.h[u].body.OpenUpval? && u != t
          && u in s.ls.upvals
    requires ls.tmu == s.ls.tmu && ls.root == [u] + s.ls.root && ls.udata == s.ls.udata && ls.strt == s.ls.strt
    requires pos == if s.pos == 0 then 0 else s.pos + 1
    ensures PhaseOk(s.(h := Closed(s.h, t, u, c), ls := ls, pos := pos))
  {
    hide CoreOk, Closed, Todo, MarkingOk, AllWhite, TmuLive, SweepRest, Live;
    if s.phase == SweepString || s.phase == Sweep {
      RestAllWhite(s);
      RestAllWhite(s.(h := Closed(s.h, t, u, c), ls := ls, pos := pos));
      ClosedRest(strHash, s, t, u, c, ls, pos);
    } else {
      ClosedWhite(s.h, s.cw, t, u, c, s.ls.tmu);
    }
  }

  lemma ClosedWhite(h: Heap, cw: bool, t: Ref, u: Ref, c: Color, tmu: seq<Ref>)
    requires t in h && h[t].body.Thread? && h[t].body.open != [] && u in h && h[u].body.OpenUpval? && u != t
          && c == White(cw)
    ensures AllWhite(h, cw, {}) ==> AllWhite(Closed(h, t, u, c), cw, {})
    ensures AllWhite(h, cw, ToSet(tmu)) ==> AllWhite(Closed(h, t, u, c), cw, ToSet(tmu))
    ensures TmuLive(h, cw, tmu) ==> TmuLive(Closed(h, t, u, c), cw, tmu)
  {
    ClosedMarks(h, t, u, c);
    hide Closed;
  }

  lemma ClosedRest(strHash: nat -> nat, s: State, t: Ref, u: Ref, c: Color, ls: Lists, pos: nat)
    requires CoreOk(strHash, s) && SweepRest(s) && c == White(s.cw)
    requires t in s.h && s.h[t].body.Thread? && s.h[t].body.open != [] && u in s.h && s.h[u].body.OpenUpval? && u != t
          && u in s.ls.upvals
    requires ls.tmu == s.ls.tmu && ls.root == [u] + s.ls.root && ls.udata == s.ls.udata && ls.strt == s.ls.strt
    requires pos == if s.pos == 0 then 0 else s.pos + 1
    ensures SweepRest(s.(h := Closed(s.h, t, u, c), ls := ls, pos := pos))
  {
    var k := Closed(s.h, t, u, c);
    ClosedMarks(s.h, t, u, c);
    UpvalKind(strHash, s, u);
    ShiftTail(s.ls, s.pos, ls, pos, u);
    TmuThere(s);
    hide CoreOk, Closed, SweepRest, SameTail;
    RestKept(s, k, ls, pos, u);
  }

  lemma ShiftTail(a: Lists, posA: nat, b: Lists, posB: nat, u: Ref)
    requires b.tmu == a.tmu && b.root == [u] + a.root && b.udata == a.udata && b.strt == a.strt
          && posB == if posA == 0 then 0 else posA + 1
    ensures SameTail(a, posA, b, posB, u)
  {
    assert b.root + b.udata == [u] + (a.root + a.udata);
    if posA <= |a.root + a.udata| {
      if posA == 0 {
        assert (b.root + b.udata)[0..] == [u] + (a.root + a.udata);
        assert (a.root + a.udata)[0..] == a.root + a.udata;
      } else {
        assert (b.root + b.udata)[posB..] == (a.root + a.udata)[posA..];
      }
    }
  }

  // ----- Writes -----

  lemma WroteCore(strHash: nat -> nat, s: State, k: Heap, o: Ref, v: Value, w: Value)
    requires CoreOk(strHash, s) && Wrote(s.h, k, o, v, w) && LiveValue(s.h, s.cw, v) && LiveValue(s.h, s.cw, w)
    ensures CoreOk(strHash, s.(h := k)) && SameColors(s.h, k)
  {
    hide Structure, Refers, LiveClosed, RootsLive, ColorsOk, Frame, SameFrames, LevelsOk;
    WroteFrames(s.h, k, o, v, w);
    FramesStructure(strHash, s.h, k, s.ls, s.main);
    WroteLive(s.h, k, s.cw, o, v, w);
    SameColorsOk(s.h, k);
    WroteRoots(s, k, o, v, w);
  }

  lemma WroteRoots(s: State, k: Heap, o: Ref, v: Value, w: Value)
    requires RootsLive(s) && Wrote(s.h, k, o, v, w)
    ensures RootsLive(s.(h := k))
  {
    hide Refers;
    FrameKinds(k[o].body, s.h[o].body);
    assert forall x :: Live(s.h, s.cw, x) ==> Live(k, s.cw, x);
  }

  /** Between the write and the barrier. */
  lemma WroteMarking(s: State, k: Heap, o: Ref, v: Value, w: Value)
    requires MarkingOk(s) && Wrote(s.h, k, o, v, w) && SameColors(s.h, k)
    ensures MarkingBut(s.(h := k), o, v, w)
  {
    hide Refers, Listed, Frame;
    WroteCovered(s.h, k, o, v, w, Pending(s.ls, s.gl));
    SameColorsListed(s.h, k, s.gl);
    if Marked(k, o) && o !in Pending(s.ls, s.gl) {
      assert Marked(s.h, o) && Clean(s.h, o);
      forall x | Refers(k, k[o].body, x) ensures Marked(k, x) || Ptr(x) == v || Ptr(x) == w {
        assert Refers(s.h, s.h[o].body, x) ==> Marked(s.h, x);
      }
    }
  }

  lemma WrotePhase(s: State, k: Heap, o: Ref, v: Value, w: Value)
    requires PhaseOk(s) && s.phase != Propagate && SameColors(s.h, k)
    ensures PhaseOk(s.(h := k))
  {
    SameColorsPhase(s, k);
  }

  // ----- The backward barrier -----

  lemma BackCore(strHash: nat -> nat, s: State, t: Ref, gl: GrayLists)
    requires CoreOk(strHash, s) && t in s.h && s.h[t].body.Table? && s.h[t].color.Black?
    ensures CoreOk(strHash, s.(h := Painted(s.h, t, Gray), gl := gl))
  {
    hide Structure, Refers, Frame;
    var k := Painted(s.h, t, Gray);
    assert Recolored(s.h, k);
    RecoloredFrames(s.h, k);
    FramesStructure(strHash, s.h, k, s.ls, s.main);
    forall q, x | Live(k, s.cw, q) && Refers(k, k[q].body, x) ensures Live(k, s.cw, x) {
      RecoloredRefers(s.h, k, k[q].body, x);
      assert Live(s.h, s.cw, q) && Live(s.h, s.cw, x);
    }
    hide LiveClosed, SameFrames, LevelsOk;
    assert forall x :: Live(s.h, s.cw, x) ==> Live(k, s.cw, x);
  }

  lemma BackMarking(s: State, t: Ref, v: Value, w: Value)
    requires MarkingBut(s, t, v, w) && s.h[t].body.Table? && s.h[t].color.Black?
    ensures MarkingOk(s.(h := Painted(s.h, t, Gray), gl := s.gl.(again := [t] + s.gl.again)))
  {
    hide Refers, Clean, Listed, Covered;
    var k, gl := Painted(s.h, t, Gray), s.gl.(again := [t] + s.gl.again);
    BackListed(s.h, s.gl, t);
    BackCovered(s.h, Pending(s.ls, s.gl) + {t}, t);
    assert Pending(s.ls, gl) == Pending(s.ls, s.gl) + {t};
  }

  lemma BackListed(h: Heap, gl: GrayLists, t: Ref)
    requires Listed(h, gl) && t in h && h[t].body.Table? && h[t].color.Black?
    ensures Listed(Painted(h, t, Gray), gl.(again := [t] + gl.again))
  {
    var gl' := gl.(again := [t] + gl.again);
    assert AllGray(gl') == gl.gray + ([t] + gl.again) + gl.weak;
    assert t !in AllGray(gl);
    InsertNoDup(gl.gray, gl.again, gl.weak, t);
    assert forall r :: r in AllGray(gl') <==> r == t || r in AllGray(gl);
    assert forall r :: r in gl.again || r in gl.weak ==> r in AllGray(gl);
    hide AllGray;
  }

  lemma BackCovered(h: Heap, p: set<Ref>, t: Ref)
    requires Covered(h, p, {}) && Marked(h, t)
    ensures Covered(Painted(h, t, Gray), p, {})
  {
    hide Refers;
    var k := Painted(h, t, Gray);
    forall r | Marked(k, r) && r !in p ensures Clean(k, r) {
      assert Marked(h, r) && Clean(h, r);
      forall x | Refers(k, k[r].body, x) ensures Marked(k, x) { PaintedRefers(h, t, Gray, k[r].body, x); }
    }
  }

  lemma BackPhase(s: State, t: Ref, gl: GrayLists)
    requires PhaseOk(s) && (s.phase == SweepString || s.phase == Sweep) && t in s.h && s.h[t].body.Table?
          && s.h[t].color.Black?
    requires forall x :: x in s.ls.tmu ==> x != t
    ensures PhaseOk(s.(h := Painted(s.h, t, Gray), gl := gl))
  {
    var k := Painted(s.h, t, Gray);
    var s' := s.(h := k, gl := gl);
    assert Todo(s') == Todo(s) by {
      forall x | x in s.h ensures Unswept(k, s.ls, s.strPos, s.pos, x) == Unswept(s.h, s.ls, s.strPos, s.pos, x) { }
      hide Unswept;
    }
    hide Todo;
  }

  /** Barriers never meet a black table in a pause, or while finalizers run. */
  lemma BlackTable(strHash: nat -> nat, s: State, t: Ref)
    requires CoreOk(strHash, s) && PhaseOk(s) && t in s.h && s.h[t].body.Table? && s.h[t].color.Black?
    ensures s.phase != Pause && s.phase != Finalize && t !in s.ls.tmu
  {
    hide StringsOk, Interned, RootOk, UpvalsOk, LiveClosed;
  }

  // ----- The assertions of the barriers -----

  /** What both barriers assert of the phase. */
  predicate BarrierPhase(p: Phase) {
    p != Finalize && p != Pause
  }

  /** A store of v in object o calls the forward barrier. */
  predicate CallsForward(h: Heap, o: Ref, v: Value) {
    o in h && h[o].color.Black? && v.Ptr? && IsWhite(h, v.r)
  }

  /** A black object outside the marking and the sweep is a userdata waiting for its finalizer. */
  lemma BlackWaits(strHash: nat -> nat, s: State, o: Ref)
    requires CoreOk(strHash, s) && PhaseOk(s) && o in s.h && s.h[o].color.Black? && !BarrierPhase(s.phase)
    ensures s.phase == Finalize && o in s.ls.tmu && s.h[o].body.Udata?
  {
    hide StringsOk, Interned, RootOk, UpvalsOk, LiveClosed;
  }

  /** The assertion of the backward barrier, which is called for black tables, never fails. */
  lemma BackAsserts(strHash: nat -> nat, s: State, t: Ref)
    requires CoreOk(strHash, s) && (s.phase != Propagate ==> PhaseOk(s))
    requires t in s.h && s.h[t].body.Table? && s.h[t].color.Black?
    ensures BarrierPhase(s.phase)
  {
    hide CoreOk, PhaseOk;
    if !BarrierPhase(s.phase) { BlackTable(strHash, s, t); }
  }

  /** That of the forward barrier fails in exactly the calls for a userdata that waits for its
      finalizer while finalizers are called. */
  lemma ForwardAsserts(strHash: nat -> nat, s: State, o: Ref, v: Value)
    requires CoreOk(strHash, s) && (s.phase != Propagate ==> PhaseOk(s)) && CallsForward(s.h, o, v)
    ensures !BarrierPhase(s.phase) <==> s.phase == Finalize && o in s.ls.tmu && s.h[o].body.Udata?
  {
    hide CoreOk, PhaseOk;
    if !BarrierPhase(s.phase) { BlackWaits(strHash, s, o); }
  }

  /** An input that shows it: the program takes such a userdata, which is a key of its registry,
      and gives it a live white table as environment. */
  lemma ForwardFails(strHash: nat -> nat)
    ensures var s, t := LeftOver(Finalize, Nil), LeftOver(Finalize, Ptr(2));
            && GcOk(strHash, s) && Reachable(s, 3) && 3 in s.ls.tmu && Live(s.h, s.cw, 2)
            && t == s.(h := s.h[3 := s.h[3].(body := Udata(Ptr(2), Ptr(2)))]) && GcOk(strHash, t)
            && CallsForward(t.h, 3, Ptr(2)) && !BarrierPhase(t.phase)
  {
    LeftOverOk(strHash, Finalize, Nil);
    LeftOverOk(strHash, Finalize, Ptr(2));
    LeftOverReached(Finalize, Nil);
    hide GcOk, Reachable;
    LeftOverStored();
    hide LeftOver;
  }

  lemma LeftOverStored()
    ensures var s, t := LeftOver(Finalize, Nil), LeftOver(Finalize, Ptr(2));
            && 3 in s.h && t == s.(h := s.h[3 := s.h[3].(body := Udata(Ptr(2), Ptr(2)))]) && t.phase == Finalize
            && 3 in s.ls.tmu && Live(s.h, s.cw, 2) && CallsForward(t.h, 3, Ptr(2))
  {
    var s, t := LeftOver(Finalize, Nil), LeftOver(Finalize, Ptr(2));
    assert t.h == s.h[3 := s.h[3].(body := Udata(Ptr(2), Ptr(2)))];
    assert s.ls.tmu[0] == 3;
  }

  // ----- New objects -----

  lemma AddedRefers(h: Heap, r: Ref, o: GCObject, b: Body, x: Ref)
    requires r !in h && (b.OpenUpval? ==> b.thread != r)
    ensures Refers(h[r := o], b, x) == Refers(h, b, x)
  {
  }

  /** A new white object that refers to live ones. */
  lemma AddedCore(strHash: nat -> nat, s: State, r: Ref, o: GCObject, ls: Lists, pos: nat)
    requires CoreOk(strHash, s) && r !in s.h && o.color == White(s.cw) && Structure(strHash, s.h[r := o], ls, s.main)
    requires !o.body.OpenUpval? && forall x :: Refers(s.h, o.body, x) ==> Live(s.h, s.cw, x)
    ensures CoreOk(strHash, s.(h := s.h[r := o], ls := ls, pos := pos))
  {
    hide Structure, Refers, LiveClosed;
    AddedLive(s.h, s.cw, r, o);
    var k := s.h[r := o];
    assert forall x :: Live(s.h, s.cw, x) ==> Live(k, s.cw, x);
    assert LevelsOk(k);
  }

  lemma AddedLive(h: Heap, cw: bool, r: Ref, o: GCObject)
    requires LiveClosed(h, cw) && LevelsOk(h) && r !in h && o.color == White(cw)
    requires !o.body.OpenUpval? && forall x :: Refers(h, o.body, x) ==> Live(h, cw, x)
    ensures LiveClosed(h[r := o], cw)
  {
    var k := h[r := o];
    forall u | u in h && h[u].body.OpenUpval? ensures h[u].body.thread != r { }
    hide Refers, LevelsOk;
    forall q, x | Live(k, cw, q) && Refers(k, k[q].body, x) ensures Live(k, cw, x) {
      AddedRefers(h, r, o, k[q].body, x);
      if q != r { assert Live(h, cw, q); }
      assert Live(h, cw, x);
    }
  }

  lemma AddedMarking(s: State, r: Ref, o: GCObject, ls: Lists)
    requires MarkingOk(s) && r !in s.h && o.color == White(s.cw) && LevelsOk(s.h)
    requires ls.tmu == s.ls.tmu && ls.upvals == s.ls.upvals
    ensures MarkingOk(s.(h := s.h[r := o], ls := ls))
  {
    var k := s.h[r := o];
    forall u | u in s.h && s.h[u].body.OpenUpval? ensures s.h[u].body.thread != r { }
    hide Refers;
    assert Listed(k, s.gl) by {
      assert forall x :: x in s.gl.again || x in s.gl.weak ==> x in AllGray(s.gl);
      hide AllGray;
    }
    hide Listed;
    forall q | Marked(k, q) && q !in Pending(s.ls, s.gl) ensures Clean(k, q) {
      assert Marked(s.h, q) && Clean(s.h, q);
      forall x | Refers(k, k[q].body, x) ensures Marked(k, x) { AddedRefers(s.h, r, o, k[q].body, x); }
    }
  }

  lemma AddedRest(s: State, r: Ref, o: GCObject, ls: Lists, pos: nat)
    requires SweepRest(s) && r !in s.h && o.color == White(s.cw) && SameTail(s.ls, s.pos, ls, pos, r)
    requires r !in s.ls.root && r !in s.ls.udata
    ensures SweepRest(s.(h := s.h[r := o], ls := ls, pos := pos))
  {
    var k := s.h[r := o];
    forall x | x in k ensures k[x].color == White(s.cw) || x in ls.tmu || Unswept(k, ls, s.strPos, pos, x) {
      if x != r && k[x].color != White(s.cw) && x !in ls.tmu {
        assert Unswept(s.h, s.ls, s.strPos, s.pos, x);
        match k[x].body
        case Str(_) =>
          var c :| s.strPos <= c < |s.ls.strt| && x in s.ls.strt[c];
          assert x in ls.strt[c];
        case OpenUpval(t, _) =>
          assert t in s.ls.root || t in s.ls.udata;
        case _ =>
      }
    }
  }
}
