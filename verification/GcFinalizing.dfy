/** Which finalizers a collection calls. */
module GcFinalizing {
  import opened GcHeap
  import opened GcLists
  import opened GcInvariant
  import opened GcAtomic
  import opened GcGrowth
  import opened GcFacts
  import opened GcHeld
  import opened GcProgress
  import opened GcGarbage
  import opened GcPruned

  /** The metatable of userdata u is no weak table itself, which could lose the finalizer. */
  ghost predicate Firm(modeOf: Body -> (bool, bool), h: Heap, u: Ref) {
    u in h && h[u].body.Udata? && h[u].body.umeta.Ptr? && h[u].body.umeta.r in h
    && var b := h[h[u].body.umeta.r].body;
       b.Table? && b.meta.Ptr? && b.meta.r in h ==> modeOf(h[b.meta.r].body) == (false, false)
  }

  /** What a step has done from the end of the marking on: userdata that have left the list have
      had their finalizers called, and no others. */
  ghost predicate Passed(hasGc: Body -> bool, s: State, c0: set<Ref>, t: State, c1: set<Ref>) {
    && c0 <= c1 && (forall u :: u in c1 ==> u in c0 || u in s.ls.tmu)
    && (forall u :: u in t.ls.tmu ==> u in s.ls.tmu && (HasFinalizer(hasGc, s.h, u) ==> HasFinalizer(hasGc, t.h, u)))
    && (forall u :: u in s.ls.tmu && HasFinalizer(hasGc, s.h, u) ==> u in t.ls.tmu || u in c1)
  }

  /** What the end of the marking has done with the userdata: those set apart were not held by the
      program, but perhaps through others that wait, and keep their finalizers. */
  ghost predicate Waiting(modeOf: Body -> (bool, bool), hasGc: Body -> bool, s: State, t: State) {
    forall u :: u in t.ls.tmu ==>
      && (u in s.ls.tmu || !HeldPast(modeOf, s, s.ls.tmu, u))
      && (HasFinalizer(hasGc, s.h, u) && Firm(modeOf, s.h, u) ==> HasFinalizer(hasGc, t.h, u))
  }

  /** What a step does to the garbage, from g0 to g1, and to the userdata whose finalizers have been
      called, from c0 to c1. */
  ghost predicate StepDoes(modeOf: Body -> (bool, bool), hasGc: Body -> bool, s: State, g0: set<Ref>, c0: set<Ref>,
        t: State, g1: set<Ref>, c1: set<Ref>)
  {
    if s.phase == Propagate && t.phase != Propagate then
      c1 == c0 && SetRight(modeOf, hasGc, s, g0, g1, t.ls.tmu) && Waiting(modeOf, hasGc, s, t)
    else
      g1 == g0 && if s.phase == Propagate then c1 == c0 else Passed(hasGc, s, c0, t, c1)
  }

  lemma FirmKept(modeOf: Body -> (bool, bool), hasGc: Body -> bool, h: Heap, before: Heap, k: Heap, weak: seq<Ref>,
        u: Ref)
    requires Onward(h, before) && TablesCleared(before, k, weak)
          && forall t :: t in weak ==> ModeBits(modeOf, before, t)
    requires HasFinalizer(hasGc, h, u) && Firm(modeOf, h, u)
    ensures HasFinalizer(hasGc, k, u)
  {
    hide TableCleared;
    var m := h[u].body.umeta.r;
    assert m in before && u in before;
    if m in weak { assert ModeBits(modeOf, before, m); }
    if u in weak { assert ModeBits(modeOf, before, u); }
  }

  lemma WaitingNow(modeOf: Body -> (bool, bool), hasGc: Body -> bool, s: State, before: Heap, t: State, weak: seq<Ref>)
    requires Onward(s.h, before) && TablesCleared(before, t.h, weak)
    requires forall r :: r in weak ==> ModeBits(modeOf, before, r)
    requires forall u :: u in t.ls.tmu ==> u in s.ls.tmu || !HeldPast(modeOf, s, s.ls.tmu, u)
    ensures Waiting(modeOf, hasGc, s, t)
  {
    hide Onward, TablesCleared, ModeBits, HeldPast, HasFinalizer, Firm;
    forall u | u in t.ls.tmu && HasFinalizer(hasGc, s.h, u) && Firm(modeOf, s.h, u)
      ensures HasFinalizer(hasGc, t.h, u)
    {
      FirmKept(modeOf, hasGc, s.h, before, t.h, weak, u);
    }
  }

  /** A sweep takes no finalizer from a userdata that waits. */
  lemma PrunedPassed(strHash: nat -> nat, modeOf: Body -> (bool, bool), hasGc: Body -> bool, s: State, t: State,
        called: set<Ref>)
    requires GcOk(strHash, s) && (s.phase == SweepString || s.phase == Sweep) && Pruned(s, t)
          && TablesOnly(modeOf, hasGc)
    ensures Passed(hasGc, s, called, t, called)
  {
    hide Structure, LevelsOk, LiveClosed, RootsLive, ColorsOk, AllWhite, Pruned, HasFinalizer, TablesOnly;
    forall u | u in t.ls.tmu ensures u in s.ls.tmu && (HasFinalizer(hasGc, s.h, u) ==> HasFinalizer(hasGc, t.h, u)) {
      SameTmu(s, t);
      if HasFinalizer(hasGc, s.h, u) { FinalizerStays(modeOf, hasGc, s, t, u); }
    }
    SameTmu(s, t);
  }

  lemma SameTmu(s: State, t: State)
    requires Pruned(s, t)
    ensures t.ls.tmu == s.ls.tmu && t.cw == s.cw
  {
  }

  lemma FinalizerStays(modeOf: Body -> (bool, bool), hasGc: Body -> bool, s: State, t: State, u: Ref)
    requires LiveClosed(s.h, s.cw) && TmuLive(s.h, s.cw, s.ls.tmu) && u in s.ls.tmu && Pruned(s, t)
    requires TablesOnly(modeOf, hasGc) && HasFinalizer(hasGc, s.h, u)
    ensures HasFinalizer(hasGc, t.h, u)
  {
    hide Pruned, TablesOnly;
    var m := s.h[u].body.umeta.r;
    assert Live(s.h, s.cw, u) && Refers(s.h, s.h[u].body, m);
    StaysLive(s, t, u);
    StaysLive(s, t, m);
    UdataPruned(s, t, u);
    PrunedMode(modeOf, hasGc, s, t, m);
  }

  lemma UdataPruned(s: State, t: State, u: Ref)
    requires Pruned(s, t) && u in t.h && u in s.h && s.h[u].body.Udata?
    ensures t.h[u].body == s.h[u].body
  {
    hide FreedDead, Unrevived;
    assert Contents(t.h, u) == Contents(s.h, u);
    SameContents(s.h, t.h, u);
  }

  lemma SameContents(h: Heap, k: Heap, r: Ref)
    requires r in h && r in k && h[r].body.Udata? && Contents(k, r) == Contents(h, r)
    ensures k[r].body == h[r].body
  {
  }

  /** The first userdata that waits has had its turn. */
  lemma TurnPassed(modeOf: Body -> (bool, bool), hasGc: Body -> bool, s: State, c0: set<Ref>, t: State, c1: set<Ref>,
        runs: bool)
    requires s.ls.tmu != [] && t.ls.tmu == s.ls.tmu[1..] && TablesOnly(modeOf, hasGc) && s.ls.tmu[0] in s.h
    requires var u, h := s.ls.tmu[0], Painted(s.h, s.ls.tmu[0], White(s.cw));
             && t.h == (if runs then Pushed(h, s.running, Ptr(u)) else h) && runs == HasFinalizer(hasGc, h, u)
             && c1 == if runs then c0 + {u} else c0
    ensures Passed(hasGc, s, c0, t, c1)
  {
    var u, h := s.ls.tmu[0], Painted(s.h, s.ls.tmu[0], White(s.cw));
    forall x | HasFinalizer(hasGc, s.h, x) ensures HasFinalizer(hasGc, t.h, x) && HasFinalizer(hasGc, h, x) {
      var m := s.h[x].body.umeta.r;
      assert s.h[m].body.Table?;
      assert m in t.h && t.h[m].body == s.h[m].body && x in t.h && t.h[x].body == s.h[x].body;
    }
  }

  // ----- Since the start of a collection -----

  /** Between the start s0 of a collection, with garbage g0 and finalizers c0 called, and state s. */
  ghost predicate Finalizing(modeOf: Body -> (bool, bool), hasGc: Body -> bool, s0: State, g0: set<Ref>, c0: set<Ref>,
        s: State, g: set<Ref>, c: set<Ref>)
  {
    if s.phase == Propagate then g == g0 && c == c0
    else
      && g <= g0 && c0 <= c
      && (forall r :: r in g0 && r !in g ==> Wanted(modeOf, hasGc, s0, r))
      && (forall u :: u in c ==> u in c0 || Allowed(modeOf, s0, u))
      && (forall u :: u in s.ls.tmu ==> Allowed(modeOf, s0, u))
      && (forall u :: u in g0 && Due(hasGc, s0.h, u) && Firm(modeOf, s0.h, u) ==>
            u in c || (u in s.ls.tmu && HasFinalizer(hasGc, s.h, u)))
  }

  /** The finalizer of u may be called: it was waiting, or the program did not hold u, but perhaps
      through others that waited. */
  ghost predicate Allowed(modeOf: Body -> (bool, bool), s0: State, u: Ref) {
    u in s0.ls.tmu || !HeldPast(modeOf, s0, s0.ls.tmu, u)
  }

  lemma FirmGrown(modeOf: Body -> (bool, bool), hasGc: Body -> bool, h: Heap, k: Heap, u: Ref)
    requires Grown(h, k) && Firm(modeOf, h, u) && Due(hasGc, h, u)
    ensures Firm(modeOf, k, u) && HasFinalizer(hasGc, k, u) && Due(hasGc, k, u)
  {
    var m := h[u].body.umeta.r;
    assert u in k && m in k;
    if h[m].body.Table? && h[m].body.meta.Ptr? && h[m].body.meta.r in k { assert h[m].body.meta.r in h; }
  }

  lemma FinalizingOn(modeOf: Body -> (bool, bool), hasGc: Body -> bool, s0: State, g0: set<Ref>, c0: set<Ref>,
        s: State, g: set<Ref>, c: set<Ref>, t: State, g': set<Ref>, c': set<Ref>)
    requires Finalizing(modeOf, hasGc, s0, g0, c0, s, g, c) && StepDoes(modeOf, hasGc, s, g, c, t, g', c')
    requires SameRoots(s0, s) && (s.phase == Propagate ==> Grown(s0.h, s.h) && s.ls.tmu == s0.ls.tmu)
    requires t.phase == Propagate ==> s.phase == Propagate
    ensures Finalizing(modeOf, hasGc, s0, g0, c0, t, g', c')
  {
    hide Wanted, HeldPast, Firm, Due, HasFinalizer, Grown;
    if s.phase == Propagate && t.phase != Propagate {
      forall r | r in g0 && r !in g' ensures Wanted(modeOf, hasGc, s0, r) { WantedGrown(modeOf, hasGc, s0, s, r); }
      forall u | u in t.ls.tmu ensures Allowed(modeOf, s0, u) {
        if HeldPast(modeOf, s0, s0.ls.tmu, u) { HeldPastOnward(modeOf, s0, s, u); }
      }
      forall u | u in g0 && Due(hasGc, s0.h, u) && Firm(modeOf, s0.h, u)
        ensures u in t.ls.tmu && HasFinalizer(hasGc, t.h, u)
      {
        FirmGrown(modeOf, hasGc, s0.h, s.h, u);
      }
    }
  }

  lemma FinalizingStart(modeOf: Body -> (bool, bool), hasGc: Body -> bool, s0: State, s: State, g: set<Ref>,
        c: set<Ref>)
    requires s.phase == Propagate
    ensures Finalizing(modeOf, hasGc, s0, g, c, s, g, c)
  {
  }

  lemma KeptMarking(modeOf: Body -> (bool, bool), s0: State, s: State)
    requires KeptSince(modeOf, s0, s)
    ensures SameRoots(s0, s) && (s.phase == Propagate ==> Grown(s0.h, s.h) && s.ls.tmu == s0.ls.tmu)
  {
  }

  lemma NonePassed(hasGc: Body -> bool, s: State, c: set<Ref>)
    requires s.ls.tmu == []
    ensures Passed(hasGc, s, c, s.(phase := Pause), c)
  {
  }

  /** The end of a collection that began with all that was lost as garbage. */
  lemma LostGone(modeOf: Body -> (bool, bool), hasGc: Body -> bool, s0: State, c0: set<Ref>, s: State, g: set<Ref>,
        c: set<Ref>)
    requires Finalizing(modeOf, hasGc, s0, Lost(modeOf, s0), c0, s, g, c) && s.phase == Pause && s.ls.tmu == []
    requires s.h.Keys <= s0.h.Keys && forall r :: r in g ==> r !in s.h
    ensures forall r :: r in s.h ==> r in s0.h && Wanted(modeOf, hasGc, s0, r)
    ensures forall u :: Due(hasGc, s0.h, u) && !Reached(modeOf, s0, u) && Firm(modeOf, s0.h, u) ==> u in c
    ensures c0 <= c && forall u :: u in c - c0 ==> Allowed(modeOf, s0, u)
  {
    hide Wanted, Reached, Firm, HasFinalizer, HeldPast;
    forall r | r in s.h ensures r in s0.h && Wanted(modeOf, hasGc, s0, r) {
      if Reached(modeOf, s0, r) { ReachedWanted(modeOf, hasGc, s0, r); }
    }
    forall u | Due(hasGc, s0.h, u) && !Reached(modeOf, s0, u) && Firm(modeOf, s0.h, u) ensures u in c {
      assert u in Lost(modeOf, s0);
    }
  }
}
