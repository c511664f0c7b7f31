/** What the methods of the collector rest on, step by step. */
module GcFacts {
  import opened GcHeap
  import opened GcLists
  import opened GcRemovals
  import opened GcInvariant
  import opened GcMarking
  import opened GcGrowth
  import opened GcAtomic
  import opened GcSweeping
  import opened GcMutation
  import opened GcCreation

  // ----- Facts about marking -----

  lemma MarkDone(h: Heap, g: seq<Ref>, k: Heap, g': seq<Ref>, r: Ref)
    requires Advance(h, g, k, g', {r}) && NewlyMarked(h, k, r) && !Traversable(k[r].body)
          && k[r].color == DoneColor(k[r].body)
    requires match k[r].body
             case Udata(m, e) => MarkedValue(k, m) && MarkedValue(k, e)
             case OpenUpval(t, l) => MarkedValue(k, SlotValue(k, t, l))
             case ClosedUpval(v) => MarkedValue(k, v)
             case _ => true
    ensures Advance(h, g, k, g', {}) && Marked(k, r)
  {
    AdvanceDone(h, g, k, g', {r});
  }

  lemma SameBody(h: Heap, g: seq<Ref>, k: Heap, g': seq<Ref>, r: Ref)
    requires Advance(h, g, k, g', {}) && r in h
    ensures r in k && k[r].body == h[r].body
  {
    hide MarkedWell;
  }

  lemma PropagatedAll(h: Heap, gl: GrayLists, k: Heap, gl': GrayLists, s: set<Ref>)
    requires gl.gray != [] && Propagated(h, gl, k, gl', gl.gray[0]) && Listed(h, gl) && ColorsOk(h) && NoDangling(h)
    requires Covered(h, s + ToSet(gl.gray), ToSet(gl.weak))
    ensures Listed(k, gl') && ColorsOk(k) && NoDangling(k) && Covered(k, s + ToSet(gl'.gray), ToSet(gl'.weak))
    ensures Grown(h, k) && Whites(k) <= Whites(h) && (Whites(k) == Whites(h) ==> |gl'.gray| < |gl.gray|)
    ensures ToSet(gl.weak) <= ToSet(gl'.weak) && ToSet(gl.again) <= ToSet(gl'.again)
  {
    hide Covered, NoDangling, ColorsOk, Clean, StrongClean, Advance;
    var o := gl.gray[0];
    GrayHead(h, gl);
    FirstOnce(gl);
    hide Listed, Whites;
    PropagatedListed(h, gl, k, gl', o);
    PropagatedColors(h, gl, k, gl', o);
    PropagatedGrown(h, gl, k, gl', o);
    GrownDangling(h, k);
    PropagatedCovered(h, gl, k, gl', o, s, ToSet(gl.weak));
    assert ToSet(gl.weak) + ToSet(gl'.weak) == ToSet(gl'.weak);
  }

  lemma PropagatedModes(modeOf: Body -> (bool, bool), h: Heap, gl: GrayLists, k: Heap, gl': GrayLists, o: Ref)
    requires Propagated(h, gl, k, gl', o) && Listed(h, gl) && Marked(h, o)
    requires forall t :: t in gl.weak ==> ModeBits(modeOf, h, t)
    requires gl'.weak != gl.weak ==> ModeBits(modeOf, k, o)
    ensures forall t :: t in gl'.weak ==> ModeBits(modeOf, k, t)
  {
    hide Advance, Clean, StrongClean;
    FirstOnce(gl);
    forall t | t in gl'.weak ensures ModeBits(modeOf, k, t) {
      if t in gl.weak {
        assert ModeBits(modeOf, h, t);
        PropagatedMarks(h, gl, k, gl', o, t);
        PropagatedMarks(h, gl, k, gl', o, h[t].body.meta.r);
      }
    }
  }

  lemma SlotRefers(h: Heap, u: Ref, s: set<Ref>)
    requires u in h && h[u].body.OpenUpval? && forall x :: Refers(h, h[u].body, x) ==> x in s
    ensures var v := SlotValue(h, h[u].body.thread, h[u].body.level); v.Ptr? ==> v.r in s
  {
    var v := SlotValue(h, h[u].body.thread, h[u].body.level);
    if v.Ptr? { assert Refers(h, h[u].body, v.r); }
  }

  lemma SlotClean(h: Heap, u: Ref)
    requires u in h && h[u].body.OpenUpval? && MarkedValue(h, SlotValue(h, h[u].body.thread, h[u].body.level))
    ensures Clean(h, u)
  {
  }

  lemma UpvalsKept(h: Heap, g: seq<Ref>, k: Heap, g': seq<Ref>, us: seq<Ref>)
    requires Advance(h, g, k, g', {}) && forall u :: u in us ==> u in h
    ensures forall u :: u in us ==> u in k && k[u].body == h[u].body && (Clean(h, u) ==> Clean(k, u))
  {
    hide MarkedWell, Clean;
    forall u | u in us && Clean(h, u) ensures Clean(k, u) { CleanKept(h, k, u); }
  }

  lemma WasWhite(h: Heap, g: seq<Ref>, k: Heap, g': seq<Ref>, u: Ref)
    requires Advance(h, g, k, g', {}) && IsWhite(k, u)
    ensures IsWhite(h, u)
  {
    hide MarkedWell;
  }

  // ----- Facts about the atomic step -----

  lemma TmuModes(modeOf: Body -> (bool, bool), h: Heap, g: seq<Ref>, u: Ref, c: Color, k: Heap, g': seq<Ref>)
    requires u in h && Advance(Painted(h, u, c), g, k, g', {})
    ensures forall t :: ModeBits(modeOf, h, t) ==> ModeBits(modeOf, k, t)
  {
    hide MarkedWell;
    assert forall r :: r in h ==> r in Painted(h, u, c);
  }

  lemma GrownMarked(h: Heap, k: Heap)
    requires Grown(h, k)
    ensures forall v :: MarkedValue(h, v) ==> MarkedValue(k, v)
    ensures forall r :: Marked(h, r) ==> Marked(k, r)
  {
  }

  lemma AtomicStart(strHash: nat -> nat, s: State)
    requires GcOk(strHash, s) && s.phase == Propagate
    ensures MarkingOk(s) && NoDangling(s.h) && ColorsOk(s.h) && NoneOther(s.h, s.cw)
    ensures forall u :: u in s.ls.upvals ==> u in s.h && s.h[u].body.OpenUpval?
    ensures s.running in s.h && s.h[s.running].body.Thread? && forall v :: v in s.mt && v.Ptr? ==> v.r in s.h
    ensures Structure(strHash, s.h, s.ls, s.main) && LevelsOk(s.h) && Marked(s.h, s.main)
          && MarkedValue(s.h, s.registry)
  {
    hide Refers, Covered, Listed;
    hide StringsOk, Interned, RootOk, UdataOk;
    forall r, x | r in s.h && Refers(s.h, s.h[r].body, x) ensures x in s.h {
      assert Live(s.h, s.cw, r) && Live(s.h, s.cw, x);
    }
  }

  lemma GrownStructure(strHash: nat -> nat, h: Heap, k: Heap, ls: Lists, main: Ref, cw: bool)
    requires Grown(h, k)
    ensures Structure(strHash, h, ls, main) ==> Structure(strHash, k, ls, main)
    ensures LevelsOk(h) ==> LevelsOk(k)
    ensures NoneOther(h, cw) ==> NoneOther(k, cw)
  {
    hide Structure, LevelsOk;
    GrownFrames(h, k);
    if Structure(strHash, h, ls, main) { FramesStructure(strHash, h, k, ls, main); }
  }

  lemma SeparatedMarking(strHash: nat -> nat, modeOf: Body -> (bool, bool), h: Heap, k: Heap, gl: GrayLists, ls0: Lists,
        ls: Lists, main: Ref, cw: bool)
    requires OnlyFinalized(h, k) && gl.gray == [] && Structure(strHash, k, ls, main) && ToSet(ls0.tmu) <= ToSet(ls.tmu)
    requires NoDangling(h) && Listed(h, gl) && ColorsOk(h)
          && Covered(h, ToSet(ls0.tmu) + ToSet(gl.gray), ToSet(gl.weak))
    ensures NoDangling(k) && Listed(k, gl) && ColorsOk(k) && Covered(k, ToSet(ls.tmu) + ToSet(gl.gray), ToSet(gl.weak))
    ensures forall u :: u in ls.tmu ==> u in k && k[u].body.Udata?
    ensures forall t :: t in gl.weak && ModeBits(modeOf, h, t) ==> ModeBits(modeOf, k, t)
    ensures (LevelsOk(h) ==> LevelsOk(k)) && (NoneOther(h, cw) ==> NoneOther(k, cw))
  {
    hide NoDangling, Listed, ColorsOk, Covered, LevelsOk;
    hide StringsOk, Interned, RootOk, UpvalsOk;
    FinalizedKept(h, k, gl, ToSet(ls0.tmu) + ToSet(gl.gray), ToSet(gl.weak));
    CoveredMono(k, ToSet(ls0.tmu) + ToSet(gl.gray), ToSet(gl.weak), ToSet(ls.tmu) + ToSet(gl.gray), ToSet(gl.weak));
  }

  lemma WeakReady(h: Heap, gl: GrayLists)
    requires Listed(h, gl) && gl.gray == [] && Covered(h, {}, ToSet(gl.weak))
    ensures NoDup(gl.weak) && forall t :: t in gl.weak ==> Marked(h, t) && h[t].body.Table? && StrongClean(h, t)
  {
    var all := AllGray(gl);
    assert all == gl.again + gl.weak;
    forall i, j | 0 <= i < j < |gl.weak| ensures gl.weak[i] != gl.weak[j] {
      assert all[|gl.again| + i] == gl.weak[i] && all[|gl.again| + j] == gl.weak[j];
      assert all[|gl.again| + i] != all[|gl.again| + j];
    }
    hide Clean, StrongClean;
    forall t | t in gl.weak ensures Marked(h, t) && h[t].body.Table? && StrongClean(h, t) {
      assert t in all && Marked(h, t);
      if Clean(h, t) { CleanStrong(h, t); }
    }
  }

  lemma CleanStrong(h: Heap, t: Ref)
    requires t in h && h[t].body.Table? && Clean(h, t)
    ensures StrongClean(h, t)
  {
    hide Refers, StronglyRefers;
    forall x | StronglyRefers(h[t].body, h[t].bit3, h[t].bit4, x) ensures Marked(h, x) {
      StrongIsReference(h, h[t].body, (h[t].bit3, h[t].bit4), x);
    }
  }

  lemma RootsMarked(s: State, h: Heap, k: Heap)
    requires Onward(s.h, h) && Onward(h, k)
    requires Marked(s.h, s.main) && MarkedValue(s.h, s.registry) && Marked(h, s.running) && forall v :: v in s.mt ==>
          MarkedValue(h, v)
    ensures forall r :: IsRoot(s, r) ==> Marked(k, r)
  {
    forall r | IsRoot(s, r) ensures Marked(k, r) {
      assert Marked(s.h, r) ==> Marked(h, r);
      if Ptr(r) in s.mt { assert MarkedValue(h, Ptr(r)); }
      assert Marked(h, r);
    }
  }

  /** Every object the program holds, through references that are not weak, is
      marked. */
  ghost predicate KeepsHeld(modeOf: Body -> (bool, bool), s: State, k: Heap) {
    forall p: seq<Ref> :: |p| > 0 && IsRoot(s, p[0]) && (forall i :: 0 < i < |p| ==> HoldLinked(modeOf, k, p, i)) ==>
      Marked(k, p[|p| - 1])
  }

  /** Userdata that were not finalized have been added to the list, newest first. */
  ghost predicate SetApartInOrder(h: Heap, udata: seq<Ref>, tmu: seq<Ref>, now: seq<Ref>) {
    && |tmu| <= |now| && now[..|tmu|] == tmu && Descends(now[|tmu|..])
    && forall u :: u in now[|tmu|..] ==> u in udata && u in h && h[u].body.Udata? && !h[u].bit3
  }

  lemma ApartSince(h: Heap, k: Heap, udata: seq<Ref>, tmu: seq<Ref>, now: seq<Ref>)
    requires Grown(h, k) && SetApartInOrder(k, udata, tmu, now)
    ensures SetApartInOrder(h, udata, tmu, now)
  {
    hide Descends;
    forall u | u in now[|tmu|..] ensures u in udata && u in h && h[u].body.Udata? && !h[u].bit3 { assert u in h; }
  }

  lemma HeldAll(modeOf: Body -> (bool, bool), s: State, k: Heap, w: set<Ref>)
    requires Covered(k, {}, w) && (forall t :: t in w ==> ModeBits(modeOf, k, t)) && forall r :: IsRoot(s, r) ==>
          Marked(k, r)
    ensures KeepsHeld(modeOf, s, k)
  {
    hide Covered, ModeBits, Holds;
    forall p: seq<Ref> | |p| > 0 && IsRoot(s, p[0]) && (forall i :: 0 < i < |p| ==> HoldLinked(modeOf, k, p, i))
      ensures Marked(k, p[|p| - 1])
    {
      HeldMarked(modeOf, k, {}, w, p);
    }
  }

  lemma ClearedFrames(h: Heap, k: Heap, weak: seq<Ref>)
    requires TablesCleared(h, k, weak)
    ensures SameFrames(h, k) && (LevelsOk(h) ==> LevelsOk(k))
  {
    hide ArrayCleared, NodesCleared;
    forall r | r in h ensures Frame(k[r].body) == Frame(h[r].body)
          && (k[r].body == h[r].body || (k[r].body.Table? && h[r].body.Table?)) { }
    hide Frame;
  }

  lemma ClearedAfter(strHash: nat -> nat, m: Heap, k: Heap, ls: Lists, main: Ref, cw: bool, weak: seq<Ref>)
    requires TablesCleared(m, k, weak) && Structure(strHash, m, ls, main) && LevelsOk(m) && NoneOther(m, cw)
    ensures Structure(strHash, k, ls, main) && LevelsOk(k) && NoneOther(k, cw) && k.Keys == m.Keys && FinSame(m, k)
    ensures forall r :: Marked(m, r) ==> Marked(k, r)
  {
    hide Structure, LevelsOk, ArrayCleared, NodesCleared;
    ClearedFrames(m, k, weak);
    FramesStructure(strHash, m, k, ls, main);
  }

  /** Nothing but marks has changed, and marked objects have stayed so. */
  ghost predicate Onward(h: Heap, k: Heap) {
    k.Keys == h.Keys && forall r :: r in h ==>
          k[r].body == h[r].body && k[r].fixed == h[r].fixed && (Marked(h, r) ==> Marked(k, r))
  }

  lemma OnwardKeys(h: Heap, k: Heap)
    requires Onward(h, k)
    ensures k.Keys == h.Keys
  {
  }

  lemma OnwardTrans(h: Heap, k: Heap, l: Heap)
    requires Onward(h, k) && Onward(k, l)
    ensures Onward(h, l)
  {
    assert forall r :: r in h ==> r in k;
  }

  lemma GrownOnward(h: Heap, k: Heap)
    requires Grown(h, k)
    ensures Onward(h, k) && FinSame(h, k)
  {
  }

  lemma SeparatedFinalizers(strHash: nat -> nat, hasGc: Body -> bool, h: Heap, k: Heap, ls0: Lists, ls: Lists,
        called: set<Ref>, n: Ref)
    requires OnlyFinalized(h, k) && |ls0.tmu| <= |ls.tmu| && ls.tmu[..|ls0.tmu|] == ls0.tmu
    requires forall u :: u in ls.tmu[|ls0.tmu|..] ==> ToFinalize(hasGc, h, u, false)
    requires FinOk(h, ls0.udata, ls0.tmu, called, n) && NewestFirst(k, ls.udata)
    ensures FinOk(k, ls.udata, ls.tmu, called, n) && Onward(h, k)
  {
    hide NewestFirst;
    assert ls.tmu == ls0.tmu + ls.tmu[|ls0.tmu|..];
  }

  lemma AtomicRoots(s: State, m: Heap, k: Heap, weak: seq<Ref>)
    requires TablesCleared(m, k, weak) && (forall r :: IsRoot(s, r) ==> Marked(m, r))
    requires Onward(s.h, m) && s.running in s.h && s.h[s.running].body.Thread?
    ensures (forall r :: IsRoot(s, r) ==> Marked(k, r)) && s.running in k && k[s.running].body.Thread?
  {
    hide ArrayCleared, NodesCleared;
    assert IsRoot(s, s.running);
    forall r | IsRoot(s, r) ensures Marked(k, r) { assert r in m; }
  }

  lemma AtomicOk(strHash: nat -> nat, s0: State, s: State)
    requires Structure(strHash, s.h, s.ls, s.main) && LevelsOk(s.h) && NoneOther(s.h, !s.cw) && ColorsOk(s.h)
    requires Covered(s.h, {}, {}) && (forall r :: IsRoot(s0, r) ==> Marked(s.h, r)) && s.running in s.h
          && s.h[s.running].body.Thread?
    requires s.main == s0.main && s.running == s0.running && s.registry == s0.registry && s.mt == s0.mt
    requires s.phase == SweepString && s.strPos == 0 && s.pos == 0 && forall u :: u in s.ls.tmu ==> Marked(s.h, u)
    ensures GcOk(strHash, s)
  {
    hide Covered, ColorsOk, LevelsOk, Refers;
    assert IsRoot(s0, s.main);
    assert LiveClosed(s.h, s.cw) by {
      hide StringsOk, Interned, UdataOk, UpvalsOk;
      Flipped(s.h, !s.cw, s.main);
    }
    hide LiveClosed;
    assert 0 < |s.ls.strt| by { hide Interned, UdataOk, UpvalsOk, RootOk; }
    AllWaiting(strHash, s);
    hide Structure, Unswept, Todo;
    FlippedRoots(s0, s);
  }

  lemma FlippedRoots(s0: State, s: State)
    requires (forall r :: IsRoot(s0, r) ==> Marked(s.h, r)) && s.running in s.h && s.h[s.running].body.Thread?
    requires s.main == s0.main && s.running == s0.running && s.registry == s0.registry && s.mt == s0.mt
    ensures RootsLive(s)
  {
    forall i | 0 <= i < |s.mt| ensures LiveValue(s.h, s.cw, s.mt[i]) {
      if s.mt[i].Ptr? { assert s.mt[i] in s.mt && IsRoot(s0, s.mt[i].r); }
    }
    if s.registry.Ptr? { assert IsRoot(s0, s.registry.r); }
    assert IsRoot(s0, s.running) && IsRoot(s0, s.main);
  }

  lemma AllWaiting(strHash: nat -> nat, s: State)
    requires Structure(strHash, s.h, s.ls, s.main) && s.strPos == 0 && s.pos == 0
    ensures AllWhite(s.h, s.cw, Todo(s) + ToSet(s.ls.tmu))
  {
    hide Structure, Unswept;
    forall r | r in s.h && r !in ToSet(s.ls.tmu) ensures r in Todo(s) {
      AllTodo(strHash, s.h, s.ls, s.main, r);
    }
  }

  lemma CycleStart(strHash: nat -> nat, s: State)
    requires GcOk(strHash, s) && (s.phase == Pause || s.phase == Finalize)
    ensures NoDangling(s.h) && ColorsOk(s.h) && NoneOther(s.h, s.cw) && Structure(strHash, s.h, s.ls, s.main)
          && LevelsOk(s.h)
    ensures Listed(s.h, GrayLists([], [], [])) && Covered(s.h, ToSet(s.ls.tmu) + ToSet([]), {}) && RootsLive(s)
          && LiveClosed(s.h, s.cw)
    ensures s.main in s.h && s.h[s.main].body.Thread? && forall v :: v in s.mt && v.Ptr? ==> v.r in s.h
    ensures s.registry.Ptr? ==> s.registry.r in s.h
    ensures MainRefers(s.h, s.main)
  {
    hide Refers, Clean, Structure, Listed, Covered, LevelsOk, ColorsOk;
    forall r, x | r in s.h && Refers(s.h, s.h[r].body, x) ensures x in s.h {
      NoneDead(s, r);
      assert Live(s.h, s.cw, x);
    }
    hide LiveClosed;
    CycleLists(strHash, s);
  }

  lemma CycleLists(strHash: nat -> nat, s: State)
    requires PhaseOk(s) && (s.phase == Pause || s.phase == Finalize) && Structure(strHash, s.h, s.ls, s.main)
          && NoDangling(s.h)
    ensures Listed(s.h, GrayLists([], [], [])) && Covered(s.h, ToSet(s.ls.tmu) + ToSet([]), {})
          && MainRefers(s.h, s.main)
  {
    hide Clean, StringsOk, Interned, UpvalsOk;
    MainThere(s.h, s.ls.root, s.main);
    hide RootOk;
    HeldThere(s.h, s.main);
    ClosureRefs(s.h, s.h[s.main].body, s.h.Keys);
    hide Refers, NoDangling;
    assert forall r :: r in s.h && Traversable(s.h[r].body) ==> !s.h[r].color.Gray?;
  }

  ghost predicate MainRefers(h: Heap, main: Ref) {
    main in h && h[main].body.Thread? && (h[main].body.globals.Ptr? ==> h[main].body.globals.r in h)
  }

  lemma MainGlobals(h: Heap, k: Heap, main: Ref)
    requires MainRefers(h, main) && Grown(h, k)
    ensures MainRefers(k, main) && k.Keys == h.Keys
  {
  }

  lemma CycleStarted(strHash: nat -> nat, s0: State, s: State)
    requires Grown(s0.h, s.h) && RootsLive(s0) && LiveClosed(s0.h, s0.cw) && NoneOther(s.h, s.cw)
    requires Structure(strHash, s.h, s.ls, s.main) && LevelsOk(s.h) && ColorsOk(s.h) && Listed(s.h, s.gl)
    requires NoneOther(s0.h, s0.cw) && s.gl.again == [] && s.gl.weak == []
          && Covered(s.h, ToSet(s.ls.tmu) + ToSet(s.gl.gray), {})
    requires s.cw == s0.cw && s.main == s0.main && s.running == s0.running && s.registry == s0.registry && s.mt == s0.mt
          && s.phase == Propagate
    requires Marked(s.h, s.main) && MarkedValue(s.h, s.registry)
    ensures GcOk(strHash, s)
  {
    hide Refers, Clean, Structure, LevelsOk, ColorsOk, Listed;
    assert AllGray(s.gl) == s.gl.gray;
    forall r, x | Live(s.h, s.cw, r) && Refers(s.h, s.h[r].body, x) ensures Live(s.h, s.cw, x) {
      GrownRefers(s0.h, s.h, r, x);
      assert Live(s0.h, s0.cw, r) by { assert r in s0.h; }
      assert Live(s0.h, s0.cw, x);
    }
    assert forall x :: Live(s0.h, s0.cw, x) ==> Live(s.h, s.cw, x);
  }

  // ----- Facts about single steps -----

  lemma TmuHead(strHash: nat -> nat, s: State)
    requires CoreOk(strHash, s) && PhaseOk(s) && s.phase == Finalize && s.ls.tmu != []
    ensures var u := s.ls.tmu[0];
          u in s.h && s.h[u].body.Udata? && s.h[u].bit3 && u !in s.ls.tmu[1..] && Live(s.h, s.cw, u)
    ensures Structure(strHash, s.h, s.ls, s.main)
  {
    hide StringsOk, Interned, RootOk, UpvalsOk, LiveClosed;
    var u := s.ls.tmu[0];
    assert u in s.ls.tmu;
    forall i | 0 <= i < |s.ls.tmu[1..]| ensures s.ls.tmu[1..][i] != u {
      var all := s.ls.udata + s.ls.tmu;
      assert all[|s.ls.udata|] == u && all[|s.ls.udata| + 1 + i] == s.ls.tmu[1..][i];
      assert all[|s.ls.udata|] != all[|s.ls.udata| + 1 + i];
    }
  }

  lemma TakenBack(strHash: nat -> nat, s: State)
    requires CoreOk(strHash, s) && PhaseOk(s) && s.phase == Finalize && s.ls.tmu != [] && Live(s.h, s.cw, s.ls.tmu[0])
    ensures var u := s.ls.tmu[0];
            var s' := s.(h := Painted(s.h, u, White(s.cw)),
                  ls := s.ls.(udata := [u] + s.ls.udata, tmu := s.ls.tmu[1..]));
            CoreOk(strHash, s') && PhaseOk(s')
  {
    var u := s.ls.tmu[0];
    WhitenCore(strHash, s, u);
    TakenCore(strHash, s.(h := Painted(s.h, u, White(s.cw))));
    hide CoreOk, AllWhite, TmuLive;
    TakenColors(s.h, s.cw, s.ls.tmu);
    hide Painted, ToSet;
  }

  lemma TakenColors(h: Heap, cw: bool, tmu: seq<Ref>)
    requires tmu != [] && tmu[0] in h && AllWhite(h, cw, ToSet(tmu)) && TmuLive(h, cw, tmu)
    ensures AllWhite(Painted(h, tmu[0], White(cw)), cw, ToSet(tmu[1..]))
          && TmuLive(Painted(h, tmu[0], White(cw)), cw, tmu[1..])
  {
    assert forall x :: x in tmu <==> x == tmu[0] || x in tmu[1..] by { assert tmu == [tmu[0]] + tmu[1..]; }
  }

  lemma TakenCore(strHash: nat -> nat, s: State)
    requires CoreOk(strHash, s) && s.ls.tmu != []
    ensures CoreOk(strHash, s.(ls := s.ls.(udata := [s.ls.tmu[0]] + s.ls.udata, tmu := s.ls.tmu[1..])))
  {
    hide Structure, LiveClosed, LevelsOk, ColorsOk;
    TakeBack(strHash, s.h, s.ls, s.main);
  }

  lemma TakenFin(h: Heap, udata: seq<Ref>, tmu: seq<Ref>, called: set<Ref>, n: Ref, c: Color)
    requires FinOk(h, udata, tmu, called, n) && tmu != [] && tmu[0] in h && h[tmu[0]].body.Udata?
    requires h[tmu[0]].bit3
    ensures FinOk(Painted(h, tmu[0], c), [tmu[0]] + udata, tmu[1..], called, n)
    ensures tmu[0] !in called
  {
    var k, w := Painted(h, tmu[0], c), [tmu[0]] + udata;
    assert tmu[0] in tmu && forall x :: x in tmu[1..] ==> x in tmu;
    assert forall r :: Unfinalized(k, r) == Unfinalized(h, r);
    assert forall j :: 0 < j < |w| ==> w[j] == udata[j - 1];
  }

  lemma CalledFin(h: Heap, udata: seq<Ref>, tmu: seq<Ref>, called: set<Ref>, n: Ref, u: Ref)
    requires FinOk(h, udata, tmu, called, n) && u !in tmu && u in h && h[u].body.Udata? && h[u].bit3
    ensures FinOk(h, udata, tmu, called + {u}, n)
  {
    hide NewestFirst;
  }

  lemma RunningThread(strHash: nat -> nat, s: State)
    requires GcOk(strHash, s)
    ensures Live(s.h, s.cw, s.running) && s.h[s.running].body.Thread?
  {
    hide Structure, LiveClosed, LevelsOk, ColorsOk, PhaseOk;
  }

  ghost predicate StackFits(h: Heap, cw: bool, t: Ref, stack: seq<Value>)
    requires t in h && h[t].body.Thread?
  {
    && (forall v :: v in stack ==> v in h[t].body.stack || LiveValue(h, cw, v))
    && (forall u :: u in h && h[u].body.OpenUpval? && h[u].body.thread == t ==> SlotFits(h, cw, t, u, stack))
  }

  /** The slot of upvalue u stays, with its value or a live one. */
  ghost predicate SlotFits(h: Heap, cw: bool, t: Ref, u: Ref, stack: seq<Value>)
    requires u in h && h[u].body.OpenUpval?
  {
    var l := h[u].body.level;
    l < |stack| && (Live(h, cw, u) ==> SlotValue(h, t, l) == stack[l] || LiveValue(h, cw, stack[l]))
  }

  lemma ReadyToPush(strHash: nat -> nat, s: State, u: Ref)
    requires GcOk(strHash, s) && Live(s.h, s.cw, u)
    ensures s.running in s.h && s.h[s.running].body.Thread?
          && StackFits(s.h, s.cw, s.running, s.h[s.running].body.stack + [Ptr(u)])
  {
    hide Structure, LiveClosed, ColorsOk, PhaseOk;
  }

  function WithStack(h: Heap, t: Ref, stack: seq<Value>): Heap
    requires t in h && h[t].body.Thread?
  {
    h[t := h[t].(body := Thread(h[t].body.globals, stack, h[t].body.open))]
  }

  lemma StackWritten(strHash: nat -> nat, s: State, t: Ref, stack: seq<Value>)
    requires CoreOk(strHash, s) && PhaseOk(s) && t in s.h && s.h[t].body.Thread? && StackFits(s.h, s.cw, t, stack)
    ensures CoreOk(strHash, s.(h := WithStack(s.h, t, stack))) && PhaseOk(s.(h := WithStack(s.h, t, stack)))
          && FinSame(s.h, WithStack(s.h, t, stack))
  {
    var k := WithStack(s.h, t, stack);
    StackRefs(s.h, s.cw, t, stack);
    StackLevels(s.h, t, stack, s.cw);
    StackUpvals(s.h, s.cw, t, stack);
    StackRoots(s, t, stack);
    hide CoreOk, PhaseOk, WroteThread, LevelsOk, RootsLive, Refers, StackFits, WithStack;
    ThreadWritten(strHash, s, k, t);
  }

  lemma FramesOf(h: Heap, k: Heap)
    requires SameColors(h, k)
    ensures SameFrames(h, k)
  {
    hide SameFrames;
  }

  lemma StackRefs(h: Heap, cw: bool, t: Ref, stack: seq<Value>)
    requires t in h && h[t].body.Thread? && StackFits(h, cw, t, stack)
    ensures WroteThread(h, WithStack(h, t, stack), t, cw)
  {
    var k := WithStack(h, t, stack);
    forall x | Refers(k, k[t].body, x) ensures Refers(h, h[t].body, x) || Live(h, cw, x) {
      if h[t].body.globals != Ptr(x) { assert Ptr(x) in stack; }
    }
  }

  lemma StackLevels(h: Heap, t: Ref, stack: seq<Value>, cw: bool)
    requires t in h && h[t].body.Thread? && StackFits(h, cw, t, stack) && LevelsOk(h)
    ensures LevelsOk(WithStack(h, t, stack)) && FinSame(h, WithStack(h, t, stack))
  {
    assert forall u :: u in h && h[u].body.OpenUpval? && h[u].body.thread == t ==> SlotFits(h, cw, t, u, stack);
  }

  lemma StackUpvals(h: Heap, cw: bool, t: Ref, stack: seq<Value>)
    requires t in h && h[t].body.Thread? && StackFits(h, cw, t, stack) && LiveClosed(h, cw) && LevelsOk(h)
    ensures var k := WithStack(h, t, stack);
            forall u, x :: u in h && Live(h, cw, u) && h[u].body.OpenUpval? && Refers(k, k[u].body, x)
                  ==> Live(h, cw, x)
  {
    var k := WithStack(h, t, stack);
    forall u, x | u in h && Live(h, cw, u) && h[u].body.OpenUpval? && Refers(k, k[u].body, x) ensures Live(h, cw, x) {
      assert k[u].body == h[u].body;
      if h[u].body.thread == t { assert SlotFits(h, cw, t, u, stack); }
      if h[u].body.thread != t {
        assert SlotValue(k, h[u].body.thread, h[u].body.level) == SlotValue(h, h[u].body.thread, h[u].body.level);
        assert Refers(h, h[u].body, x);
      } else {
        assert stack[h[u].body.level] == Ptr(x);
        if SlotValue(h, t, h[u].body.level) == Ptr(x) { assert Refers(h, h[u].body, x); }
      }
    }
  }

  lemma StackRoots(s: State, t: Ref, stack: seq<Value>)
    requires t in s.h && s.h[t].body.Thread? && RootsLive(s)
    ensures RootsLive(s.(h := WithStack(s.h, t, stack)))
  {
    var k := WithStack(s.h, t, stack);
    assert forall x :: Live(s.h, s.cw, x) ==> Live(k, s.cw, x);
  }

  lemma StackCovered(strHash: nat -> nat, s: State, k: Heap, t: Ref)
    requires CoreOk(strHash, s) && MarkingOk(s) && WroteThread(s.h, k, t, s.cw)
    ensures Covered(k, Pending(s.ls, s.gl), {})
  {
    hide Refers, LiveClosed, RootsLive, LevelsOk, StringsOk, Interned, RootOk, UdataOk, Covered, WroteThread;
    WroteIsThread(s.h, k, t, s.cw);
    forall u | u in s.h && s.h[u].body.OpenUpval? ensures u in Pending(s.ls, s.gl) { }
    if Marked(s.h, t) { GrayPending(strHash, s, t); }
    ThreadCovered(s.h, k, t, s.cw, Pending(s.ls, s.gl));
  }

  /** Whatever can be reached is not dead, so it is not freed. */
  lemma ReachableStay(strHash: nat -> nat, s: State)
    requires GcOk(strHash, s)
    ensures forall r :: Reachable(s, r) ==> Live(s.h, s.cw, r)
  {
    hide Structure, LevelsOk, ColorsOk, PhaseOk, LiveClosed, RootsLive, Path;
    forall r | Reachable(s, r) ensures Live(s.h, s.cw, r) {
      var p :| Path(s, p, r);
      ReachableLive(s, p, r);
    }
  }

  lemma StaysFreed(h: Heap, k: Heap, cw: bool)
    requires FreedDead(h, k, cw)
    ensures forall r :: Live(h, cw, r) ==> r in k
  {
  }

  lemma SweepDone(strHash: nat -> nat, s: State)
    requires GcOk(strHash, s) && s.phase == Sweep && s.pos == |s.ls.root| + |s.ls.udata|
    ensures GcOk(strHash, s.(phase := Finalize))
  {
    hide Structure, LiveClosed, LevelsOk, ColorsOk;
    forall x | x in s.h ensures x !in Todo(s) {
      assert (s.ls.root + s.ls.udata)[s.pos..] == [];
    }
  }

  lemma FinalizeDone(strHash: nat -> nat, s: State)
    requires GcOk(strHash, s) && s.phase == Finalize && s.ls.tmu == []
    ensures GcOk(strHash, s.(phase := Pause))
  {
    hide Structure, LiveClosed, LevelsOk, ColorsOk;
  }

  lemma PropagatedGc(strHash: nat -> nat, s: State, s': State)
    requires GcOk(strHash, s) && s.phase == Propagate && s.gl.gray != [] && NoDangling(s.h)
    requires Propagated(s.h, s.gl, s'.h, s'.gl, s.gl.gray[0]) && s' == s.(h := s'.h, gl := s'.gl)
    ensures GcOk(strHash, s') && FinSame(s.h, s'.h) && s'.h.Keys == s.h.Keys
  {
    hide Covered, Listed, NoDangling, Propagated, Structure, LiveClosed, LevelsOk, RootsLive, ColorsOk;
    var rest := ToSet(s.gl.again) + ToSet(s.gl.weak) + ToSet(s.ls.tmu) + ToSet(s.ls.upvals);
    assert rest + ToSet(s.gl.gray) == Pending(s.ls, s.gl);
    CoveredMono(s.h, Pending(s.ls, s.gl), {}, rest + ToSet(s.gl.gray), ToSet(s.gl.weak));
    PropagatedAll(s.h, s.gl, s'.h, s'.gl, rest);
    CoveredMono(s'.h, rest + ToSet(s'.gl.gray), ToSet(s'.gl.weak), Pending(s'.ls, s'.gl), {});
    GrownOnward(s.h, s'.h);
    GcCore(strHash, s);
    GrownCore(strHash, s, s'.h);
    CoreGl(strHash, s.(h := s'.h), s');
    GrownMarked(s.h, s'.h);
    hide CoreOk;
    CoreGc(strHash, s');
  }

  lemma CoreGl(strHash: nat -> nat, a: State, b: State)
    requires CoreOk(strHash, a) && b.h == a.h && b.ls == a.ls && b.cw == a.cw && b.main == a.main
          && b.running == a.running
    requires b.registry == a.registry && b.mt == a.mt
    ensures CoreOk(strHash, b)
  {
    hide Structure;
  }

  lemma StringsView(strHash: nat -> nat, s: State)
    requires GcOk(strHash, s) && s.phase == SweepString
    ensures CoreOk(strHash, s) && SweepRest(s) && s.pos == 0 && s.strPos < |s.ls.strt|
  {
    hide Structure, LiveClosed, LevelsOk, RootsLive, Todo;
    RestAllWhite(s);
  }

  lemma StringsDone(strHash: nat -> nat, s: State)
    requires CoreOk(strHash, s) && SweepRest(s)
    ensures CoreOk(strHash, s.(phase := Sweep)) && SweepRest(s.(phase := Sweep))
  {
    hide Structure, LiveClosed, LevelsOk, ColorsOk;
  }

  lemma StringsGc(strHash: nat -> nat, s: State)
    requires CoreOk(strHash, s) && SweepRest(s) && s.pos == 0
    requires if s.phase == SweepString then s.strPos < |s.ls.strt| else s.phase == Sweep && s.strPos == |s.ls.strt|
    ensures GcOk(strHash, s)
  {
    hide Structure, LiveClosed, LevelsOk, RootsLive, Todo;
    RestAllWhite(s);
  }

  lemma Restarted(strHash: nat -> nat, s: State, s': State)
    requires CoreOk(strHash, s) && PhaseOk(s) && (s.phase == Pause || s.phase == Propagate)
    requires s' == s.(gl := s'.gl, phase := SweepString, pos := 0, strPos := 0)
    ensures GcOk(strHash, s')
  {
    hide Covered, Listed, LiveClosed, LevelsOk;
    assert 0 < |s.ls.strt| by { hide Interned, RootOk, UdataOk, UpvalsOk; }
    AllWaiting(strHash, s');
    assert TmuLive(s.h, s.cw, s.ls.tmu) by { hide StringsOk, Interned, RootOk, UpvalsOk; }
    hide Structure, Todo;
  }

  // ----- Facts about open upvalues -----

  /** Upvalue u of thread t has been closed with the value of its slot; of the
      others, only marks may differ. */
  ghost predicate ClosedTo(h: Heap, k: Heap, t: Ref, u: Ref) {
    && k.Keys == h.Keys && t in h && u in h && h[t].body.Thread? && h[u].body.OpenUpval? && h[t].body.open != []
          && u != t
    && k[u].body == ClosedUpval(SlotValue(h, t, h[u].body.level))
    && k[t].body == Thread(h[t].body.globals, h[t].body.stack, h[t].body.open[1..])
    && forall x :: x in h && x != u && x != t ==> k[x].body == h[x].body
  }

  /** What the first open upvalue u of thread t has become. */
  ghost predicate ClosedWell(h: Heap, k: Heap, t: Ref, u: Ref, cw: bool)
  {
    && t in h && h[t].body.Thread? && h[t].body.open != []
    && (forall x :: Live(h, cw, x) ==> Live(k, cw, x))
    && ClosedTo(h, k, t, u) && FreedDead(h, k, cw) && t in k && k[t].color == h[t].color && k[t].fixed == h[t].fixed
  }

  lemma ClosedAll(h: Heap, t: Ref, u: Ref, c: Color, cw: bool)
    requires t in h && h[t].body.Thread? && h[t].body.open != [] && u in h && h[u].body.OpenUpval? && u != t
          && c != White(!cw)
    ensures var k := Closed(h, t, u, c); ClosedWell(h, k, t, u, cw) && FinSame(h, k)
  {
    assert Without(h[t].body.open, 0) == h[t].body.open[1..];
  }

  lemma SlotLive(strHash: nat -> nat, s: State, u: Ref)
    requires CoreOk(strHash, s) && Live(s.h, s.cw, u) && s.h[u].body.OpenUpval?
    ensures LiveValue(s.h, s.cw, SlotValue(s.h, s.h[u].body.thread, s.h[u].body.level))
  {
    hide Structure, LevelsOk, RootsLive, ColorsOk;
    var v := SlotValue(s.h, s.h[u].body.thread, s.h[u].body.level);
    if v.Ptr? { assert Refers(s.h, s.h[u].body, v.r); }
  }

  lemma CorePos(strHash: nat -> nat, a: State, b: State)
    requires CoreOk(strHash, a) && b == a.(pos := b.pos)
    ensures CoreOk(strHash, b)
  {
    hide Structure;
  }

  lemma MarkingPos(a: State, b: State, o: Ref, v: Value, w: Value)
    requires MarkingBut(a, o, v, w) && b == a.(pos := b.pos)
    ensures MarkingBut(b, o, v, w)
  {
    hide Covered, Listed, Refers;
  }

  lemma Marker(strHash: nat -> nat, s: State, o: Ref, v: Value)
    requires CoreOk(strHash, s) && MarkingBut(s, o, v, Nil)
    ensures NoDangling(s.h)
  {
    hide Structure, Refers, Covered, Listed;
    AllLiveNoDangling(s.h, s.cw);
  }

  ghost predicate SameBodies(h: Heap, k: Heap) {
    k.Keys == h.Keys && forall x :: x in h ==> k[x].body == h[x].body
  }

  lemma SameBodiesRefl(h: Heap)
    ensures SameBodies(h, h)
  {
  }

  /** No object is black in a pause. */
  lemma PauseWhite(s: State, o: Ref)
    requires PhaseOk(s) && s.phase == Pause && o in s.h
    ensures s.h[o].color == White(s.cw)
  {
  }

  lemma MarkedAfter(h: Heap, g: seq<Ref>, k: Heap, g': seq<Ref>, cw: bool)
    requires Advance(h, g, k, g', {})
    ensures FreedDead(h, k, cw) && SameBodies(h, k) && FinSame(h, k)
  {
    hide MarkedWell;
  }

  lemma ClosedThen(h: Heap, m: Heap, k: Heap, t: Ref, u: Ref, cw: bool)
    requires ClosedTo(h, m, t, u) && SameBodies(m, k)
    requires FreedDead(h, m, cw) && FreedDead(m, k, cw)
    ensures ClosedTo(h, k, t, u) && FreedDead(h, k, cw)
  {
    FreedTrans(h, m, k, cw);
  }

  /** The first open upvalue of thread t is gone: closed or, if dead, freed. */
  ghost predicate OneLess(h: Heap, k: Heap, t: Ref, cw: bool) {
    && t in h && h[t].body.Thread? && h[t].body.open != [] && t in k
    && k[t].body == Thread(h[t].body.globals, h[t].body.stack, h[t].body.open[1..])
    && var u := h[t].body.open[0];
       && u in h && u != t && h[u].body.OpenUpval?
       && (u in k ==> k[u].body == ClosedUpval(SlotValue(h, t, h[u].body.level))) && (u !in k ==> Dead(h, cw, u))
       && (forall x :: x in h && x != u && x != t ==> x in k && k[x].body == h[x].body)
       && forall x :: x in k ==> x in h
  }

  lemma FreedHead(h: Heap, t: Ref, u: Ref, cw: bool)
    requires t in h && h[t].body.Thread? && h[t].body.open != [] && u == h[t].body.open[0] && u in h && u != t
          && h[u].body.OpenUpval? && Dead(h, cw, u)
    ensures var k := Dropped(Unlinked(h, t, 0), u);
            OneLess(h, k, t, cw) && FreedDead(h, k, cw) && k[t].color == h[t].color && k[t].fixed == h[t].fixed
  {
    assert Without(h[t].body.open, 0) == h[t].body.open[1..];
  }

  /** The first n open upvalues of thread t are gone. */
  ghost predicate Removed(h: Heap, k: Heap, t: Ref, cw: bool, n: int) {
    && t in h && h[t].body.Thread? && 0 <= n <= |h[t].body.open| && t in k
    && k[t].body == Thread(h[t].body.globals, h[t].body.stack, h[t].body.open[n..])
    && (forall i :: 0 <= i < n ==> Gone(h, k, t, cw, h[t].body.open[i]))
    && (forall x :: x in h && x != t && x !in h[t].body.open[..n] ==> x in k && k[x].body == h[x].body)
    && forall x :: x in k ==> x in h
  }

  ghost predicate Gone(h: Heap, k: Heap, t: Ref, cw: bool, u: Ref) {
    && u in h && u != t && h[u].body.OpenUpval?
    && (u in k ==> k[u].body == ClosedUpval(SlotValue(h, t, h[u].body.level))) && (u !in k ==> Dead(h, cw, u))
  }

  lemma RemovedRefl(h: Heap, t: Ref, cw: bool)
    requires t in h && h[t].body.Thread?
    ensures Removed(h, h, t, cw, 0)
  {
    assert h[t].body.open[0..] == h[t].body.open;
  }

  /** Objects have been put in front of a chain, and its sweep pointer moved on. */
  ghost predicate Shifted(r0: seq<Ref>, p0: nat, r: seq<Ref>, p: nat) {
    |r0| <= |r| && r[|r| - |r0|..] == r0 && p == if p0 == 0 then 0 else p0 + |r| - |r0|
  }

  lemma ShiftedRefl(r: seq<Ref>, p: nat)
    ensures Shifted(r, p, r, p)
  {
    assert r[0..] == r;
  }

  lemma ShiftedTrans(r0: seq<Ref>, p0: nat, r1: seq<Ref>, p1: nat, r: seq<Ref>, p: nat)
    requires Shifted(r0, p0, r1, p1) && Shifted(r1, p1, r, p)
    ensures Shifted(r0, p0, r, p)
  {
    assert r[|r| - |r0|..] == r[|r| - |r1|..][|r1| - |r0|..];
  }

  lemma RemovedBody(h: Heap, k: Heap, t: Ref, cw: bool, n: int)
    requires Removed(h, k, t, cw, n)
    ensures t in h && h[t].body.Thread? && 0 <= n <= |h[t].body.open| && t in k && k[t].body.Thread?
          && |k[t].body.open| == |h[t].body.open| - n
    ensures k[t].body == Thread(h[t].body.globals, h[t].body.stack, k[t].body.open)
  {
  }

  lemma RemovedGone(h: Heap, m: Heap, k: Heap, t: Ref, cw: bool, n: int)
    requires Removed(h, m, t, cw, n) && OneLess(m, k, t, cw) && FreedDead(h, m, cw) && OpenListOk(h, t)
    requires n < |h[t].body.open| && m[t].body.open[0] == h[t].body.open[n]
    ensures forall i :: 0 <= i < n + 1 ==> Gone(h, k, t, cw, h[t].body.open[i])
  {
    var open := h[t].body.open;
    OpenNoDup(h, open);
    UpvalNext(h, t, n);
    hide OpenListOk;
    assert SlotValue(m, t, m[open[n]].body.level) == SlotValue(h, t, m[open[n]].body.level);
    forall i | 0 <= i < n + 1 ensures Gone(h, k, t, cw, open[i]) {
      if i < n { assert Gone(h, m, t, cw, open[i]) && open[i] != open[n]; }
    }
  }

  lemma RemovedMore(h: Heap, m: Heap, k: Heap, t: Ref, cw: bool, n: int)
    requires Removed(h, m, t, cw, n) && OneLess(m, k, t, cw) && FreedDead(h, m, cw) && OpenListOk(h, t)
    ensures Removed(h, k, t, cw, n + 1) && n < |h[t].body.open| && m[t].body.open[0] == h[t].body.open[n]
  {
    hide OpenListOk, Gone, FreedDead, Dead, SlotValue;
    var open := h[t].body.open;
    assert m[t].body.open[0] == open[n] && open[n..][1..] == open[n + 1..];
    RemovedGone(h, m, k, t, cw, n);
    RemovedRest(h, m, k, t, cw, n);
  }

  lemma RemovedRest(h: Heap, m: Heap, k: Heap, t: Ref, cw: bool, n: int)
    requires Removed(h, m, t, cw, n) && OneLess(m, k, t, cw) && n < |h[t].body.open|
          && m[t].body.open[0] == h[t].body.open[n]
    ensures forall x :: x in h && x != t && x !in h[t].body.open[..n + 1] ==> x in k && k[x].body == h[x].body
    ensures forall x :: x in k ==> x in h
  {
    hide Gone, Dead, SlotValue;
    var open := h[t].body.open;
    forall x | x in h && x != t && x !in open[..n + 1] ensures x in k && k[x].body == h[x].body {
      assert open[..n + 1] == open[..n] + [open[n]];
      assert x !in open[..n] && x != open[n];
    }
  }

  lemma UpvalNext(h: Heap, t: Ref, n: int)
    requires t in h && h[t].body.Thread? && OpenListOk(h, t) && 0 <= n < |h[t].body.open|
    ensures var u := h[t].body.open[n]; u in h && u != t && h[u].body.OpenUpval? && u !in h[t].body.open[..n]
  {
    OpenNoDup(h, h[t].body.open);
    assert h[t].body.open[n] in h[t].body.open;
  }

  lemma ThreadList(strHash: nat -> nat, s: State, t: Ref)
    requires GcOk(strHash, s) && t in s.h && s.h[t].body.Thread?
    ensures OpenListOk(s.h, t)
  {
    hide StringsOk, Interned, RootOk, UdataOk, PhaseOk;
  }

  /** The next one is as it was, and at or above the level if it is so now. */
  lemma HeadLevel(h: Heap, k: Heap, t: Ref, cw: bool, n: int)
    requires Removed(h, k, t, cw, n) && OpenListOk(h, t) && n < |h[t].body.open|
    ensures k[t].body.open != [] && k[t].body.open[0] == h[t].body.open[n]
    ensures var u := h[t].body.open[n]; u in k && k[u].body == h[u].body && Level(h, u) == Level(k, u)
  {
    UpvalNext(h, t, n);
  }

  lemma OpenHead(strHash: nat -> nat, s: State, t: Ref)
    requires GcOk(strHash, s) && t in s.h && s.h[t].body.Thread? && s.h[t].body.open != []
    ensures var u := s.h[t].body.open[0]; u in s.h && s.h[u].body.OpenUpval? && u != t && !s.h[u].fixed
  {
    GcCore(strHash, s);
    OpenThere(strHash, s, t, 0);
    hide StringsOk, Interned, UdataOk, UpvalsOk;
    MainThere(s.h, s.ls.root, s.main);
  }

  lemma DeadSweep(strHash: nat -> nat, s: State, u: Ref)
    requires GcOk(strHash, s) && Dead(s.h, s.cw, u)
    ensures (s.phase == SweepString || s.phase == Sweep) && CoreOk(strHash, s) && SweepRest(s)
  {
    hide Structure, LiveClosed, LevelsOk, RootsLive;
    if s.phase != SweepString && s.phase != Sweep { NoneDead(s, u); }
    hide Todo;
    RestAllWhite(s);
  }

  lemma SweepBack(strHash: nat -> nat, s0: State, s: State)
    requires GcOk(strHash, s0) && (s0.phase == SweepString || s0.phase == Sweep) && CoreOk(strHash, s) && SweepRest(s)
    requires s == s0.(h := s.h, ls := s.ls) && s.ls == s0.ls.(upvals := s.ls.upvals)
    ensures GcOk(strHash, s)
  {
    hide Structure, LiveClosed, LevelsOk, RootsLive, Todo, AllWhite;
    RestAllWhite(s);
  }

  /** The upvalues of thread t at or above a level are gone, the others are as before. */
  ghost predicate AllClosed(h: Heap, k: Heap, t: Ref, cw: bool, level: nat) {
    && t in h && h[t].body.Thread? && t in k && k[t].body.Thread?
    && k[t].body.globals == h[t].body.globals && k[t].body.stack == h[t].body.stack
    && (forall u :: u in h && h[u].body.OpenUpval? && h[u].body.thread == t ==>
          if h[u].body.level >= level then Gone(h, k, t, cw, u)
                else u in k && k[u].body == h[u].body && u in k[t].body.open)
    && (forall x :: x in h && x != t && !(h[x].body.OpenUpval? && h[x].body.thread == t) ==>
          x in k && k[x].body == h[x].body)
    && forall x :: x in k ==> x in h
  }

  /** The first n open upvalues of thread t, all at or above the level, have been closed. */
  ghost predicate ClosingTo(h: Heap, k: Heap, t: Ref, cw: bool, level: nat, n: int) {
    && Removed(h, k, t, cw, n) && FreedDead(h, k, cw)
    && forall i :: 0 <= i < n ==> Level(h, h[t].body.open[i]) >= level
  }

  lemma ClosingStart(strHash: nat -> nat, s: State, t: Ref, level: nat)
    requires GcOk(strHash, s) && t in s.h && s.h[t].body.Thread?
    ensures ClosingTo(s.h, s.h, t, s.cw, level, 0)
    ensures var open := s.h[t].body.open; open != [] ==> open[0] in s.h && s.h[open[0]].body.OpenUpval?
  {
    hide GcOk, FreedDead, Removed;
    RemovedRefl(s.h, t, s.cw);
    FreedRefl(s.h, s.cw);
    if s.h[t].body.open != [] { OpenHead(strHash, s, t); }
  }

  lemma ClosingStep(strHash: nat -> nat, s0: State, h: Heap, s: State, t: Ref, level: nat, n: int)
    requires GcOk(strHash, s0) && GcOk(strHash, s) && s.cw == s0.cw && ClosingTo(s0.h, h, t, s0.cw, level, n)
    requires OneLess(h, s.h, t, s0.cw) && FreedDead(h, s.h, s0.cw)
    requires h[t].body.open[0] in h && h[h[t].body.open[0]].body.OpenUpval? && h[h[t].body.open[0]].body.level >= level
    ensures ClosingTo(s0.h, s.h, t, s0.cw, level, n + 1) && t in s.h && s.h[t].body.Thread?
          && |s.h[t].body.open| < |h[t].body.open|
    ensures var open := s.h[t].body.open; open != [] ==> open[0] in s.h && s.h[open[0]].body.OpenUpval?
  {
    hide GcOk, FreedDead, Removed, OpenListOk, OneLess;
    RemovedBody(s0.h, h, t, s0.cw, n);
    ThreadList(strHash, s0, t);
    LessBody(h, s.h, t, s0.cw);
    HeadLevel(s0.h, h, t, s0.cw, n);
    RemovedMore(s0.h, h, s.h, t, s0.cw, n);
    FreedTrans(s0.h, h, s.h, s0.cw);
    RemovedBody(s0.h, s.h, t, s0.cw, n + 1);
    if s.h[t].body.open != [] { OpenHead(strHash, s, t); }
  }

  lemma LessBody(h: Heap, k: Heap, t: Ref, cw: bool)
    requires OneLess(h, k, t, cw)
    ensures t in h && h[t].body.Thread? && h[t].body.open != [] && t in k
  {
  }

  lemma ClosingEnd(strHash: nat -> nat, s: State, k: Heap, t: Ref, level: nat, n: int)
    requires GcOk(strHash, s) && ClosingTo(s.h, k, t, s.cw, level, n) && t in k && k[t].body.Thread?
    requires k[t].body.open != [] ==> k[t].body.open[0] in k && k[k[t].body.open[0]].body.OpenUpval?
    requires k[t].body.open != [] ==> k[k[t].body.open[0]].body.level < level
    ensures AllClosed(s.h, k, t, s.cw, level) && FreedDead(s.h, k, s.cw)
  {
    hide GcOk, FreedDead, Removed, OpenListOk, AllClosed;
    RemovedBody(s.h, k, t, s.cw, n);
    ThreadList(strHash, s, t);
    if n < |s.h[t].body.open| { HeadLevel(s.h, k, t, s.cw, n); }
    AllAbove(strHash, s, k, t, level, n);
  }

  /** The list is in descending order of levels, so the first below the level
      ends the search. */
  lemma AllAbove(strHash: nat -> nat, s: State, k: Heap, t: Ref, level: nat, n: int)
    requires GcOk(strHash, s) && Removed(s.h, k, t, s.cw, n)
    requires 0 <= n <= |s.h[t].body.open|
    requires n == |s.h[t].body.open| || Level(s.h, s.h[t].body.open[n]) < level
    requires forall i :: 0 <= i < n ==> Level(s.h, s.h[t].body.open[i]) >= level
    ensures AllClosed(s.h, k, t, s.cw, level)
  {
    hide StringsOk, Interned, RootOk, UdataOk, PhaseOk, LiveClosed, RootsLive, LevelsOk;
    var open := s.h[t].body.open;
    assert OpenListOk(s.h, t);
    OpenNoDup(s.h, open);
    forall u | u in s.h && s.h[u].body.OpenUpval? && s.h[u].body.thread == t
      ensures if s.h[u].body.level >= level then Gone(s.h, k, t, s.cw, u)
            else u in k && k[u].body == s.h[u].body && u in k[t].body.open
    {
      assert OpenedOk(s.h, u);
      hide Structure, GcOk, OpenListOk;
      OneAbove(s.h, k, t, s.cw, level, n, u);
    }
    hide Structure, GcOk, Gone;
    forall x | x in s.h && x != t && !(s.h[x].body.OpenUpval? && s.h[x].body.thread == t) ensures x !in open[..n] { }
  }

  lemma OneAbove(h: Heap, k: Heap, t: Ref, cw: bool, level: nat, n: int, u: Ref)
    requires Removed(h, k, t, cw, n) && Descending(h, h[t].body.open) && NoDup(h[t].body.open)
    requires n == |h[t].body.open| || Level(h, h[t].body.open[n]) < level
    requires forall i :: 0 <= i < n ==> Level(h, h[t].body.open[i]) >= level
    requires u in h && h[u].body.OpenUpval? && u in h[t].body.open && u != t
    ensures if h[u].body.level >= level then Gone(h, k, t, cw, u)
          else u in k && k[u].body == h[u].body && u in k[t].body.open
  {
    var open := h[t].body.open;
    var i :| 0 <= i < |open| && open[i] == u;
    if i < n { assert Gone(h, k, t, cw, open[i]); }
    else {
      assert Level(h, open[i]) <= Level(h, open[n]);
      assert open[i] == open[n..][i - n];
      assert u !in open[..n];
    }
  }

  /** A live open upvalue is white of the present kind or, until swept, gray. */
  lemma UpvalColor(strHash: nat -> nat, s: State, u: Ref)
    requires CoreOk(strHash, s) && PhaseOk(s) && u in s.h && s.h[u].body.OpenUpval? && Live(s.h, s.cw, u)
    ensures s.h[u].color == White(s.cw) || s.h[u].color == Gray
  {
    hide LevelsOk, LiveClosed, RootsLive;
    assert !s.h[u].fixed by { hide StringsOk, Interned, UdataOk, UpvalsOk; MainThere(s.h, s.ls.root, s.main); }
    hide Structure;
  }

  lemma GcCore(strHash: nat -> nat, s: State)
    requires GcOk(strHash, s)
    ensures CoreOk(strHash, s) && PhaseOk(s)
  {
    hide Structure, LevelsOk, LiveClosed, RootsLive, ColorsOk, PhaseOk;
  }

  function Begun(s: State, h: Heap, gray: seq<Ref>): State {
    s.(h := h, gl := GrayLists(gray, [], []), phase := Propagate)
  }

  /** A cycle has begun. */
  lemma CycleBegun(strHash: nat -> nat, s0: State, h: Heap, gray: seq<Ref>, called: set<Ref>, n: Ref)
    requires GcOk(strHash, s0) && (s0.phase == Pause || s0.phase == Finalize)
          && FinOk(s0.h, s0.ls.udata, s0.ls.tmu, called, n)
    requires ColorsOk(h) && Listed(h, GrayLists(gray, [], [])) && Covered(h, ToSet(s0.ls.tmu) + ToSet(gray), {})
    requires Grown(s0.h, h) && Marked(h, s0.main) && MarkedValue(h, s0.registry)
    ensures GcOk(strHash, Begun(s0, h, gray)) && Onward(s0.h, h) && FinOk(h, s0.ls.udata, s0.ls.tmu, called, n)
  {
    var s := Begun(s0, h, gray);
    hide Grown, ColorsOk, Listed, Covered, Structure, LevelsOk, NoneOther, GcOk, FinOk, FinSame, Onward, RootsLive,
          LiveClosed, NoDangling, MainRefers;
    CycleStart(strHash, s0);
    GrownStructure(strHash, s0.h, s.h, s0.ls, s0.main, s0.cw);
    GrownOnward(s0.h, s.h);
    FinKept(s0.h, s.h, s0.ls.udata, s0.ls.tmu, called, n);
    CycleStarted(strHash, s0, s);
  }

  /** The first userdata that waits may be taken back. */
  lemma TakenOk(strHash: nat -> nat, s: State, called: set<Ref>, n: Ref)
    requires GcOk(strHash, s) && s.phase == Finalize && s.ls.tmu != [] && FinOk(s.h, s.ls.udata, s.ls.tmu, called, n)
    ensures Structure(strHash, s.h, s.ls, s.main)
    ensures var u := s.ls.tmu[0];
            && u in s.h && s.h[u].body.Udata? && s.h[u].bit3 && u !in called && u !in s.ls.tmu[1..]
            && GcOk(strHash, s.(h := Painted(s.h, u, White(s.cw)),
                  ls := s.ls.(udata := [u] + s.ls.udata, tmu := s.ls.tmu[1..])))
            && FinOk(Painted(s.h, u, White(s.cw)), [u] + s.ls.udata, s.ls.tmu[1..], called, n)
  {
    hide CoreOk, FinOk, PhaseOk, Structure, Painted;
    assert Structure(strHash, s.h, s.ls, s.main);
    hide GcOk;
    GcCore(strHash, s);
    TmuHead(strHash, s);
    TakenBack(strHash, s);
    TakenFin(s.h, s.ls.udata, s.ls.tmu, called, n, White(s.cw));
    var u := s.ls.tmu[0];
    CoreGc(strHash, s.(h := Painted(s.h, u, White(s.cw)),
          ls := s.ls.(udata := [u] + s.ls.udata, tmu := s.ls.tmu[1..])));
  }

  function Restart(s: State): State {
    s.(gl := GrayLists([], [], []), phase := SweepString, pos := 0, strPos := 0)
  }

  lemma RestartedGc(strHash: nat -> nat, s: State)
    requires GcOk(strHash, s) && (s.phase == Pause || s.phase == Propagate)
    ensures GcOk(strHash, Restart(s))
  {
    hide GcOk, CoreOk, PhaseOk;
    GcCore(strHash, s);
    Restarted(strHash, s, Restart(s));
  }

  ghost function WithClosed(s: State, t: Ref, u: Ref, i: nat, c: Color): State
    requires t in s.h && s.h[t].body.Thread? && s.h[t].body.open != [] && u in s.h && s.h[u].body.OpenUpval?
          && i < |s.ls.upvals|
  {
    s.(h := Closed(s.h, t, u, c), ls := s.ls.(root := [u] + s.ls.root, upvals := Without(s.ls.upvals, i)),
       pos := if s.pos == 0 then 0 else s.pos + 1)
  }

  lemma RootMoved(strHash: nat -> nat, s: State, t: Ref, u: Ref, i: nat, c: Color, called: set<Ref>, n: Ref)
    requires CoreOk(strHash, s) && t in s.h && s.h[t].body.Thread? && s.h[t].body.open != [] && s.h[t].body.open[0] == u
    requires i < |s.ls.upvals| && s.ls.upvals[i] == u && Live(s.h, s.cw, u) && c != White(!s.cw) && c != Gray
    requires FinOk(s.h, s.ls.udata, s.ls.tmu, called, n)
    ensures u in s.h && s.h[u].body.OpenUpval? && u != t && CoreOk(strHash, WithClosed(s, t, u, i, c))
    ensures ClosedWell(s.h, Closed(s.h, t, u, c), t, u, s.cw)
          && FinOk(Closed(s.h, t, u, c), s.ls.udata, s.ls.tmu, called, n)
    ensures forall x :: x in s.ls.upvals ==> x == u || x in Without(s.ls.upvals, i)
  {
    hide CoreOk, FinOk, Closed, ClosedWell, FinSame;
    CloseCore(strHash, s, t, u, i, c);
    ClosedAll(s.h, t, u, c, s.cw);
    FinKept(s.h, Closed(s.h, t, u, c), s.ls.udata, s.ls.tmu, called, n);
    UpvalsLeft(s.ls.upvals, i);
    var s' := s.(h := Closed(s.h, t, u, c), ls := s.ls.(root := [u] + s.ls.root, upvals := Without(s.ls.upvals, i)));
    CorePos(strHash, s', WithClosed(s, t, u, i, c));
  }

  lemma HeadReady(strHash: nat -> nat, s: State, t: Ref, u: Ref)
    requires GcOk(strHash, s) && t in s.h && s.h[t].body.Thread? && s.h[t].body.open != [] && u == s.h[t].body.open[0]
          && Live(s.h, s.cw, u)
    ensures s.h[u].body.OpenUpval? && s.h[u].body.thread == t && u != t
    ensures (s.h[u].color == White(s.cw) || s.h[u].color == Gray)
          && LiveValue(s.h, s.cw, SlotValue(s.h, t, s.h[u].body.level))
    ensures u in s.ls.upvals
  {
    hide GcOk, CoreOk, PhaseOk;
    GcCore(strHash, s);
    OpenThere(strHash, s, t, 0);
    UpvalColor(strHash, s, u);
    SlotLive(strHash, s, u);
  }

  /** Only a barrier may be missing once the upvalue is closed. */
  lemma HeadClosed(strHash: nat -> nat, s0: State, t: Ref, u: Ref, c: Color, s: State)
    requires GcOk(strHash, s0) && t in s0.h && s0.h[t].body.Thread? && s0.h[t].body.open != [] && u in s0.h
    requires s0.h[u].body.OpenUpval? && s0.h[u].body.thread == t && u != t && u in s0.ls.upvals
    requires s.h == Closed(s0.h, t, u, c) && s.cw == s0.cw && s.phase == s0.phase && s.gl == s0.gl
          && s.strPos == s0.strPos
    requires s.main == s0.main && s.running == s0.running && s.registry == s0.registry && s.mt == s0.mt
    requires s.ls.root == [u] + s0.ls.root && s.ls.udata == s0.ls.udata && s.ls.strt == s0.ls.strt
          && s.ls.tmu == s0.ls.tmu
    requires (forall x :: x in s0.ls.upvals ==> x == u || x in s.ls.upvals)
          && s.pos == if s0.pos == 0 then 0 else s0.pos + 1
    requires if s0.phase == Propagate then c.White? == s0.h[u].color.White? && c != White(!s0.cw) else c == White(s0.cw)
    ensures var v := SlotValue(s0.h, t, s0.h[u].body.level);
            && (if s.phase == Propagate then MarkingBut(s, u, v, Nil) else PhaseOk(s))
            && s.h[u].body == ClosedUpval(v) && s.h[u].color == c
  {
    hide GcOk, CoreOk, PhaseOk, MarkingOk, MarkingBut, Closed;
    GcCore(strHash, s0);
    ClosedMarks(s0.h, t, u, c);
    if s.phase == Propagate {
      PhaseMarking(s0);
      ClosedMarking(s0, t, u, c, s.ls);
      MarkingPos(s0.(h := s.h, ls := s.ls), s, u, SlotValue(s0.h, t, s0.h[u].body.level), Nil);
    } else {
      ClosedPhase(strHash, s0, t, u, c, s.ls, s.pos);
    }
  }

  /** One more userdata has had its turn. */
  lemma RanMore(hasGc: Body -> bool, h: Heap, k: Heap, all: seq<Ref>, n: nat, u: Ref)
    requires SameBodies(h, k) && 0 < n <= |all| && all[n - 1] == u
    ensures WithFinalizer(hasGc, h, all[..n])
            == WithFinalizer(hasGc, h, all[..n - 1]) + if HasFinalizer(hasGc, k, u) then [u] else []
  {
    hide HasFinalizer, SameBodies, WithFinalizer;
    SameFinalizer(hasGc, h, k, u);
    FinalizerNext(hasGc, h, all, n);
  }

  ghost function WithAgain(s: State, t: Ref): State
    requires t in s.h
  {
    s.(h := Painted(s.h, t, Gray), gl := s.gl.(again := [t] + s.gl.again))
  }

  /** A black table that gets a white value is to be traversed again. */
  lemma BackAgain(strHash: nat -> nat, s: State, t: Ref, v: Value, w: Value)
    requires CoreOk(strHash, s) && t in s.h && s.h[t].body.Table? && s.h[t].color.Black?
    requires if s.phase == Propagate then MarkingBut(s, t, v, w) else PhaseOk(s)
    ensures GcOk(strHash, WithAgain(s, t))
  {
    hide CoreOk, PhaseOk, MarkingBut, MarkingOk, GcOk;
    if s.phase == Propagate {
      BackMarking(s, t, v, w);
      PhaseMarking(WithAgain(s, t));
    } else {
      BlackTable(strHash, s, t);
      BackPhase(s, t, s.gl.(again := [t] + s.gl.again));
    }
    BackCore(strHash, s, t, s.gl.(again := [t] + s.gl.again));
    CoreGc(strHash, WithAgain(s, t));
  }

  lemma BackNone(strHash: nat -> nat, s: State, t: Ref, v: Value, w: Value)
    requires CoreOk(strHash, s) && t in s.h && s.h[t].body.Table?
    requires if s.phase == Propagate then MarkingBut(s, t, v, w) else PhaseOk(s)
    requires LiveValue(s.h, s.cw, v) && LiveValue(s.h, s.cw, w)
    requires !(s.h[t].color.Black? && ((v.Ptr? && s.h[v.r].color.White?) || (w.Ptr? && s.h[w.r].color.White?)))
    ensures GcOk(strHash, s)
  {
    hide CoreOk, PhaseOk, MarkingBut, MarkingOk, GcOk;
    if s.phase == Propagate {
      if s.h[t].color.Gray? {
        MarkingButListed(s, t, v, w);
        GrayPending(strHash, s, t);
      }
      NoBarrier(s, t, v, w);
      PhaseMarking(s);
    }
    CoreGc(strHash, s);
  }

  lemma FirstTaken(strHash: nat -> nat, h: Heap, ls: Lists, main: Ref, c: Color)
    requires Structure(strHash, h, ls, main) && ls.tmu != []
    ensures ls.tmu[0] in h
    ensures Structure(strHash, Painted(h, ls.tmu[0], c), ls.(udata := [ls.tmu[0]] + ls.udata, tmu := ls.tmu[1..]), main)
  {
    assert ls.tmu[0] in h by { hide StringsOk, Interned, RootOk, UpvalsOk; }
    hide Structure, Frame, SameFrames;
    var k := Painted(h, ls.tmu[0], c);
    assert Recolored(h, k);
    RecoloredFrames(h, k);
    FramesStructure(strHash, h, k, ls, main);
    TakeBack(strHash, k, ls, main);
  }

  /** Those of us that have a finalizer. */
  function WithFinalizer(hasGc: Body -> bool, h: Heap, us: seq<Ref>): seq<Ref> {
    if us == [] then []
    else WithFinalizer(hasGc, h, us[..|us| - 1]) + if HasFinalizer(hasGc, h, us[|us| - 1]) then [us[|us| - 1]] else []
  }

  lemma NoneRan(hasGc: Body -> bool, h: Heap)
    ensures WithFinalizer(hasGc, h, []) == []
  {
  }

  lemma SameFinalizer(hasGc: Body -> bool, h: Heap, k: Heap, u: Ref)
    requires SameBodies(h, k)
    ensures HasFinalizer(hasGc, k, u) == HasFinalizer(hasGc, h, u)
  {
  }

  lemma BodiesTwice(h: Heap, k: Heap, l: Heap)
    requires SameBodies(h, k) && SameBodies(k, l)
    ensures SameBodies(h, l)
  {
  }

  lemma FinalizerNext(hasGc: Body -> bool, h: Heap, us: seq<Ref>, n: nat)
    requires 0 < n <= |us|
    ensures WithFinalizer(hasGc, h, us[..n])
            == WithFinalizer(hasGc, h, us[..n - 1]) + if HasFinalizer(hasGc, h, us[n - 1]) then [us[n - 1]] else []
  {
    assert us[..n][..n - 1] == us[..n - 1];
  }

  lemma {:induction false} FinalizersJoin(hasGc: Body -> bool, h: Heap, k: Heap, us: seq<Ref>, i: nat, j: nat)
    requires SameBodies(h, k) && i <= j <= |us|
    ensures WithFinalizer(hasGc, h, us[..j]) == WithFinalizer(hasGc, h, us[..i]) + WithFinalizer(hasGc, k,
          us[i..][..j - i])
    decreases j
  {
    hide HasFinalizer;
    if i < j {
      FinalizersJoin(hasGc, h, k, us, i, j - 1);
      FinalizerNext(hasGc, h, us, j);
      FinalizerNext(hasGc, k, us[i..], j - i);
      SameFinalizer(hasGc, h, k, us[j - 1]);
    } else {
      assert us[i..][..0] == [];
    }
  }

  lemma {:induction false} FinalizersAll(hasGc: Body -> bool, h: Heap, us: seq<Ref>)
    ensures forall u :: u in WithFinalizer(hasGc, h, us) <==> u in us && HasFinalizer(hasGc, h, u)
    ensures NoDup(us) ==> NoDup(WithFinalizer(hasGc, h, us))
    decreases |us|
  {
    hide HasFinalizer;
    if us != [] {
      var n := |us| - 1;
      FinalizersAll(hasGc, h, us[..n]);
      assert us == us[..n] + [us[n]];
      if NoDup(us) { assert us[n] !in us[..n]; }
    }
  }

  lemma {:induction false} FinalizersDescend(hasGc: Body -> bool, h: Heap, us: seq<Ref>)
    requires Descends(us)
    ensures Descends(WithFinalizer(hasGc, h, us))
    decreases |us|
  {
    hide HasFinalizer;
    if us != [] {
      var n := |us| - 1;
      FinalizersDescend(hasGc, h, us[..n]);
      FinalizersAll(hasGc, h, us[..n]);
      var w := WithFinalizer(hasGc, h, us[..n]);
      forall i | 0 <= i < |w| ensures w[i] > us[n] { assert w[i] in w && w[i] in us[..n]; }
    }
  }

  lemma FinalizersSplit(hasGc: Body -> bool, h: Heap, all: seq<Ref>, n: nat)
    requires n <= |all|
    ensures WithFinalizer(hasGc, h, all) == WithFinalizer(hasGc, h, all[..n]) + WithFinalizer(hasGc, h, all[n..])
  {
    hide WithFinalizer;
    SameBodiesRefl(h);
    FinalizersJoin(hasGc, h, h, all, n, |all|);
    assert all[..|all|] == all && all[n..][..|all| - n] == all[n..];
  }

  lemma {:induction false} FinalizersSame(hasGc: Body -> bool, h: Heap, k: Heap, us: seq<Ref>)
    requires SameBodies(h, k)
    ensures WithFinalizer(hasGc, k, us) == WithFinalizer(hasGc, h, us)
    decreases |us|
  {
    hide HasFinalizer, SameBodies;
    if us != [] {
      FinalizersSame(hasGc, h, k, us[..|us| - 1]);
      SameFinalizer(hasGc, h, k, us[|us| - 1]);
    }
  }

  /** The finalizers of those set apart before come first, then those of the others in order. */
  lemma FinalizersInOrder(hasGc: Body -> bool, h: Heap, k: Heap, first: seq<Ref>, all: seq<Ref>)
    requires OnlyFinalized(h, k) && |first| <= |all| && all[..|first|] == first && Descends(all[|first|..])
    ensures var w := WithFinalizer(hasGc, h, first);
            && |w| <= |WithFinalizer(hasGc, k, all)| && WithFinalizer(hasGc, k, all)[..|w|] == w
            && Descends(WithFinalizer(hasGc, k, all)[|w|..])
  {
    FinalizedBodies(h, k);
    hide WithFinalizer, Descends, OnlyFinalized, SameBodies;
    FinalizersSplit(hasGc, k, all, |first|);
    FinalizersSame(hasGc, h, k, first);
    FinalizersDescend(hasGc, k, all[|first|..]);
    var w, late := WithFinalizer(hasGc, h, first), WithFinalizer(hasGc, k, all[|first|..]);
    assert (w + late)[..|w|] == w && (w + late)[|w|..] == late;
  }

  lemma FinalizedBodies(h: Heap, k: Heap)
    requires OnlyFinalized(h, k)
    ensures SameBodies(h, k)
  {
  }

  lemma ClosingLists(strHash: nat -> nat, s: State, called: set<Ref>, n: Ref)
    requires GcOk(strHash, s) && FinOk(s.h, s.ls.udata, s.ls.tmu, called, n)
    ensures Structure(strHash, s.h, s.ls, s.main) && NewestFirst(s.h, s.ls.udata)
  {
    hide Structure;
  }

  lemma AllDistinct(strHash: nat -> nat, h: Heap, ls: Lists, main: Ref)
    requires Structure(strHash, h, ls, main)
    ensures NoDup(ls.tmu)
  {
    hide StringsOk, Interned, RootOk, UpvalsOk;
    var all := ls.udata + ls.tmu;
    forall i, j | 0 <= i < j < |ls.tmu| ensures ls.tmu[i] != ls.tmu[j] {
      assert all[|ls.udata| + i] != all[|ls.udata| + j];
    }
  }

  /** Only the last of the finalizers run can have raised an error, and has if they ended with one. */
  predicate EndsAtError(raises: Ref -> bool, ran: seq<Ref>, failed: bool) {
    && (failed ==> ran != []) && forall i :: 0 <= i < |ran| ==> raises(ran[i]) == (failed && i == |ran| - 1)
  }

  lemma AllUncalled(hasGc: Body -> bool, s: State, all: seq<Ref>, called: set<Ref>, n: Ref)
    requires FinOk(s.h, s.ls.udata, s.ls.tmu, called, n) && |s.ls.tmu| <= |all| && all[..|s.ls.tmu|] == s.ls.tmu
    requires forall u :: u in all[|s.ls.tmu|..] ==> ToFinalize(hasGc, s.h, u, true)
    ensures forall u :: u in all ==> u !in called
  {
    forall u | u in all ensures u !in called {
      assert all == s.ls.tmu + all[|s.ls.tmu|..];
    }
  }

  lemma AllFinalized(hasGc: Body -> bool, h: Heap, k: Heap, ls: Lists, all: seq<Ref>)
    requires OnlyFinalized(h, k) && |ls.tmu| <= |all| && all[..|ls.tmu|] == ls.tmu
    requires forall u :: u in all[|ls.tmu|..] <==> u in ls.udata && ToFinalize(hasGc, h, u, true)
    ensures forall u :: u in ls.udata && ToFinalize(hasGc, h, u, true) ==> u in all && HasFinalizer(hasGc, k, u)
    ensures forall u :: u in ls.tmu && HasFinalizer(hasGc, h, u) ==> u in all && HasFinalizer(hasGc, k, u)
  {
    assert all == ls.tmu + all[|ls.tmu|..];
  }

  lemma CoreGc(strHash: nat -> nat, s: State)
    requires CoreOk(strHash, s) && PhaseOk(s)
    ensures GcOk(strHash, s)
  {
    hide Structure, LevelsOk, LiveClosed, RootsLive, ColorsOk, PhaseOk;
  }

  lemma UpvalsLeft(s: seq<Ref>, i: nat)
    requires i < |s|
    ensures forall x :: x in s ==> x == s[i] || x in Without(s, i)
  {
    var w := Without(s, i);
    forall x | x in s && x != s[i] ensures x in w {
      var j :| 0 <= j < |s| && s[j] == x;
      assert w[if j < i then j else j - 1] == x;
    }
  }

  // ----- Facts about sweeping -----

  lemma SweepView(strHash: nat -> nat, s: State)
    requires GcOk(strHash, s) && s.phase == Sweep
    ensures CoreOk(strHash, s) && SweepRest(s) && s.pos <= |s.ls.root| + |s.ls.udata| && s.strPos == |s.ls.strt|
  {
    hide Structure, LiveClosed, LevelsOk, RootsLive, Todo;
    RestAllWhite(s);
  }

  lemma SweepGc(strHash: nat -> nat, s: State)
    requires CoreOk(strHash, s) && SweepRest(s) && s.phase == Sweep && s.pos <= |s.ls.root| + |s.ls.udata|
          && s.strPos == |s.ls.strt|
    ensures GcOk(strHash, s)
  {
    hide Structure, LiveClosed, LevelsOk, RootsLive, Todo;
    RestAllWhite(s);
  }

  lemma NoneOpen(h: Heap, r: Ref, cw: bool)
    requires forall u :: u in h && h[u].body.OpenUpval? ==> h[u].body.thread != r
    ensures OpenWhite(h, cw, r)
  {
  }

  lemma WhiteOpen(h: Heap, r: Ref, cw: bool)
    requires OpenWhite(h, cw, r) && r in h
    ensures var k := Painted(h, r, White(cw));
            forall u :: u in k && k[u].body.OpenUpval? && k[u].body.thread == r ==> k[u].color == White(cw)
  {
  }

  lemma NoneLeft(strHash: nat -> nat, s: State, h: Heap, t: Ref)
    requires GcOk(strHash, s) && AllClosed(h, s.h, t, s.cw, 0)
    ensures t in s.h && s.h[t].body.Thread? && s.h[t].body.open == []
  {
    if s.h[t].body.open != [] {
      OpenHead(strHash, s, t);
      ThreadList(strHash, s, t);
      NotLeft(h, s.h, t, s.cw, s.h[t].body.open[0]);
    }
  }

  lemma NotLeft(h: Heap, k: Heap, t: Ref, cw: bool, u: Ref)
    requires AllClosed(h, k, t, cw, 0) && u in k && k[u].body.OpenUpval? && u != t
    ensures k[u].body.thread != t
  {
    assert h[u].body.OpenUpval? && h[u].body.thread == t ==> Gone(h, k, t, cw, u);
  }

  lemma SamePlace(a: Lists, posA: nat, b: Lists, posB: nat, place: nat)
    requires Shifted(a.root, posA, b.root, posB) && b.udata == a.udata && posA < |a.root| + |a.udata|
          && place == posA + |b.root| - |a.root|
    ensures posB <= place < |b.root| + |b.udata| && At(b, place) == At(a, posA)
  {
    if posA < |a.root| { assert b.root[|b.root| - |a.root|..][posA] == b.root[place]; }
  }

  lemma WithoutSize(s: seq<Ref>, i: nat)
    requires i < |s|
    ensures |Without(s, i)| == |s| - 1
  {
  }

  lemma ShiftedSize(r0: seq<Ref>, p0: nat, r: seq<Ref>, p: nat)
    requires Shifted(r0, p0, r, p)
    ensures |r0| <= |r| && p == if p0 == 0 then 0 else p0 + |r| - |r0|
  {
  }

  lemma WithoutFin(h: Heap, i: nat, udata: seq<Ref>, tmu: seq<Ref>, called: set<Ref>, n: Ref)
    requires FinOk(h, udata, tmu, called, n) && i < |udata|
    ensures FinOk(h, Without(udata, i), tmu, called, n)
  {
    var w := Without(udata, i);
    assert forall j :: 0 <= j < |w| ==> w[j] == udata[if j < i then j else j + 1];
  }

  /** Only dead objects have gone, and none has become dead. */
  ghost predicate FreedDead(h: Heap, k: Heap, cw: bool) {
    && (forall r :: r in h && r !in k ==> Dead(h, cw, r))
    && (forall r :: r in k && Dead(k, cw, r) ==> r in h && Dead(h, cw, r))
  }

  lemma FreedTrans(h: Heap, k: Heap, l: Heap, cw: bool)
    requires FreedDead(h, k, cw) && FreedDead(k, l, cw)
    ensures FreedDead(h, l, cw)
  {
  }

  lemma FreedRefl(h: Heap, cw: bool)
    ensures FreedDead(h, h, cw)
  {
  }

  ghost predicate OpenWhite(h: Heap, cw: bool, t: Ref) {
    forall u :: u in h && h[u].body.OpenUpval? && h[u].body.thread == t ==> h[u].color == White(cw)
  }

  lemma AllOpenWhite(strHash: nat -> nat, s: State, t: Ref)
    requires CoreOk(strHash, s) && t in s.h && s.h[t].body.Thread?
    requires forall i :: 0 <= i < |s.h[t].body.open| ==>
          s.h[t].body.open[i] in s.h && s.h[s.h[t].body.open[i]].color == White(s.cw)
    ensures OpenWhite(s.h, s.cw, t)
  {
    hide StringsOk, Interned, RootOk, UdataOk;
    forall u | u in s.h && s.h[u].body.OpenUpval? && s.h[u].body.thread == t ensures s.h[u].color == White(s.cw) {
      assert OpenedOk(s.h, u);
    }
  }

  lemma OpenThere(strHash: nat -> nat, s: State, t: Ref, j: nat)
    requires CoreOk(strHash, s) && t in s.h && s.h[t].body.Thread? && j < |s.h[t].body.open|
    ensures var u := s.h[t].body.open[j];
            u in s.h && s.h[u].body.OpenUpval? && s.h[u].body.thread == t && u != t && u in s.ls.upvals
  {
    hide StringsOk, Interned, RootOk, UdataOk;
    assert OpenListOk(s.h, t) && s.h[t].body.open[j] in s.h[t].body.open;
  }

  lemma OpenStay(strHash: nat -> nat, s: State, h: Heap, k: Heap, t: Ref, j: nat, u: Ref, cw: bool)
    requires t in h && h[t].body.Thread? && j < |h[t].body.open| && u == h[t].body.open[j] && u != t && u in h
    requires k == Dropped(Unlinked(h, t, j), u) && s.h == k && CoreOk(strHash, s)
    requires forall i :: 0 <= i < j ==> h[t].body.open[i] in h && h[h[t].body.open[i]].color == White(cw)
    requires h[u].color == White(!cw) && t in k && k[t] == WithOpen(h[t], Without(h[t].body.open, j))
    ensures |k[t].body.open| == |h[t].body.open| - 1
    ensures forall i :: 0 <= i < j ==> k[t].body.open[i] in k && k[k[t].body.open[i]].color == White(cw)
  {
    hide CoreOk;
    forall i | 0 <= i < j ensures k[t].body.open[i] == h[t].body.open[i] && h[t].body.open[i] != u { }
  }

  lemma FreedUpval(h: Heap, k: Heap, cw: bool, t: Ref, j: nat, u: Ref)
    requires FreedDead(h, k, cw) && Dead(k, cw, u) && t in k && k[t].body.Thread? && j < |k[t].body.open|
    ensures FreedDead(h, Dropped(Unlinked(k, t, j), u), cw)
  {
  }

  lemma UnlinkedFin(h: Heap, t: Ref, j: nat, r: Ref, udata: seq<Ref>, tmu: seq<Ref>, called: set<Ref>, n: Ref)
    requires t in h && h[t].body.Thread? && j < |h[t].body.open| && FinOk(h, udata, tmu, called, n)
    ensures FinOk(Dropped(Unlinked(h, t, j), r), udata, tmu, called, n)
  {
    assert FinSame(h, Dropped(Unlinked(h, t, j), r));
    hide FinSame;
    FinKept(h, Dropped(Unlinked(h, t, j), r), udata, tmu, called, n);
  }

  lemma FreedMore(h: Heap, k: Heap, cw: bool, r: Ref)
    requires FreedDead(h, k, cw) && Dead(k, cw, r)
    ensures FreedDead(h, Dropped(k, r), cw)
  {
  }

  lemma FreedSame(h: Heap, k: Heap, cw: bool, r: Ref)
    requires FreedDead(h, k, cw) && Live(k, cw, r)
    ensures FreedDead(h, Painted(k, r, White(cw)), cw)
  {
  }

  // ----- What a sweep leaves -----

  /** What an object holds, an open upvalue being taken as closed. */
  function Contents(h: Heap, r: Ref): Body
    requires r in h
  {
    match h[r].body
    case OpenUpval(t, l) => ClosedUpval(SlotValue(h, t, l))
    case Thread(g, stack, _) => Thread(g, stack, [])
    case b => b
  }

  /** No dead object has become live, none is new, and bits other than the colour are kept. */
  ghost predicate Unrevived(h: Heap, k: Heap, cw: bool) {
    forall r :: r in k ==>
          r in h && (Dead(h, cw, r) ==> Dead(k, cw, r)) && k[r].fixed == h[r].fixed && k[r].bit3 == h[r].bit3
  }

  lemma UnrevivedRefl(h: Heap, cw: bool)
    ensures Unrevived(h, h, cw)
  {
  }

  lemma UnrevivedTrans(h: Heap, k: Heap, l: Heap, cw: bool)
    requires Unrevived(h, k, cw) && Unrevived(k, l, cw)
    ensures Unrevived(h, l, cw)
  {
    hide Dead;
  }

  lemma UnrevivedClosed(h: Heap, t: Ref, u: Ref, c: Color, cw: bool)
    requires t in h && h[t].body.Thread? && h[t].body.open != [] && u in h && h[u].body.OpenUpval? && u != t
          && Live(h, cw, u)
    ensures Unrevived(h, Closed(h, t, u, c), cw)
  {
    hide Without;
  }

  lemma UnrevivedUpval(h: Heap, t: Ref, j: nat, u: Ref, cw: bool)
    requires t in h && h[t].body.Thread? && j < |h[t].body.open|
    ensures Unrevived(h, Dropped(Unlinked(h, t, j), u), cw)
  {
    hide Without;
  }

  lemma UnrevivedPainted(h: Heap, cw: bool, r: Ref)
    requires Live(h, cw, r)
    ensures Unrevived(h, Painted(h, r, White(cw)), cw)
  {
  }

  lemma UnrevivedDropped(h: Heap, cw: bool, r: Ref)
    ensures Unrevived(h, Dropped(h, r), cw)
  {
  }

  /** Only dead objects have gone, none has become dead or live, and all that are left have
      their bits and hold what they held. */
  ghost predicate Swept(h: Heap, k: Heap, cw: bool) {
    && FreedDead(h, k, cw) && Unrevived(h, k, cw)
    && forall r :: r in k ==> r in h && Contents(k, r) == Contents(h, r)
  }

  lemma SweptFreed(h: Heap, k: Heap, cw: bool)
    requires Swept(h, k, cw)
    ensures FreedDead(h, k, cw)
  {
  }

  lemma SweptRefl(h: Heap, cw: bool)
    ensures Swept(h, h, cw)
  {
  }

  lemma SweptTrans(h: Heap, k: Heap, l: Heap, cw: bool)
    requires Swept(h, k, cw) && Swept(k, l, cw)
    ensures Swept(h, l, cw)
  {
    hide Contents, Dead;
  }

  lemma SweptSame(h: Heap, k: Heap, cw: bool, r: Ref)
    requires Swept(h, k, cw) && Live(k, cw, r)
    ensures Swept(h, Painted(k, r, White(cw)), cw)
  {
    FreedSame(h, k, cw, r);
    UnrevivedPainted(k, cw, r);
    UnrevivedTrans(h, k, Painted(k, r, White(cw)), cw);
    hide FreedDead, Unrevived;
    var l := Painted(k, r, White(cw));
    forall x | x in l ensures x in k && Contents(l, x) == Contents(k, x) { }
  }

  lemma SweptMore(h: Heap, k: Heap, cw: bool, r: Ref)
    requires Swept(h, k, cw) && Dead(k, cw, r) && forall u :: u in k && k[u].body.OpenUpval? ==> k[u].body.thread != r
    ensures Swept(h, Dropped(k, r), cw)
  {
    FreedMore(h, k, cw, r);
    UnrevivedDropped(k, cw, r);
    UnrevivedTrans(h, k, Dropped(k, r), cw);
    hide FreedDead, Unrevived;
    var l := Dropped(k, r);
    forall x | x in l ensures x in k && Contents(l, x) == Contents(k, x) { }
  }

  lemma SweptUpval(h: Heap, k: Heap, cw: bool, t: Ref, j: nat, u: Ref)
    requires Swept(h, k, cw) && Dead(k, cw, u) && t in k && k[t].body.Thread? && j < |k[t].body.open|
          && k[u].body.OpenUpval?
    requires forall x :: x in k && k[x].body.OpenUpval? ==> k[x].body.thread in k && k[k[x].body.thread].body.Thread?
    ensures Swept(h, Dropped(Unlinked(k, t, j), u), cw)
  {
    FreedUpval(h, k, cw, t, j, u);
    UnrevivedUpval(k, t, j, u, cw);
    UnrevivedTrans(h, k, Dropped(Unlinked(k, t, j), u), cw);
    hide FreedDead, Without, Unrevived;
    var l := Dropped(Unlinked(k, t, j), u);
    forall x | x in l ensures x in k && Contents(l, x) == Contents(k, x) { }
  }

  lemma SweptClosed(h: Heap, k: Heap, cw: bool, t: Ref)
    requires AllClosed(h, k, t, cw, 0) && FreedDead(h, k, cw) && Unrevived(h, k, cw)
    requires forall u :: u in k ==> u in h && UpvalueOf(k, u) == UpvalueOf(h, u)
    ensures Swept(h, k, cw)
  {
    hide FreedDead, Unrevived;
    forall x | x in k ensures x in h && Contents(k, x) == Contents(h, x) {
      if x in h && h[x].body.OpenUpval? && h[x].body.thread == t { assert Gone(h, k, t, cw, x); }
    }
  }

  /** All objects are still there and hold what they held; only object r may be new. */
  ghost predicate Kept(h: Heap, k: Heap, r: Ref) {
    k.Keys == h.Keys + {r} && Preserved(h, k)
  }

  /** What there was is still there and holds what it held, and no upvalue has been closed. */
  ghost predicate Preserved(h: Heap, k: Heap) {
    forall x :: x in h ==>
          x in k && Contents(k, x) == Contents(h, x) && (h[x].body.OpenUpval? ==> k[x].body == h[x].body)
  }

  lemma KeptBodies(h: Heap, k: Heap, r: Ref)
    requires SameBodies(h, k) && r in h
    ensures Kept(h, k, r) && k[r].body == h[r].body
  {
    assert forall x :: x in h ==> x in k && k[x].body == h[x].body;
    assert k.Keys == h.Keys + {r};
  }

  lemma KeptNew(h: Heap, r: Ref, o: GCObject)
    requires r !in h && !o.body.Thread? && forall u :: u in h && h[u].body.OpenUpval? ==> h[u].body.thread in h
    ensures Kept(h, h[r := o], r)
  {
  }

  lemma KeptUpval(h: Heap, t: Ref, r: Ref, o: GCObject, i: nat)
    requires t in h && h[t].body.Thread? && r !in h && i <= |h[t].body.open| && !o.body.Thread?
    requires forall u :: u in h && h[u].body.OpenUpval? ==> h[u].body.thread in h
    ensures Kept(h, WithUpval(h, t, r, o, i), r)
  {
  }

  /** Thread t has value v on top of its stack. */
  function Pushed(h: Heap, t: Ref, v: Value): Heap {
    if t in h && h[t].body.Thread? then
      h[t := h[t].(body := Thread(h[t].body.globals, h[t].body.stack + [v], h[t].body.open))]
    else h
  }

  /** The thread of an open upvalue. */
  lemma UpvalThreads(strHash: nat -> nat, s: State)
    requires CoreOk(strHash, s)
    ensures forall u :: u in s.h && s.h[u].body.OpenUpval? ==>
              s.h[u].body.thread in s.h && s.h[s.h[u].body.thread].body.Thread?
                    && s.h[s.h[u].body.thread].body.open != []
  {
    hide StringsOk, Interned, RootOk, UdataOk, LevelsOk, LiveClosed, RootsLive, ColorsOk;
    forall u | u in s.h && s.h[u].body.OpenUpval?
      ensures s.h[u].body.thread in s.h && s.h[s.h[u].body.thread].body.Thread?
            && s.h[s.h[u].body.thread].body.open != []
    {
      assert OpenedOk(s.h, u);
    }
  }

  lemma StringThere(strHash: nat -> nat, s: State, b: nat, i: nat)
    requires CoreOk(strHash, s) && b < |s.ls.strt| && i < |s.ls.strt[b]|
    ensures s.ls.strt[b][i] in s.h && s.h[s.ls.strt[b][i]].body.Str? && s.ls.strt[b][i] != s.main
    ensures Structure(strHash, s.h, s.ls, s.main) && NoDup(s.ls.strt[b])
  {
    hide Interned, UdataOk, UpvalsOk;
    MainThere(s.h, s.ls.root, s.main);
    assert s.ls.strt[b][i] in s.ls.strt[b];
  }

  lemma FreeString(strHash: nat -> nat, s: State, b: nat, i: nat)
    requires CoreOk(strHash, s) && SweepRest(s) && b < |s.ls.strt| && i < |s.ls.strt[b]|
          && Dead(s.h, s.cw, s.ls.strt[b][i])
    requires s.ls.strt[b][i] in s.h && s.h[s.ls.strt[b][i]].body.Str? && s.ls.strt[b][i] != s.main
          && NoDup(s.ls.strt[b])
    requires Structure(strHash, s.h, s.ls, s.main)
    ensures var s' := s.(h := Dropped(s.h, s.ls.strt[b][i]),
          ls := s.ls.(strt := s.ls.strt[b := Without(s.ls.strt[b], i)]));
            CoreOk(strHash, s') && SweepRest(s')
  {
    hide CoreOk, SweepRest, Structure, Without;
    var r := s.ls.strt[b][i];
    var ls := s.ls.(strt := s.ls.strt[b := Without(s.ls.strt[b], i)]);
    RemoveString(strHash, s.h, s.ls, s.main, b, i);
    NoThread(strHash, s, r);
    NotTmu(strHash, s, r);
    DropCore(strHash, s, r, ls);
    BucketTail(s.ls, s.pos, b, i);
    hide SameTail;
    DroppedRest(s, r, ls, s.pos);
    assert s.(h := Dropped(s.h, r), ls := ls, pos := s.pos) == s.(h := Dropped(s.h, r), ls := ls);
  }

  lemma BucketTail(ls: Lists, pos: nat, b: nat, i: nat)
    requires b < |ls.strt| && i < |ls.strt[b]| && NoDup(ls.strt[b])
    ensures SameTail(ls, pos, ls.(strt := ls.strt[b := Without(ls.strt[b], i)]), pos, ls.strt[b][i])
  {
    WithoutElements(ls.strt[b], i);
  }

  lemma DroppedRest(s: State, r: Ref, ls: Lists, pos: nat)
    requires SweepRest(s) && SameTail(s.ls, s.pos, ls, pos, r) && r in s.h
    requires forall u :: u in s.h && s.h[u].body.OpenUpval? ==> s.h[u].body.thread != r
    requires forall x :: x in s.ls.tmu ==> x != r && x in s.h
    ensures SweepRest(s.(h := Dropped(s.h, r), ls := ls, pos := pos))
  {
    hide SweepRest, SameTail;
    RestKept(s, Dropped(s.h, r), ls, pos, r);
  }

  lemma NotTmu(strHash: nat -> nat, s: State, r: Ref)
    requires CoreOk(strHash, s) && Dead(s.h, s.cw, r) && SweepRest(s)
    ensures forall x :: x in s.ls.tmu ==> x != r && x in s.h
  {
    hide Structure;
  }

  lemma WhitenOne(strHash: nat -> nat, s: State, r: Ref)
    requires CoreOk(strHash, s) && SweepRest(s) && Live(s.h, s.cw, r)
    ensures var s' := s.(h := Painted(s.h, r, White(s.cw))); CoreOk(strHash, s') && SweepRest(s')
  {
    hide CoreOk, SweepRest;
    WhitenCore(strHash, s, r);
    WhitenRest(s, r);
  }

  lemma WhitenRest(s: State, r: Ref)
    requires SweepRest(s) && r in s.h
    ensures SweepRest(s.(h := Painted(s.h, r, White(s.cw))))
  {
    var k := Painted(s.h, r, White(s.cw));
    forall x | x in k ensures k[x].color == White(s.cw) || x in s.ls.tmu || Unswept(k, s.ls, s.strPos, s.pos, x) {
      if x != r { assert Unswept(s.h, s.ls, s.strPos, s.pos, x) ==> Unswept(k, s.ls, s.strPos, s.pos, x); }
    }
  }

  lemma PaintedFin(h: Heap, r: Ref, c: Color, udata: seq<Ref>, tmu: seq<Ref>, called: set<Ref>, n: Ref)
    requires r in h && FinOk(h, udata, tmu, called, n)
    ensures FinOk(Painted(h, r, c), udata, tmu, called, n)
  {
    FinKept(h, Painted(h, r, c), udata, tmu, called, n);
  }

  lemma DroppedFin(h: Heap, r: Ref, udata: seq<Ref>, tmu: seq<Ref>, called: set<Ref>, n: Ref)
    requires FinOk(h, udata, tmu, called, n)
    ensures FinOk(Dropped(h, r), udata, tmu, called, n)
  {
    FinKept(h, Dropped(h, r), udata, tmu, called, n);
  }

  lemma OthersStay(h: Heap, r: Ref, s: seq<Ref>, i: nat, cw: bool)
    requires NoDup(s) && i < |s| && s[i] == r && forall j :: 0 <= j < i ==> s[j] in h && h[s[j]].color == White(cw)
    ensures var w := Without(s, i); forall j :: 0 <= j < i ==>
          w[j] in Dropped(h, r) && Dropped(h, r)[w[j]].color == White(cw)
  {
  }

  lemma BucketDone(strHash: nat -> nat, s: State, b: nat)
    requires CoreOk(strHash, s) && SweepRest(s) && s.strPos == b < |s.ls.strt|
    requires forall j :: 0 <= j < |s.ls.strt[b]| ==> s.ls.strt[b][j] in s.h && s.h[s.ls.strt[b][j]].color == White(s.cw)
    ensures CoreOk(strHash, s.(strPos := b + 1)) && SweepRest(s.(strPos := b + 1))
  {
    hide Structure, LiveClosed, ColorsOk, LevelsOk;
    forall x | x in s.h && x !in s.ls.tmu && s.h[x].color != White(s.cw)
      ensures Unswept(s.h, s.ls, b + 1, s.pos, x)
    {
      assert Unswept(s.h, s.ls, b, s.pos, x);
    }
  }

  lemma RemarkedCovered(h: Heap, k: Heap, gl: GrayLists, g': seq<Ref>, ls: Lists)
    requires Covered(h, Pending(ls, gl), {}) && gl.gray == [] && Advance(h, [], k, g', {})
    requires forall u :: u in ls.upvals && Marked(h, u) ==> u in k && Clean(k, u)
    ensures Covered(k, ToSet(gl.again) + ToSet(gl.weak) + ToSet(ls.tmu) + ToSet(g'), ToSet(gl.weak))
  {
    hide Clean, StrongClean;
    forall r | Marked(k, r) ensures r in ToSet(gl.again) + ToSet(gl.weak) + ToSet(ls.tmu) + ToSet(g') || Clean(k, r) {
      assert r in h;
      if Marked(h, r) {
        if Clean(h, r) { CleanKept(h, k, r); }
        else if r in AllGray(gl) { assert r in gl.again || r in gl.weak; }
      } else {
        assert NewlyMarked(h, k, r) && MarkedWell(k, g', r);
      }
    }
  }

  /** More has been marked; the invariants of marking have been kept. */
  lemma MarkedMore(h: Heap, gl: GrayLists, k: Heap, g': seq<Ref>, s: set<Ref>, w: set<Ref>)
    requires Advance(h, gl.gray, k, g', {}) && Listed(h, gl) && ColorsOk(h) && NoDangling(h)
    ensures Listed(k, gl.(gray := g')) && ColorsOk(k) && NoDangling(k) && Grown(h, k)
    ensures Covered(h, s + ToSet(gl.gray), w) ==> Covered(k, s + ToSet(g'), w)
    ensures forall v :: MarkedValue(h, v) ==> MarkedValue(k, v)
  {
    hide Listed, Covered, NoDangling, ColorsOk, Advance;
    AdvanceListed(h, gl, k, g');
    AdvanceColors(h, gl.gray, k, g');
    MarkStep0(h, gl.gray, k, g');
    AdvanceGrown(h, gl.gray, k, g');
    if Covered(h, s + ToSet(gl.gray), w) { AdvanceCovered(h, gl.gray, k, g', s, w); }
  }

  lemma SwapWeak(h: Heap, gl: GrayLists, again0: set<Ref>, weak0: set<Ref>, tmu: set<Ref>)
    requires gl.gray == [] && Listed(h, gl) && Covered(h, again0 + weak0 + tmu, ToSet(gl.weak))
          && weak0 <= ToSet(gl.weak)
    ensures Listed(h, GrayLists(gl.weak, gl.again, [])) && Covered(h, again0 + tmu + ToSet(gl.weak), {})
  {
    hide Listed, Covered;
    Moved(h, gl);
    CoveredMono(h, again0 + weak0 + tmu, ToSet(gl.weak), again0 + tmu + ToSet(gl.weak), {});
  }

  lemma SwapAgain(h: Heap, gl: GrayLists, again0: set<Ref>, tmu: set<Ref>)
    requires gl.gray == [] && Listed(h, gl) && Covered(h, again0 + tmu, ToSet(gl.weak)) && again0 <= ToSet(gl.again)
    ensures Listed(h, GrayLists(gl.again, [], gl.weak)) && Covered(h, tmu + ToSet(gl.again), ToSet(gl.weak))
  {
    hide Listed, Covered;
    Moved(h, gl);
    CoveredMono(h, again0 + tmu, ToSet(gl.weak), tmu + ToSet(gl.again), ToSet(gl.weak));
  }

  lemma OnlyFinalizedRefl(h: Heap)
    ensures OnlyFinalized(h, h)
  {
  }

  lemma UdataThere(strHash: nat -> nat, h: Heap, ls: Lists, main: Ref, i: nat)
    requires Structure(strHash, h, ls, main) && i < |ls.udata|
    ensures ls.udata[i] in h && h[ls.udata[i]].body.Udata?
  {
    hide StringsOk, Interned, RootOk, UpvalsOk;
  }

  lemma UdataSame(h: Heap, k: Heap, u: Ref)
    requires OnlyFinalized(h, k) && u in k
    ensures u in h && k[u].color == h[u].color && k[u].body == h[u].body
  {
  }

  lemma FinalizedBit(strHash: nat -> nat, h: Heap, k: Heap, ls: Lists, main: Ref, u: Ref)
    requires Structure(strHash, k, ls, main) && OnlyFinalized(h, k) && u in k && k[u].body.Udata?
    ensures var l := k[u := k[u].(bit3 := true)]; Structure(strHash, l, ls, main) && OnlyFinalized(h, l)
  {
    hide Structure;
    FinalizedFrames(k, u);
    FramesStructure(strHash, k, k[u := k[u].(bit3 := true)], ls, main);
  }

  /** How far the separation has come: the first i of udata stay, and sep have
      been taken out. */
  ghost predicate Separated(hasGc: Body -> bool, h: Heap, k: Heap, udata0: seq<Ref>, udata: seq<Ref>, i: nat,
        sep: seq<Ref>, all: bool) {
    Parted(hasGc, h, k, udata0, udata, i, sep, all) && BitsSet(h, k, udata, i, sep, all)
  }

  ghost predicate Parted(hasGc: Body -> bool, h: Heap, k: Heap, udata0: seq<Ref>, udata: seq<Ref>, i: nat,
        sep: seq<Ref>, all: bool) {
    && i <= |udata| && NewestFirst(k, udata) && Descends(sep)
    && (forall u :: u in sep ==> u in udata0 && ToFinalize(hasGc, h, u, all))
    && (forall j :: 0 <= j < i ==> udata[j] in udata0 && !ToFinalize(hasGc, h, udata[j], all))
    && (forall j :: i <= j < |udata| ==>
          && udata[j] in udata0 && udata[j] in h && udata[j] in k
          && k[udata[j]] == h[udata[j]] && h[udata[j]].body.Udata?)
    && (forall u :: u in udata0 ==> u in sep || u in udata)
    && (forall u, j :: u in sep && i <= j < |udata| && !h[udata[j]].bit3 ==> u > udata[j])
    && NoDup(udata)
  }

  /** Those passed are marked finalized that are white, or all; and no others. */
  ghost predicate BitsSet(h: Heap, k: Heap, udata: seq<Ref>, i: nat, sep: seq<Ref>, all: bool)
    requires i <= |udata|
  {
    && (forall r :: r in h && r in k && k[r].bit3 && h[r].body.Udata? ==> h[r].bit3 || h[r].color.White? || all)
    && (forall j :: 0 <= j < i ==>
          udata[j] in h && udata[j] in k && (h[udata[j]].color.White? || all ==> k[udata[j]].bit3))
    && (forall u :: u in sep ==> u in k && k[u].bit3)
  }

  /** A userdata is marked finalized exactly if it was before, or was white. */
  ghost predicate BitsWhite(h: Heap, k: Heap, all: bool) {
    forall u :: u in h && h[u].body.Udata? ==> u in k && k[u].bit3 == (h[u].bit3 || h[u].color.White? || all)
  }

  lemma SeparatedStart(strHash: nat -> nat, hasGc: Body -> bool, h: Heap, ls: Lists, main: Ref, all: bool)
    requires Structure(strHash, h, ls, main) && NewestFirst(h, ls.udata)
    ensures Separated(hasGc, h, h, ls.udata, ls.udata, 0, [], all)
  {
    hide StringsOk, Interned, RootOk, UpvalsOk;
    assert NoDup(ls.udata) by {
      forall i, j | 0 <= i < j < |ls.udata| ensures ls.udata[i] != ls.udata[j] {
        assert (ls.udata + ls.tmu)[i] == ls.udata[i] && (ls.udata + ls.tmu)[j] == ls.udata[j];
      }
    }
  }

  lemma TestFinalize(hasGc: Body -> bool, h: Heap, u: Ref, all: bool)
    requires u in h
    ensures ToFinalize(hasGc, h, u, all) == ((h[u].color.White? || all) && !h[u].bit3 && HasFinalizer(hasGc, h, u))
  {
  }

  lemma SeparatedNow(hasGc: Body -> bool, h: Heap, k: Heap, udata0: seq<Ref>, udata: seq<Ref>, i: nat, sep: seq<Ref>,
        all: bool)
    requires Separated(hasGc, h, k, udata0, udata, i, sep, all) && i < |udata| && OnlyFinalized(h, k)
    ensures ToFinalize(hasGc, k, udata[i], all) == ToFinalize(hasGc, h, udata[i], all) && k[udata[i]] == h[udata[i]]
  {
    hide NewestFirst, Descends;
    var u := udata[i];
    if h[u].body.Udata? && h[u].body.umeta.Ptr? && h[u].body.umeta.r in h { UdataSame(h, k, h[u].body.umeta.r); }
  }

  lemma SeparatedPass(hasGc: Body -> bool, h: Heap, k: Heap, udata0: seq<Ref>, udata: seq<Ref>, i: nat, sep: seq<Ref>,
        all: bool, bit: bool)
    requires Separated(hasGc, h, k, udata0, udata, i, sep, all) && i < |udata| && !ToFinalize(hasGc, h, udata[i], all)
    requires bit == (k[udata[i]].bit3 || h[udata[i]].color.White? || all)
    ensures Separated(hasGc, h, k[udata[i] := k[udata[i]].(bit3 := bit)], udata0, udata, i + 1, sep, all)
    ensures bit == k[udata[i]].bit3 ==> k[udata[i] := k[udata[i]].(bit3 := bit)] == k
  {
    hide ToFinalize;
    var l := k[udata[i] := k[udata[i]].(bit3 := bit)];
    forall j | i + 1 <= j < |udata| ensures udata[j] != udata[i] { }
    assert NewestFirst(l, udata);
  }

  lemma SeparatedMove(hasGc: Body -> bool, h: Heap, k: Heap, udata0: seq<Ref>, udata: seq<Ref>, i: nat, sep: seq<Ref>,
        all: bool)
    requires Separated(hasGc, h, k, udata0, udata, i, sep, all) && i < |udata| && ToFinalize(hasGc, h, udata[i], all)
          && k[udata[i]] == h[udata[i]]
    ensures Separated(hasGc, h, k[udata[i] := k[udata[i]].(bit3 := true)], udata0, Without(udata, i), i,
          sep + [udata[i]], all)
  {
    assert udata[i] in k && udata[i] in h && (h[udata[i]].color.White? || all);
    hide Parted, BitsSet;
    MovedParted(hasGc, h, k, udata0, udata, i, sep, all);
    MovedBits(h, k, udata, i, sep, all);
  }

  lemma MovedParted(hasGc: Body -> bool, h: Heap, k: Heap, udata0: seq<Ref>, udata: seq<Ref>, i: nat, sep: seq<Ref>,
        all: bool)
    requires Parted(hasGc, h, k, udata0, udata, i, sep, all) && i < |udata| && ToFinalize(hasGc, h, udata[i], all)
          && k[udata[i]] == h[udata[i]]
    ensures Parted(hasGc, h, k[udata[i] := k[udata[i]].(bit3 := true)], udata0, Without(udata, i), i,
          sep + [udata[i]], all)
  {
    assert !h[udata[i]].bit3;
    hide ToFinalize;
    var u := udata[i];
    var l, w := k[u := k[u].(bit3 := true)], Without(udata, i);
    WithoutElements(udata, i);
    assert forall j :: 0 <= j < |w| ==> w[j] == udata[if j < i then j else j + 1];
    forall j | i <= j < |w| ensures w[j] != u { assert w[j] in w; }
    assert Descends(sep + [u]) by { assert forall j :: 0 <= j < |sep| ==> sep[j] in sep; }
    hide Descends;
    forall j | i <= j < |w| && !h[w[j]].bit3 ensures u > w[j] && forall s :: s in sep ==> s > w[j] {
      assert w[j] == udata[j + 1];
    }
    MovedNewest(k, udata, i);
    hide NewestFirst;
  }

  lemma MovedBits(h: Heap, k: Heap, udata: seq<Ref>, i: nat, sep: seq<Ref>, all: bool)
    requires i < |udata| && udata[i] in k && udata[i] in h && BitsSet(h, k, udata, i, sep, all)
    requires h[udata[i]].color.White? || all
    ensures i <= |Without(udata, i)|
          && BitsSet(h, k[udata[i] := k[udata[i]].(bit3 := true)], Without(udata, i), i, sep + [udata[i]], all)
  {
    var w := Without(udata, i);
    assert forall j :: 0 <= j < i ==> w[j] == udata[j];
  }

  lemma MovedNewest(k: Heap, udata: seq<Ref>, i: nat)
    requires NewestFirst(k, udata) && NoDup(udata) && i < |udata| && udata[i] in k
    ensures NewestFirst(k[udata[i] := k[udata[i]].(bit3 := true)], Without(udata, i))
  {
    var w := Without(udata, i);
    assert forall j :: 0 <= j < |w| ==> w[j] == udata[if j < i then j else j + 1];
  }

  lemma SeparatedAll(hasGc: Body -> bool, h: Heap, k: Heap, udata0: seq<Ref>, udata: seq<Ref>, sep: seq<Ref>, all: bool)
    requires Separated(hasGc, h, k, udata0, udata, |udata|, sep, all)
    ensures NewestFirst(k, udata) && Descends(sep)
    ensures forall u :: u in sep <==> u in udata0 && ToFinalize(hasGc, h, u, all)
  {
    hide ToFinalize;
  }

  lemma SeparatedBits(strHash: nat -> nat, hasGc: Body -> bool, h: Heap, ls: Lists, main: Ref, k: Heap, udata: seq<Ref>,
        sep: seq<Ref>, all: bool)
    requires Structure(strHash, h, ls, main) && OnlyFinalized(h, k)
          && Separated(hasGc, h, k, ls.udata, udata, |udata|, sep, all)
    ensures BitsWhite(h, k, all)
  {
    hide StringsOk, Interned, RootOk, UpvalsOk, NewestFirst, Descends, ToFinalize;
    forall u | u in h && h[u].body.Udata? ensures u in k && k[u].bit3 == (h[u].bit3 || h[u].color.White? || all) {
      if h[u].bit3 || h[u].color.White? || all {
        if !h[u].bit3 { assert u in ls.udata; }
      }
    }
  }

  lemma StringsMarkedRefl(h: Heap)
    ensures StringsMarked(h, h)
  {
  }

  lemma StringsStep(h: Heap, m: Heap, k: Heap)
    requires StringsMarked(h, m) && StringsMarked(m, k)
    ensures StringsMarked(h, k) && k.Keys == h.Keys && forall v :: MarkedValue(m, v) ==> MarkedValue(k, v)
  {
    StringsMarkedTrans(h, m, k);
  }

  lemma ClearedNodes(h: Heap, m: Heap, was: seq<Entry>, now: seq<Entry>)
    requires StringsMarked(h, m) && NodesCleared(m, was, now)
    ensures NodesCleared(h, was, now)
  {
    hide StringsMarked, Collected;
    forall v, b ensures Collected(m, v, b) == Collected(h, v, b) { CollectedKept(h, m, v, b); }
  }

  lemma StrongParts(h: Heap, t: Ref)
    requires t in h && h[t].body.Table? && StrongClean(h, t)
    ensures MarkedValue(h, h[t].body.meta)
    ensures !h[t].bit4 ==> forall i :: 0 <= i < |h[t].body.arr| ==> MarkedValue(h, h[t].body.arr[i])
  {
    var b := h[t].body;
    if b.meta.Ptr? { assert StronglyRefers(b, h[t].bit3, h[t].bit4, b.meta.r); }
    if !h[t].bit4 {
      forall i | 0 <= i < |b.arr| ensures MarkedValue(h, b.arr[i]) {
        if b.arr[i].Ptr? { assert StronglyRefers(b, h[t].bit3, h[t].bit4, b.arr[i].r); }
      }
    }
  }

  lemma TableKept(h: Heap, k: Heap, t: Ref)
    requires StringsMarked(h, k) && t in h && h[t].body.Table?
    ensures t in k && k[t] == h[t]
  {
  }

  /** Table t has lost what was to be collected, and nothing else has happened. */
  ghost predicate ClearedTo(h: Heap, k: Heap, t: Ref) {
    && t in h && t in k && h[t].body.Table? && TableCleared(h, h[t].body, k[t].body, h[t].bit4) && Clean(k, t)
    && exists m: Heap :: StringsMarked(h, m) && t in m && k == m[t := m[t].(body := k[t].body)]
  }

  /** The weak tables have lost what was to be collected, and nothing else but
      marks of strings has changed. */
  ghost predicate TablesCleared(h: Heap, k: Heap, weak: seq<Ref>) {
    && k.Keys == h.Keys
    && forall r :: r in h ==>
         && k[r].fixed == h[r].fixed && k[r].bit3 == h[r].bit3 && k[r].bit4 == h[r].bit4
         && (k[r].color == h[r].color || (h[r].body.Str? && h[r].color.White? && k[r].color == Gray))
         && if r in weak then TableCleared(h, h[r].body, k[r].body, h[r].bit4) else k[r].body == h[r].body
  }

  lemma ClearedKeys(h: Heap, k: Heap, weak: seq<Ref>)
    requires TablesCleared(h, k, weak)
    ensures k.Keys == h.Keys
  {
  }

  ghost predicate ToClear(h: Heap, k: Heap, t: Ref) {
    t in h && Marked(k, t) && k[t].body == h[t].body && k[t].body.Table? && StrongClean(k, t)
  }

  lemma ToClearKept(h0: Heap, h: Heap, k: Heap, t: Ref, r: Ref)
    requires ClearedTo(h, k, t) && ToClear(h0, h, r) && r != t
    ensures ToClear(h0, k, r)
  {
    hide Clean, StrongClean, TableCleared;
    var m: Heap :| StringsMarked(h, m) && t in m && k == m[t := m[t].(body := k[t].body)];
    StringsClean(h, m, r);
    OtherClean(h, m, k, t, k[t].body, r);
  }

  lemma ClearedMore(h0: Heap, h: Heap, k: Heap, weak: seq<Ref>, t: Ref, w: set<Ref>)
    requires TablesCleared(h0, h, weak) && ClearedTo(h, k, t) && Covered(h, {}, w + {t}) && ColorsOk(h) && NoDangling(h)
    requires t !in weak && ToClear(h0, h, t)
    ensures TablesCleared(h0, k, weak + [t]) && Covered(k, {}, w) && ColorsOk(k) && NoDangling(k)
  {
    hide Clean, StrongClean, TableCleared, Refers, Covered, TablesCleared, StringsMarked, ColorsOk, NoDangling;
    var m: Heap :| StringsMarked(h, m) && t in m && k == m[t := m[t].(body := k[t].body)];
    ClearedStep(h, m, k, t, k[t].body, w);
    ClearedDangling(h, m, k, t);
    ClearedSince(h0, h, weak, h[t].body, k[t].body, h[t].bit4);
    ClearedColors(h, m, k, t);
    ClearedTogether(h0, h, m, k, weak, t);
  }

  lemma ClearedColors(h: Heap, m: Heap, k: Heap, t: Ref)
    requires StringsMarked(h, m) && t in m && t in k && k == m[t := m[t].(body := k[t].body)]
          && TableCleared(h, h[t].body, k[t].body, h[t].bit4)
    requires ColorsOk(h)
    ensures ColorsOk(k)
  {
    hide ArrayCleared, NodesCleared;
    assert m[t].body.Table? && k[t].body.Table?;
    assert forall r :: r in k ==> r in m;
    assert ColorsOk(m);
  }

  lemma ClearedTogether(h0: Heap, h: Heap, m: Heap, k: Heap, weak: seq<Ref>, t: Ref)
    requires TablesCleared(h0, h, weak) && StringsMarked(h, m) && t in m && t in k
          && k == m[t := m[t].(body := k[t].body)]
    requires t !in weak && ToClear(h0, h, t) && TableCleared(h0, h[t].body, k[t].body, h[t].bit4)
    ensures TablesCleared(h0, k, weak + [t])
  {
    hide Clean, StrongClean, TableCleared;
    assert k.Keys == h0.Keys;
    forall r | r in h0
      ensures k[r].fixed == h0[r].fixed && k[r].bit3 == h0[r].bit3 && k[r].bit4 == h0[r].bit4
      ensures k[r].color == h0[r].color || (h0[r].body.Str? && h0[r].color.White? && k[r].color == Gray)
      ensures if r in weak + [t] then TableCleared(h0, h0[r].body, k[r].body, h0[r].bit4) else k[r].body == h0[r].body
    {
      assert r in h && r in m;
      StringKept(h0, h, weak, r);
    }
  }

  lemma StringKept(h0: Heap, h: Heap, weak: seq<Ref>, r: Ref)
    requires TablesCleared(h0, h, weak) && r in h0
    ensures r in h && h[r].body.Str? == h0[r].body.Str?
  {
    hide ArrayCleared, NodesCleared;
  }

  lemma CollectedSince(h0: Heap, h: Heap, weak: seq<Ref>, v: Value, b: bool)
    requires TablesCleared(h0, h, weak)
    ensures Collected(h, v, b) == Collected(h0, v, b)
  {
    if v.Ptr? && v.r in h { assert v.r in h0; }
  }

  lemma ClearedSince(h0: Heap, h: Heap, weak: seq<Ref>, was: Body, now: Body, weakVal: bool)
    requires TablesCleared(h0, h, weak) && TableCleared(h, was, now, weakVal)
    ensures TableCleared(h0, was, now, weakVal)
  {
    hide Collected;
    forall v, b ensures Collected(h, v, b) == Collected(h0, v, b) { CollectedSince(h0, h, weak, v, b); }
    hide TablesCleared;
  }

  lemma ClearedDangling(h: Heap, m: Heap, k: Heap, t: Ref)
    requires StringsMarked(h, m) && t in m && t in k && k == m[t := m[t].(body := k[t].body)]
          && TableCleared(h, h[t].body, k[t].body, h[t].bit4)
    requires NoDangling(h)
    ensures NoDangling(k)
  {
    assert m[t].body.Table?;
    hide TableCleared;
    forall r, x | r in k && Refers(k, k[r].body, x) ensures x in k {
      if r == t {
        assert Refers(h, h[t].body, x) by { ClearedRefers(h, k, h[t].body, k[t].body, h[t].bit4, x); }
      } else {
        assert Refers(m, m[r].body, x);
        StringsRefers(h, m, h[r].body, x);
      }
    }
  }

  lemma TablesClearedRefl(h: Heap)
    ensures TablesCleared(h, h, [])
  {
  }

  lemma SlotKept(h: Heap, g: seq<Ref>, k: Heap, g': seq<Ref>, xs: set<Ref>, t: Ref, l: nat)
    requires Advance(h, g, k, g', xs)
    ensures SlotValue(k, t, l) == SlotValue(h, t, l)
  {
    hide MarkedWell;
  }

  lemma MarkStep0(h: Heap, g: seq<Ref>, k: Heap, g': seq<Ref>)
    requires Advance(h, g, k, g', {}) && NoDangling(h)
    ensures NoDangling(k) && k.Keys == h.Keys && forall r :: Marked(h, r) ==> k[r] == h[r]
  {
    hide Refers, Clean;
    NoDanglingKept(h, k);
  }

  lemma MarkStep(h0: Heap, g0: seq<Ref>, h1: Heap, g1: seq<Ref>, k: Heap, g': seq<Ref>)
    requires Advance(h0, g0, h1, g1, {}) && Advance(h1, g1, k, g', {}) && NoDangling(h1)
    ensures Advance(h0, g0, k, g', {}) && NoDangling(k) && k.Keys == h1.Keys
    ensures forall v :: MarkedValue(h1, v) ==> MarkedValue(k, v)
    ensures forall r :: Marked(h1, r) ==> k[r] == h1[r]
  {
    hide Refers, Clean, MarkedWell;
    AdvanceTrans(h0, g0, h1, g1, k, g', {}, {});
    NoDanglingKept(h1, k);
    var none: set<Ref> := {};
    assert none + none == none;
  }

  lemma SwapDangling(h: Heap, t: Ref, ob: GCObject)
    requires t in h && ob.body == h[t].body && NoDangling(h)
    ensures NoDangling(h[t := ob])
  {
    hide Refers;
    var k := h[t := ob];
    forall r, x | r in k && Refers(k, k[r].body, x) ensures x in k { SwapRefers(h, t, ob, h[r].body, x); }
  }

  lemma GrayHead(h: Heap, gl: GrayLists)
    requires Listed(h, gl) && gl.gray != []
    ensures gl.gray[0] in h && h[gl.gray[0]].color.Gray? && Traversable(h[gl.gray[0]].body)
  {
    assert gl.gray[0] in AllGray(gl);
  }

  lemma SwapStrong(h: Heap, o: Ref, c: Color)
    requires Marked(h, o) && StrongClean(h, o) && !c.White?
    ensures StrongClean(Painted(h, o, c), o)
  {
    hide StronglyRefers;
  }

  lemma ClosureRefs(h: Heap, b: Body, s: set<Ref>)
    requires forall x :: Refers(h, b, x) ==> x in s
    ensures b.Closure? ==> forall v :: v in b.held && v.Ptr? ==> v.r in s
    ensures b.Proto? ==> forall v :: (v in b.names || v in b.constants) && v.Ptr? ==> v.r in s
    ensures b.Thread? ==> (b.globals.Ptr? ==> b.globals.r in s) && forall v :: v in b.stack && v.Ptr? ==> v.r in s
  {
    if b.Closure? { forall v | v in b.held && v.Ptr? ensures v.r in s { assert Refers(h, b, v.r); } }
    if b.Proto? { forall v | (v in b.names || v in b.constants) && v.Ptr?
          ensures v.r in s { assert Refers(h, b, v.r); } }
    if b.Thread? {
      if b.globals.Ptr? { assert Refers(h, b, b.globals.r); }
      forall v | v in b.stack && v.Ptr? ensures v.r in s { assert Refers(h, b, v.r); }
    }
  }

  /** An object all of whose values are marked is clean. */
  lemma ValuesClean(h: Heap, o: Ref)
    requires o in h
    requires match h[o].body
      case Closure(vs) => forall v :: v in vs ==> MarkedValue(h, v)
      case Proto(names, ks) => forall v :: v in names || v in ks ==> MarkedValue(h, v)
      case Thread(g, stack, _) => MarkedValue(h, g) && forall v :: v in stack ==> MarkedValue(h, v)
      case _ => false
    ensures Clean(h, o)
  {
    forall x | Refers(h, h[o].body, x) ensures Marked(h, x) { assert MarkedValue(h, Ptr(x)); }
  }

  lemma HeldThere(h: Heap, t: Ref)
    requires NoDangling(h) && t in h
    ensures forall x :: Refers(h, h[t].body, x) ==> x in h
  {
    hide Refers;
  }

  lemma TableRefs(h: Heap, b: Body, s: set<Ref>)
    requires b.Table? && forall x :: Refers(h, b, x) ==> x in s
    ensures (b.meta.Ptr? ==> b.meta.r in s) && (forall v :: v in b.arr && v.Ptr? ==> v.r in s)
    ensures forall i :: 0 <= i < |b.nodes| && b.nodes[i].val != Nil ==>
              (b.nodes[i].key.Ptr? ==> b.nodes[i].key.r in s) && (b.nodes[i].val.Ptr? ==> b.nodes[i].val.r in s)
  {
    if b.meta.Ptr? { assert Refers(h, b, b.meta.r); }
    forall v | v in b.arr && v.Ptr? ensures v.r in s { assert Refers(h, b, v.r); }
    forall i | 0 <= i < |b.nodes| && b.nodes[i].val != Nil
      ensures (b.nodes[i].key.Ptr? ==> b.nodes[i].key.r in s) && (b.nodes[i].val.Ptr? ==> b.nodes[i].val.r in s)
    {
      if b.nodes[i].key.Ptr? { assert EntryRefers(b.nodes[i], b.nodes[i].key.r) && Refers(h, b, b.nodes[i].key.r); }
      if b.nodes[i].val.Ptr? { assert EntryRefers(b.nodes[i], b.nodes[i].val.r) && Refers(h, b, b.nodes[i].val.r); }
    }
  }

  ghost predicate NodeMarked(h: Heap, e: Entry, weakKey: bool, weakVal: bool) {
    e.val != Nil ==> (weakKey || MarkedValue(h, e.key)) && (weakVal || MarkedValue(h, e.val))
  }

  lemma NodesKept(h: Heap, k: Heap, nodes: seq<Entry>, weakKey: bool, weakVal: bool, i: nat)
    requires i <= |nodes| && forall v :: MarkedValue(h, v) ==> MarkedValue(k, v)
    requires forall j :: i <= j < |nodes| ==> NodeMarked(h, nodes[j], weakKey, weakVal)
    ensures forall j :: i <= j < |nodes| ==> NodeMarked(k, nodes[j], weakKey, weakVal)
  {
  }

  /** All parts of the table that are not weak have been marked. */
  lemma TableDone(h: Heap, t: Ref, weakKey: bool, weakVal: bool)
    requires t in h && h[t].body.Table? && MarkedValue(h, h[t].body.meta)
    requires !weakVal ==> forall v :: v in h[t].body.arr ==> MarkedValue(h, v)
    requires ((weakKey && weakVal) || forall j :: 0 <= j < |h[t].body.nodes| ==>
          NodeMarked(h, h[t].body.nodes[j], weakKey, weakVal))
    requires weakKey || weakVal ==> h[t].bit3 == weakKey && h[t].bit4 == weakVal
    ensures if weakKey || weakVal then StrongClean(h, t) else Clean(h, t)
  {
  }

  // ----- Facts about stores -----

  /** Object o has a new body, and of the others only marks may differ. */
  ghost predicate Stored(h: Heap, k: Heap, o: Ref, body: Body) {
    k.Keys == h.Keys && forall x :: x in h ==> k[x].body == if x == o then body else h[x].body
  }

  lemma FreedGray(h: Heap, t: Ref, cw: bool)
    requires t in h && h[t].color.Black?
    ensures FreedDead(h, Painted(h, t, Gray), cw)
  {
  }

  lemma WroteStep(strHash: nat -> nat, s: State, k: Heap, o: Ref, v: Value, w: Value, udata: seq<Ref>, tmu: seq<Ref>,
        called: set<Ref>, n: Ref)
    requires CoreOk(strHash, s) && PhaseOk(s) && Wrote(s.h, k, o, v, w) && LiveValue(s.h, s.cw, v)
          && LiveValue(s.h, s.cw, w)
    requires FinOk(s.h, udata, tmu, called, n)
    ensures CoreOk(strHash, s.(h := k)) && FinOk(k, udata, tmu, called, n)
    ensures if s.phase == Propagate then MarkingBut(s.(h := k), o, v, w) else PhaseOk(s.(h := k))
  {
    hide CoreOk, PhaseOk, FinOk, MarkingBut, MarkingOk;
    WroteCore(strHash, s, k, o, v, w);
    WroteFin(s.h, k, o, v, w);
    FinKept(s.h, k, udata, tmu, called, n);
    if s.phase == Propagate {
      PhaseMarking(s);
      WroteMarking(s, k, o, v, w);
    } else {
      WrotePhase(s, k, o, v, w);
    }
  }

  lemma WroteFin(h: Heap, k: Heap, o: Ref, v: Value, w: Value)
    requires Wrote(h, k, o, v, w)
    ensures FinSame(h, k)
  {
    hide Refers;
    FrameKinds(k[o].body, h[o].body);
  }

  lemma WroteTable(h: Heap, k: Heap, o: Ref, v: Value, w: Value)
    requires Wrote(h, k, o, v, w)
    ensures o in h && o in k && k[o].body.Table? == h[o].body.Table?
  {
    hide Refers;
    FrameKinds(k[o].body, h[o].body);
  }

  lemma StoredLive(h: Heap, k: Heap, o: Ref, body: Body, cw: bool)
    requires o in h && k == h[o := h[o].(body := body)]
    ensures Stored(h, k, o, body) && FreedDead(h, k, cw) && k[o].body == body && forall x :: Live(h, cw, x) ==>
          Live(k, cw, x)
  {
  }

  lemma StoredThen(h: Heap, m: Heap, k: Heap, o: Ref, body: Body, cw: bool)
    requires Stored(h, m, o, body) && SameBodies(m, k) && FreedDead(h, m, cw) && FreedDead(m, k, cw)
    ensures Stored(h, k, o, body) && FreedDead(h, k, cw)
  {
    FreedTrans(h, m, k, cw);
  }

  lemma ArrayWrote(h: Heap, t: Ref, i: nat, v: Value)
    requires t in h && h[t].body.Table? && i < |h[t].body.arr|
    ensures Wrote(h, h[t := h[t].(body := Table(h[t].body.meta, h[t].body.arr[i := v], h[t].body.nodes))], t, v, Nil)
  {
  }

  lemma NodeWrote(h: Heap, t: Ref, i: nat, key: Value, v: Value)
    requires t in h && h[t].body.Table? && i < |h[t].body.nodes|
    ensures Wrote(h, h[t := h[t].(body := Table(h[t].body.meta, h[t].body.arr, h[t].body.nodes[i := Entry(key, v)]))],
          t, key, v)
  {
    var b := h[t].body;
    var nodes := b.nodes[i := Entry(key, v)];
    var k := h[t := h[t].(body := Table(b.meta, b.arr, nodes))];
    forall x | Refers(k, k[t].body, x) ensures Refers(h, b, x) || key == Ptr(x) || v == Ptr(x) {
      if b.meta != Ptr(x) && Ptr(x) !in b.arr {
        var j :| 0 <= j < |nodes| && EntryRefers(nodes[j], x);
        if j != i { assert EntryRefers(b.nodes[j], x); }
      }
    }
  }

  lemma MetaWrote(h: Heap, t: Ref, m: Value)
    requires t in h && h[t].body.Table?
    ensures Wrote(h, h[t := h[t].(body := Table(m, h[t].body.arr, h[t].body.nodes))], t, m, Nil)
  {
  }

  lemma HeldWrote(h: Heap, c: Ref, i: nat, v: Value)
    requires c in h && h[c].body.Closure? && i < |h[c].body.held|
    ensures Wrote(h, h[c := h[c].(body := Closure(h[c].body.held[i := v]))], c, v, Nil)
  {
  }

  lemma UserWrote(h: Heap, u: Ref, m: Value)
    requires u in h && h[u].body.Udata?
    ensures Wrote(h, h[u := h[u].(body := Udata(m, h[u].body.uenv))], u, m, Nil)
  {
  }

  lemma ConstantWrote(h: Heap, p: Ref, i: nat, v: Value)
    requires p in h && h[p].body.Proto? && i < |h[p].body.constants|
    ensures Wrote(h, h[p := h[p].(body := Proto(h[p].body.names, h[p].body.constants[i := v]))], p, v, Nil)
  {
  }

  lemma ClosedWrote(h: Heap, u: Ref, v: Value)
    requires u in h && h[u].body.ClosedUpval?
    ensures Wrote(h, h[u := h[u].(body := ClosedUpval(v))], u, v, Nil)
  {
  }

  /** What a closure reads through an upvalue. */
  function UpvalueOf(h: Heap, u: Ref): Value
    requires u in h
  {
    match h[u].body
    case ClosedUpval(v) => v
    case OpenUpval(t, l) => SlotValue(h, t, l)
    case _ => Nil
  }

  /** Closing does not change what is read through any upvalue, of whatever thread. */
  lemma ClosedReads(h: Heap, k: Heap, t: Ref, cw: bool, level: nat)
    requires AllClosed(h, k, t, cw, level)
    ensures forall u :: u in k ==> u in h && UpvalueOf(k, u) == UpvalueOf(h, u)
  {
    forall u | u in k ensures u in h && UpvalueOf(k, u) == UpvalueOf(h, u) { ClosedRead(h, k, t, cw, level, u); }
  }

  lemma ClosedRead(h: Heap, k: Heap, t: Ref, cw: bool, level: nat, u: Ref)
    requires AllClosed(h, k, t, cw, level) && u in k
    ensures u in h && UpvalueOf(k, u) == UpvalueOf(h, u)
  {
    if h[u].body.OpenUpval? && h[u].body.thread != t && k[u].body == h[u].body {
      var t' := h[u].body.thread;
      assert t' in k ==> t' in h;
      if t' in h && h[t'].body.Thread? { assert t' in k && k[t'].body == h[t'].body; }
    }
  }

  lemma SlotThere(strHash: nat -> nat, s: State, u: Ref)
    requires GcOk(strHash, s) && u in s.h && s.h[u].body.OpenUpval?
    ensures var t := s.h[u].body.thread;
          t in s.h && s.h[t].body.Thread? && s.h[u].body.level < |s.h[t].body.stack| && t != u
  {
    hide Structure, LiveClosed, RootsLive, ColorsOk, PhaseOk;
  }

  lemma SlotStackFits(strHash: nat -> nat, s: State, u: Ref, v: Value)
    requires GcOk(strHash, s) && u in s.h && s.h[u].body.OpenUpval? && LiveValue(s.h, s.cw, v)
    requires s.h[u].body.thread in s.h && s.h[s.h[u].body.thread].body.Thread?
          && s.h[u].body.level < |s.h[s.h[u].body.thread].body.stack|
    ensures StackFits(s.h, s.cw, s.h[u].body.thread, s.h[s.h[u].body.thread].body.stack[s.h[u].body.level := v])
  {
    hide Structure, LiveClosed, RootsLive, ColorsOk, PhaseOk;
    var t := s.h[u].body.thread;
    var stack := s.h[t].body.stack[s.h[u].body.level := v];
    forall x | x in s.h && s.h[x].body.OpenUpval? && s.h[x].body.thread == t
          ensures SlotFits(s.h, s.cw, t, x, stack) { }
  }

  lemma FreedStack(h: Heap, t: Ref, stack: seq<Value>, cw: bool)
    requires t in h && h[t].body.Thread?
    ensures FreedDead(h, WithStack(h, t, stack), cw)
  {
  }

  lemma GlobalsWritten(strHash: nat -> nat, s: State, t: Ref, v: Value)
    requires CoreOk(strHash, s) && PhaseOk(s) && t in s.h && s.h[t].body.Thread? && LiveValue(s.h, s.cw, v)
    ensures var k := s.h[t := s.h[t].(body := Thread(v, s.h[t].body.stack, s.h[t].body.open))];
            CoreOk(strHash, s.(h := k)) && PhaseOk(s.(h := k)) && FinSame(s.h, k)
  {
    var k := s.h[t := s.h[t].(body := Thread(v, s.h[t].body.stack, s.h[t].body.open))];
    GlobalsRefs(s.h, s.cw, t, v);
    GlobalsUpvals(s.h, s.cw, t, v);
    GlobalsRoots(s, t, v);
    hide CoreOk, PhaseOk, WroteThread, LevelsOk, RootsLive, Refers;
    ThreadWritten(strHash, s, k, t);
  }

  lemma GlobalsRefs(h: Heap, cw: bool, t: Ref, v: Value)
    requires t in h && h[t].body.Thread? && LiveValue(h, cw, v)
    ensures WroteThread(h, h[t := h[t].(body := Thread(v, h[t].body.stack, h[t].body.open))], t, cw)
  {
  }

  /** A thread's stack or globals have been written to. */
  lemma ThreadWritten(strHash: nat -> nat, s: State, k: Heap, t: Ref)
    requires CoreOk(strHash, s) && PhaseOk(s) && WroteThread(s.h, k, t, s.cw) && LevelsOk(k) && RootsLive(s.(h := k))
    requires forall u, x :: u in s.h && Live(s.h, s.cw, u) && s.h[u].body.OpenUpval? && Refers(k, k[u].body, x) ==>
          Live(s.h, s.cw, x)
    ensures CoreOk(strHash, s.(h := k)) && PhaseOk(s.(h := k))
  {
    hide Structure, Refers, LevelsOk, WroteThread, SameColors, SameFrames, LiveClosed, RootsLive, ColorsOk;
    ThreadFrames(s.h, k, t, s.cw);
    FramesOf(s.h, k);
    FramesStructure(strHash, s.h, k, s.ls, s.main);
    ThreadLive(s.h, k, t, s.cw);
    SameColorsOk(s.h, k);
    if s.phase == Propagate { StackCovered(strHash, s, k, t); }
    SameColorsPhase(s, k);
  }

  lemma GlobalsUpvals(h: Heap, cw: bool, t: Ref, v: Value)
    requires t in h && h[t].body.Thread? && LiveClosed(h, cw) && LevelsOk(h)
    ensures var k := h[t := h[t].(body := Thread(v, h[t].body.stack, h[t].body.open))];
            && (forall u, x :: u in h && Live(h, cw, u) && h[u].body.OpenUpval? && Refers(k, k[u].body, x)
                  ==> Live(h, cw, x))
            && LevelsOk(k) && FinSame(h, k)
  {
    var k := h[t := h[t].(body := Thread(v, h[t].body.stack, h[t].body.open))];
    forall u, x | u in h && Live(h, cw, u) && h[u].body.OpenUpval? && Refers(k, k[u].body, x) ensures Live(h, cw, x) {
      assert Refers(h, h[u].body, x);
    }
  }

  lemma GlobalsRoots(s: State, t: Ref, v: Value)
    requires t in s.h && s.h[t].body.Thread? && RootsLive(s)
    ensures RootsLive(s.(h := s.h[t := s.h[t].(body := Thread(v, s.h[t].body.stack, s.h[t].body.open))]))
  {
    var k := s.h[t := s.h[t].(body := Thread(v, s.h[t].body.stack, s.h[t].body.open))];
    assert forall x :: Live(s.h, s.cw, x) ==> Live(k, s.cw, x);
  }

  lemma GlobalsFreed(h: Heap, t: Ref, v: Value, cw: bool)
    requires t in h && h[t].body.Thread?
    ensures var b := Thread(v, h[t].body.stack, h[t].body.open);
            FreedDead(h, h[t := h[t].(body := b)], cw) && Stored(h, h[t := h[t].(body := b)], t, b)
  {
  }

  lemma RootWritten(strHash: nat -> nat, s: State, s': State)
    requires GcOk(strHash, s) && s' == s.(running := s'.running, mt := s'.mt) && RootsLive(s')
    ensures GcOk(strHash, s')
  {
    hide Structure, LiveClosed, LevelsOk, ColorsOk, Covered, Listed;
  }

  // ----- Facts about new objects -----

  lemma CoreParts(strHash: nat -> nat, s: State)
    requires CoreOk(strHash, s)
    ensures Structure(strHash, s.h, s.ls, s.main) && LevelsOk(s.h)
  {
    hide Structure, LiveClosed, LevelsOk, ColorsOk, RootsLive;
  }

  lemma AddedFreed(h: Heap, r: Ref, o: GCObject, cw: bool)
    requires r !in h && o.color == White(cw)
    ensures FreedDead(h, h[r := o], cw)
  {
  }

  lemma RevivedFreed(h: Heap, r: Ref, cw: bool)
    requires r in h
    ensures FreedDead(h, Painted(h, r, White(cw)), cw)
  {
  }

  lemma TableThere(strHash: nat -> nat, s: State)
    requires CoreOk(strHash, s)
    ensures 0 < |s.ls.strt|
  {
    hide Interned, RootOk, UdataOk, UpvalsOk;
  }

  lemma StringsThere(strHash: nat -> nat, s: State)
    requires GcOk(strHash, s)
    ensures StringsOk(strHash, s.h, s.ls.strt)
  {
    hide StringsOk, Interned, RootOk, UdataOk, UpvalsOk, PhaseOk, LiveClosed, LevelsOk, RootsLive;
  }

  lemma InBucket(strHash: nat -> nat, s: State, b: nat, j: nat)
    requires CoreOk(strHash, s) && b < |s.ls.strt| && j < |s.ls.strt[b]|
    ensures s.ls.strt[b][j] in s.h && s.h[s.ls.strt[b][j]].body.Str?
  {
    hide Interned, RootOk, UdataOk, UpvalsOk;
    assert s.ls.strt[b][j] in s.ls.strt[b];
  }

  lemma OnlyOne(strHash: nat -> nat, s: State, r: Ref)
    requires CoreOk(strHash, s) && r in s.h && s.h[r].body.Str?
    ensures forall q :: q in s.h && s.h[q].body == s.h[r].body ==> q == r
  {
    hide StringsOk, RootOk, UdataOk, UpvalsOk;
  }

  lemma NotInterned(strHash: nat -> nat, s: State, b: nat, content: nat)
    requires CoreOk(strHash, s) && 0 < |s.ls.strt| && b == Bucket(strHash, |s.ls.strt|, content)
    requires forall i :: 0 <= i < |s.ls.strt[b]| ==> s.ls.strt[b][i] in s.h && s.h[s.ls.strt[b][i]].body != Str(content)
    ensures forall q :: q in s.h ==> s.h[q].body != Str(content)
  {
    hide Interned, RootOk, UdataOk, UpvalsOk, LiveClosed;
    ghost var bucket := s.ls.strt[b];
    forall q | q in s.h ensures s.h[q].body != Str(content) {
      assert s.h[q].body == Str(content) ==> q in bucket;
    }
  }

  lemma LowerDown(h: Heap, open: seq<Ref>, j: int, i: int)
    requires Descending(h, open) && 0 <= j < i < |open|
    ensures Level(h, open[i]) < Level(h, open[j])
  {
  }

  /** Where the search for a level stops. */
  lemma SearchEnd(strHash: nat -> nat, s: State, t: Ref, level: nat, j: nat)
    requires CoreOk(strHash, s) && t in s.h && s.h[t].body.Thread? && j <= |s.h[t].body.open|
    requires forall i :: 0 <= i < j ==> level < Level(s.h, s.h[t].body.open[i])
    requires j < |s.h[t].body.open| ==> Level(s.h, s.h[t].body.open[j]) <= level
    ensures if j < |s.h[t].body.open| && Level(s.h, s.h[t].body.open[j]) == level
            then forall q :: q in s.h && s.h[q].body == OpenUpval(t, level) ==> q == s.h[t].body.open[j]
            else OpenPlace(s.h, s.h[t].body.open, level, j) && forall q :: q in s.h ==>
                  s.h[q].body != OpenUpval(t, level)
  {
    hide StringsOk, Interned, RootOk, UdataOk, LiveClosed;
    var open := s.h[t].body.open;
    assert OpenListOk(s.h, t);
    forall q | q in s.h && s.h[q].body == OpenUpval(t, level) ensures j < |open| && q == open[j] {
      assert OpenedOk(s.h, q);
      var i :| 0 <= i < |open| && open[i] == q;
      assert Level(s.h, open[i]) == level;
      if j < i { LowerDown(s.h, open, j, i); }
    }
  }

  lemma SlotOfLive(strHash: nat -> nat, s: State, t: Ref, u: Ref)
    requires CoreOk(strHash, s) && Live(s.h, s.cw, t) && s.h[t].body.Thread? && u in s.h && s.h[u].body.OpenUpval?
          && s.h[u].body.thread == t
    ensures forall x :: Refers(s.h, s.h[u].body, x) ==> Live(s.h, s.cw, x)
  {
    hide Structure, RootsLive, ColorsOk;
    forall x | Refers(s.h, s.h[u].body, x) ensures Live(s.h, s.cw, x) { assert Refers(s.h, s.h[t].body, x); }
  }

  lemma UpvalFreed(h: Heap, t: Ref, r: Ref, o: GCObject, i: nat, cw: bool, udata: seq<Ref>, tmu: seq<Ref>,
        called: set<Ref>, n: Ref)
    requires t in h && h[t].body.Thread? && i <= |h[t].body.open| && r !in h && o.color == White(cw)
          && o.body.OpenUpval?
    requires FinOk(h[r := o], udata, tmu, called, n)
    ensures FreedDead(h, WithUpval(h, t, r, o, i), cw) && FinOk(WithUpval(h, t, r, o, i), udata, tmu, called, n)
  {
    assert FinSame(h[r := o], WithUpval(h, t, r, o, i));
    FinKept(h[r := o], WithUpval(h, t, r, o, i), udata, tmu, called, n);
  }

  // ----- The first state -----

  lemma NewLists(strHash: nat -> nat, s: State)
    requires s.h == map[0 := GCObject(White(false), true, false, false, Thread(Nil, [], [])),
                        1 := GCObject(White(false), false, false, false, Table(Nil, [], []))]
    requires s.ls.root == [1, 0] && s.ls.udata == [] && s.ls.tmu == [] && s.ls.upvals == [] && s.main == 0
    requires 0 < |s.ls.strt| && (forall b :: 0 <= b < |s.ls.strt| ==> s.ls.strt[b] == [])
    ensures Structure(strHash, s.h, s.ls, s.main)
  {
    assert StringsOk(strHash, s.h, s.ls.strt) && Interned(s.h);
    NewRoot(s);
    hide StringsOk, Interned, RootOk;
    assert UdataOk(s.h, s.ls.udata, s.ls.tmu) && UpvalsOk(s.h, s.ls.upvals);
  }

  lemma NewRoot(s: State)
    requires s.h == map[0 := GCObject(White(false), true, false, false, Thread(Nil, [], [])),
                        1 := GCObject(White(false), false, false, false, Table(Nil, [], []))]
    requires s.ls.root == [1, 0] && s.main == 0
    ensures RootOk(s.h, s.ls.root, s.main)
  {
    assert s.ls.root[0] == 1 && s.ls.root[1] == 0;
  }

  lemma NewState(strHash: nat -> nat, s: State)
    requires s.h == map[0 := GCObject(White(false), true, false, false, Thread(Nil, [], [])),
                        1 := GCObject(White(false), false, false, false, Table(Nil, [], []))]
    requires !s.cw && s.phase == Pause && s.ls.root == [1, 0] && s.ls.udata == [] && s.ls.tmu == [] && s.ls.upvals == []
    requires 0 < |s.ls.strt| && (forall b :: 0 <= b < |s.ls.strt| ==> s.ls.strt[b] == [])
    requires s.main == 0 && s.running == 0 && s.registry == Ptr(1) && forall i :: 0 <= i < |s.mt| ==> s.mt[i] == Nil
    ensures GcOk(strHash, s) && FinOk(s.h, [], [], {}, 2)
  {
    NewLists(strHash, s);
    hide Structure;
    assert LiveClosed(s.h, s.cw) && RootsLive(s) && ColorsOk(s.h) && PhaseOk(s);
  }
}
