/** What a marking leaves alone: objects that nothing outside them refers to. */
module GcGarbage {
  import opened GcHeap
  import opened GcLists
  import opened GcRemovals
  import opened GcInvariant
  import opened GcMarking
  import opened GcGrowth
  import opened GcAtomic
  import opened GcFacts
  import opened GcHeld
  import opened GcProgress

  /** A reference that the marking follows: not weak, or to a string, which weak tables never
      lose. */
  ghost predicate Clings(modeOf: Body -> (bool, bool), h: Heap, o: Ref, x: Ref)
    requires o in h
  {
    Holds(modeOf, h, o, x) || (Refers(h, h[o].body, x) && x in h && h[x].body.Str?)
  }

  ghost predicate AllWhiteIn(h: Heap, u: set<Ref>) {
    forall r :: r in u && r in h ==> IsWhite(h, r)
  }

  /** The objects of u are white, and the marking follows no reference into u from outside. */
  ghost predicate Apart(modeOf: Body -> (bool, bool), h: Heap, u: set<Ref>) {
    (forall r, x :: r in h && r !in u && Clings(modeOf, h, r, x) ==> x !in u) && AllWhiteIn(h, u)
  }

  lemma ApartNone(modeOf: Body -> (bool, bool), h: Heap)
    ensures Apart(modeOf, h, {})
  {
  }

  lemma SameClings(modeOf: Body -> (bool, bool), h: Heap, k: Heap, o: Ref, x: Ref)
    requires SameBodies(h, k) && o in h
    ensures Clings(modeOf, k, o, x) == Clings(modeOf, h, o, x)
  {
  }

  /** Only colours and bits of objects outside u have changed. */
  lemma ApartSame(modeOf: Body -> (bool, bool), h: Heap, k: Heap, u: set<Ref>)
    requires Apart(modeOf, h, u) && SameBodies(h, k) && AllWhiteIn(k, u)
    ensures Apart(modeOf, k, u)
  {
    hide Clings, SameBodies;
    forall q, x | q in k && q !in u && Clings(modeOf, k, q, x) ensures x !in u {
      BodiesThere(h, k, q);
      SameClings(modeOf, h, k, q, x);
    }
  }

  lemma BodiesThere(h: Heap, k: Heap, q: Ref)
    requires SameBodies(h, k) && q in k
    ensures q in h
  {
  }

  lemma ApartPaint(modeOf: Body -> (bool, bool), h: Heap, u: set<Ref>, r: Ref, c: Color)
    requires Apart(modeOf, h, u) && r in h && r !in u
    ensures Apart(modeOf, Painted(h, r, c), u)
  {
    hide Clings;
    ApartSame(modeOf, h, Painted(h, r, c), u);
  }

  lemma ApartBits(modeOf: Body -> (bool, bool), h: Heap, u: set<Ref>, t: Ref, o: GCObject)
    requires Apart(modeOf, h, u) && t in h && t !in u && o.body == h[t].body
    ensures Apart(modeOf, h[t := o], u)
  {
    hide Clings;
    ApartSame(modeOf, h, h[t := o], u);
  }

  /** What an object outside u refers to is there and outside u. */
  lemma HeldIn(modeOf: Body -> (bool, bool), h: Heap, u: set<Ref>, t: Ref)
    requires NoDangling(h) && Apart(modeOf, h, u) && t in h && t !in u && !h[t].body.Table?
    ensures forall x :: Refers(h, h[t].body, x) ==> x in h.Keys - u
  {
    hide Refers;
    forall x | Refers(h, h[t].body, x) ensures x in h.Keys - u { assert Clings(modeOf, h, t, x); }
  }

  /** What a table outside u holds, by its mode, is outside u. */
  lemma TableHeld(modeOf: Body -> (bool, bool), h: Heap, u: set<Ref>, t: Ref, weakKey: bool, weakVal: bool)
    requires Apart(modeOf, h, u) && t in h && t !in u && h[t].body.Table?
    requires var m := h[t].body.meta;
             (weakKey, weakVal) == if m.Ptr? && m.r in h then modeOf(h[m.r].body) else (false, false)
    ensures forall x :: StronglyRefers(h[t].body, weakKey, weakVal, x) ==> x !in u
  {
    forall x | StronglyRefers(h[t].body, weakKey, weakVal, x) ensures x !in u {
      if !(h[t].body.meta.Ptr? && h[t].body.meta.r in h) { AllStrong(h, h[t].body, x); }
      assert Clings(modeOf, h, t, x);
    }
  }

  lemma AllStrong(h: Heap, b: Body, x: Ref)
    requires b.Table? && StronglyRefers(b, false, false, x)
    ensures Refers(h, b, x)
  {
    if b.meta != Ptr(x) && Ptr(x) !in b.arr {
      var i :| 0 <= i < |b.nodes| && b.nodes[i].val != Nil && (b.nodes[i].key == Ptr(x) || b.nodes[i].val == Ptr(x));
      assert EntryRefers(b.nodes[i], x);
    }
  }

  /** The metatable of a table outside u is outside u. */
  lemma MetaOutside(modeOf: Body -> (bool, bool), h: Heap, u: set<Ref>, t: Ref)
    requires Apart(modeOf, h, u) && t in h && t !in u && h[t].body.Table? && h[t].body.meta.Ptr?
    ensures h[t].body.meta.r !in u
  {
    var x := h[t].body.meta.r;
    assert Refers(h, h[t].body, x);
    assert Clings(modeOf, h, t, x);
  }

  lemma StrongRefs(b: Body, weakKey: bool, weakVal: bool, u: set<Ref>)
    requires b.Table? && forall x :: StronglyRefers(b, weakKey, weakVal, x) ==> x !in u
    ensures !weakVal ==> forall v :: v in b.arr && v.Ptr? ==> v.r !in u
    ensures forall i :: 0 <= i < |b.nodes| && b.nodes[i].val != Nil ==> NodeOutside(b.nodes[i], weakKey, weakVal, u)
  {
    if !weakVal {
      forall v | v in b.arr && v.Ptr? ensures v.r !in u { assert StronglyRefers(b, weakKey, weakVal, v.r); }
    }
    forall i | 0 <= i < |b.nodes| && b.nodes[i].val != Nil ensures NodeOutside(b.nodes[i], weakKey, weakVal, u) {
      if !weakKey && b.nodes[i].key.Ptr? { assert StronglyRefers(b, weakKey, weakVal, b.nodes[i].key.r); }
      if !weakVal && b.nodes[i].val.Ptr? { assert StronglyRefers(b, weakKey, weakVal, b.nodes[i].val.r); }
    }
  }

  /** The parts of an entry that are not weak are outside u. */
  predicate NodeOutside(e: Entry, weakKey: bool, weakVal: bool, u: set<Ref>) {
    && (!weakKey && e.key.Ptr? ==> e.key.r !in u)
    && (!weakVal && e.val.Ptr? ==> e.val.r !in u)
  }

  lemma MarkedOutside(modeOf: Body -> (bool, bool), h: Heap, u: set<Ref>, t: Ref)
    requires Apart(modeOf, h, u) && Marked(h, t)
    ensures t !in u
  {
    hide Clings;
  }

  /** Userdata have been marked finalized, and nothing else has changed. */
  lemma ApartFinalized(modeOf: Body -> (bool, bool), h: Heap, k: Heap, u: set<Ref>)
    requires Apart(modeOf, h, u) && OnlyFinalized(h, k)
    ensures Apart(modeOf, k, u)
  {
    hide Clings;
    FinalizedBodies(h, k);
    forall r | r in u && r in k ensures IsWhite(k, r) { assert r in h; }
    ApartSame(modeOf, h, k, u);
  }

  // ----- Clearing weak tables -----

  /** The strings of u, of which g are all, are referred to from inside u only. */
  ghost predicate Fenced(h: Heap, u: set<Ref>, g: set<Ref>) {
    && AllWhiteIn(h, u) && g <= u
    && (forall r :: r in u && r in h && h[r].body.Str? ==> r in g)
    && (forall r, x :: r in h && r !in u && Refers(h, h[r].body, x) ==> x !in g)
  }

  ghost function Strings(h: Heap, u: set<Ref>): set<Ref> {
    set r | r in u && r in h && h[r].body.Str?
  }

  lemma ApartFenced(modeOf: Body -> (bool, bool), h: Heap, u: set<Ref>)
    requires Apart(modeOf, h, u)
    ensures Fenced(h, u, Strings(h, u))
  {
    hide Refers, Holds;
    forall r, x | r in h && r !in u && Refers(h, h[r].body, x) ensures x !in Strings(h, u) {
      if x in h && h[x].body.Str? { assert Clings(modeOf, h, r, x); }
    }
  }

  lemma FencedWhite(h: Heap, u: set<Ref>, g: set<Ref>)
    requires Fenced(h, u, g)
    ensures AllWhiteIn(h, u)
  {
  }

  lemma FencedOutside(h: Heap, u: set<Ref>, g: set<Ref>, t: Ref)
    requires NoDangling(h) && Fenced(h, u, g) && Marked(h, t)
    ensures t !in u && forall x :: Refers(h, h[t].body, x) ==> x in h.Keys - g
  {
    hide Refers;
  }

  lemma FencedPaint(h: Heap, u: set<Ref>, g: set<Ref>, r: Ref, c: Color)
    requires Fenced(h, u, g) && r in h && h[r].body.Str? && r !in g
    ensures Fenced(Painted(h, r, c), u, g)
  {
    var k := Painted(h, r, c);
    forall q, x | q in k && q !in u && Refers(k, k[q].body, x) ensures x !in g { assert Refers(h, h[q].body, x); }
  }

  /** A table that was cleared refers to nothing that it did not refer to. */
  lemma ClearedRefers(h: Heap, k: Heap, was: Body, now: Body, weakVal: bool, x: Ref)
    requires TableCleared(h, was, now, weakVal) && Refers(k, now, x)
    ensures Refers(k, was, x)
  {
    if Ptr(x) in now.arr {
      var i :| 0 <= i < |now.arr| && now.arr[i] == Ptr(x);
      assert was.arr[i] == Ptr(x);
    } else if now.meta != Ptr(x) {
      var i :| 0 <= i < |now.nodes| && EntryRefers(now.nodes[i], x);
      assert EntryRefers(was.nodes[i], x);
    }
  }

  lemma FencedCleared(h: Heap, m: Heap, u: set<Ref>, g: set<Ref>, t: Ref, now: Body, weakVal: bool)
    requires Fenced(m, u, g) && t in m && t !in u && TableCleared(h, m[t].body, now, weakVal)
    ensures Fenced(m[t := m[t].(body := now)], u, g)
  {
    hide TableCleared;
    var k := m[t := m[t].(body := now)];
    assert now.Table? && m[t].body.Table? by { TablesBoth(h, m[t].body, now, weakVal); }
    forall q, x | q in k && q !in u && Refers(k, k[q].body, x) ensures x !in g {
      if q == t {
        assert Refers(m, now, x);
        ClearedRefers(h, m, m[t].body, now, weakVal, x);
      } else {
        assert Refers(m, m[q].body, x);
      }
    }
  }

  lemma TablesBoth(h: Heap, was: Body, now: Body, weakVal: bool)
    requires TableCleared(h, was, now, weakVal)
    ensures was.Table? && now.Table?
  {
  }

  // ----- Garbage from the marking to the end of the sweep -----

  ghost predicate NotFixed(h: Heap, u: set<Ref>) {
    forall r :: r in u && r in h ==> !h[r].fixed
  }

  lemma GarbageFixed(h: Heap, before: Heap, k: Heap, weak: seq<Ref>, u: set<Ref>)
    requires NotFixed(h, u) && Onward(h, before) && TablesCleared(before, k, weak)
    ensures NotFixed(k, u)
  {
    forall r | r in u && r in k ensures !k[r].fixed { assert r in before && r in h; }
  }

  /** After the change of white, what was left alone is dead. */
  lemma GarbageDead(h: Heap, cw: bool, u: set<Ref>)
    requires AllWhiteIn(h, u) && NotFixed(h, u) && NoneOther(h, cw)
    ensures forall r :: r in u && r in h ==> Dead(h, !cw, r)
  {
    forall r | r in u && r in h ensures Dead(h, !cw, r) { assert IsWhite(h, r); }
  }

  /** Dead objects stay dead until they are freed. */
  lemma SweptDead(h: Heap, k: Heap, cw: bool, u: set<Ref>)
    requires Swept(h, k, cw) && forall r :: r in u && r in h ==> Dead(h, cw, r)
    ensures forall r :: r in u && r in k ==> Dead(k, cw, r)
  {
    hide Dead, Contents, FreedDead;
  }

  /** What a step of a sweep does for all that a collection is to keep or to free. */
  lemma SweepTaken(modeOf: Body -> (bool, bool), s: State, t: State, u: set<Ref>)
    requires s.phase != Propagate && t.phase != Propagate && t.cw == s.cw && Swept(s.h, t.h, s.cw)
    requires forall r :: r in u && r in s.h ==> Dead(s.h, s.cw, r)
    ensures Keeps(modeOf, s, t) && t.h.Keys <= s.h.Keys && forall r :: Live(s.h, s.cw, r) ==> r in t.h
    ensures forall r :: r in u && r in t.h ==> Dead(t.h, t.cw, r)
  {
    hide Keeps;
    SweptDead(s.h, t.h, s.cw, u);
    SweptFreed(s.h, t.h, s.cw);
    StaysFreed(s.h, t.h, s.cw);
    SweepKeeps(modeOf, s, t);
    hide FreedDead, Dead, Contents;
  }

  lemma DeadGone(strHash: nat -> nat, s: State, u: set<Ref>)
    requires GcOk(strHash, s) && s.phase == Finalize && forall r :: r in u && r in s.h ==> Dead(s.h, s.cw, r)
    ensures forall r :: r in u ==> r !in s.h
  {
    hide Structure, LevelsOk, LiveClosed, RootsLive, ColorsOk, PhaseOk;
    forall r | r in u && r in s.h ensures false { NoneDead(s, r); }
  }

  lemma SparedGrown(h: Heap, k: Heap, u: set<Ref>)
    requires Grown(h, k) && NotFixed(h, u)
    ensures NotFixed(k, u)
  {
    forall r | r in u && r in k ensures !k[r].fixed { assert r in h; }
  }

  // ----- What a collection leaves -----

  /** The finalizer of userdata u is still to be called. */
  predicate Due(hasGc: Body -> bool, h: Heap, u: Ref) {
    u in h && h[u].body.Udata? && !h[u].bit3 && HasFinalizer(hasGc, h, u)
  }

  /** Objects that the collector keeps by themselves: roots, userdata that wait for their
      finalizers, what is never freed, and here also userdata whose finalizers are due. */
  ghost predicate Anchor(hasGc: Body -> bool, s: State, r: Ref) {
    IsRoot(s, r) || r in s.ls.tmu || (r in s.h && s.h[r].fixed) || Due(hasGc, s.h, r)
  }

  ghost predicate WantedBy(modeOf: Body -> (bool, bool), hasGc: Body -> bool, s: State, p: seq<Ref>, r: Ref) {
    |p| > 0 && p[|p| - 1] == r && Anchor(hasGc, s, p[0]) && forall i :: 0 < i < |p| ==> ClingLinked(modeOf, s.h, p, i)
  }

  ghost predicate ClingLinked(modeOf: Body -> (bool, bool), h: Heap, p: seq<Ref>, i: int)
    requires 0 < i < |p|
  {
    p[i - 1] in h && Clings(modeOf, h, p[i - 1], p[i])
  }

  /** References that the marking follows lead to the object from an anchor. */
  ghost predicate Wanted(modeOf: Body -> (bool, bool), hasGc: Body -> bool, s: State, r: Ref) {
    exists p: seq<Ref> :: WantedBy(modeOf, hasGc, s, p, r)
  }

  function NoneHas(): Body -> bool {
    b => false
  }

  /** Such references lead to the object even if no finalizer is due. */
  ghost predicate Reached(modeOf: Body -> (bool, bool), s: State, r: Ref) {
    Wanted(modeOf, NoneHas(), s, r)
  }

  ghost function Lost(modeOf: Body -> (bool, bool), s: State): set<Ref> {
    set r | r in s.h && !Reached(modeOf, s, r)
  }

  lemma AnchorWanted(modeOf: Body -> (bool, bool), hasGc: Body -> bool, s: State, r: Ref)
    requires Anchor(hasGc, s, r)
    ensures Wanted(modeOf, hasGc, s, r)
  {
    assert WantedBy(modeOf, hasGc, s, [r], r);
  }

  lemma WantedNext(modeOf: Body -> (bool, bool), hasGc: Body -> bool, s: State, r: Ref, x: Ref)
    requires Wanted(modeOf, hasGc, s, r) && r in s.h && Clings(modeOf, s.h, r, x)
    ensures Wanted(modeOf, hasGc, s, x)
  {
    hide Anchor, Clings;
    var p :| WantedBy(modeOf, hasGc, s, p, r);
    var q := p + [x];
    forall i | 0 < i < |q| ensures ClingLinked(modeOf, s.h, q, i) {
      if i < |p| { assert ClingLinked(modeOf, s.h, p, i); }
    }
    assert WantedBy(modeOf, hasGc, s, q, x);
  }

  lemma ReachedWanted(modeOf: Body -> (bool, bool), hasGc: Body -> bool, s: State, r: Ref)
    requires Reached(modeOf, s, r)
    ensures Wanted(modeOf, hasGc, s, r)
  {
    hide ClingLinked, IsRoot;
    var p :| WantedBy(modeOf, NoneHas(), s, p, r);
    assert WantedBy(modeOf, hasGc, s, p, r);
  }

  /** No reference that the marking follows leads to what is lost, and no marking has begun
      to follow one. */
  lemma LostApart(strHash: nat -> nat, modeOf: Body -> (bool, bool), s: State)
    requires GcOk(strHash, s) && (s.phase == Pause || s.phase == Finalize)
    ensures var u := Lost(modeOf, s);
            Apart(modeOf, s.h, u) && NotFixed(s.h, u) && forall r :: Anchor(NoneHas(), s, r) ==> r !in u
  {
    hide Structure, LevelsOk, LiveClosed, RootsLive, ColorsOk, Clings, Wanted;
    var u := Lost(modeOf, s);
    forall r | Anchor(NoneHas(), s, r) ensures r !in u { AnchorWanted(modeOf, NoneHas(), s, r); }
    forall r, x | r in s.h && r !in u && Clings(modeOf, s.h, r, x) ensures x !in u {
      WantedNext(modeOf, NoneHas(), s, r, x);
    }
    forall r | r in u && r in s.h ensures IsWhite(s.h, r) && !s.h[r].fixed {
      assert !Anchor(NoneHas(), s, r);
    }
  }

  // ----- Userdata set apart are garbage no longer -----

  /** References that the marking follows lead to r from one of d. */
  ghost predicate ClungFrom(modeOf: Body -> (bool, bool), h: Heap, d: seq<Ref>, r: Ref) {
    exists p: seq<Ref> :: ClungBy(modeOf, h, d, p, r)
  }

  ghost predicate ClungBy(modeOf: Body -> (bool, bool), h: Heap, d: seq<Ref>, p: seq<Ref>, r: Ref) {
    |p| > 0 && p[|p| - 1] == r && p[0] in d && forall i :: 0 < i < |p| ==> ClingLinked(modeOf, h, p, i)
  }

  ghost function StillLost(modeOf: Body -> (bool, bool), h: Heap, u: set<Ref>, d: seq<Ref>): set<Ref> {
    set r | r in u && !ClungFrom(modeOf, h, d, r)
  }

  lemma ClungNext(modeOf: Body -> (bool, bool), h: Heap, d: seq<Ref>, r: Ref, x: Ref)
    requires ClungFrom(modeOf, h, d, r) && r in h && Clings(modeOf, h, r, x)
    ensures ClungFrom(modeOf, h, d, x)
  {
    hide Clings;
    var p :| ClungBy(modeOf, h, d, p, r);
    var q := p + [x];
    forall i | 0 < i < |q| ensures ClingLinked(modeOf, h, q, i) {
      if i < |p| { assert ClingLinked(modeOf, h, p, i); }
    }
    assert ClungBy(modeOf, h, d, q, x);
  }

  lemma ClungSelf(modeOf: Body -> (bool, bool), h: Heap, d: seq<Ref>, r: Ref)
    requires r in d
    ensures ClungFrom(modeOf, h, d, r)
  {
    assert ClungBy(modeOf, h, d, [r], r);
  }

  lemma StillApart(modeOf: Body -> (bool, bool), h: Heap, u: set<Ref>, d: seq<Ref>)
    requires Apart(modeOf, h, u)
    ensures var v := StillLost(modeOf, h, u, d); Apart(modeOf, h, v) && v <= u && forall r :: r in d ==> r !in v
  {
    hide Clings, ClungFrom;
    var v := StillLost(modeOf, h, u, d);
    forall r | r in d ensures r !in v { ClungSelf(modeOf, h, d, r); }
    forall r, x | r in h && r !in v && Clings(modeOf, h, r, x) ensures x !in v {
      if r in u { ClungNext(modeOf, h, d, r, x); }
    }
  }

  /** What is garbage no longer was wanted, if the finalizers of d were due. */
  lemma NoLongerLost(modeOf: Body -> (bool, bool), hasGc: Body -> bool, s: State, h: Heap, u: set<Ref>, d: seq<Ref>,
        r: Ref)
    requires SameBodies(s.h, h) && (forall q :: q in d ==> Due(hasGc, s.h, q)) && r in u
    requires r !in StillLost(modeOf, h, u, d)
    ensures Wanted(modeOf, hasGc, s, r)
  {
    hide Clings, SameBodies, Due, IsRoot;
    assert ClungFrom(modeOf, h, d, r);
    var p :| ClungBy(modeOf, h, d, p, r);
    forall i | 0 < i < |p| ensures ClingLinked(modeOf, s.h, p, i) {
      assert ClingLinked(modeOf, h, p, i);
      BodiesThere(s.h, h, p[i - 1]);
      SameClings(modeOf, s.h, h, p[i - 1], p[i]);
    }
    assert WantedBy(modeOf, hasGc, s, p, r);
  }

  /** What the end s1 of a marking, begun with garbage g0, has done with the garbage g1 that is
      left and the list of userdata: those whose finalizers are due are set apart, and nothing
      but what they refer to is garbage no longer. */
  ghost predicate SetRight(modeOf: Body -> (bool, bool), hasGc: Body -> bool, s: State, g0: set<Ref>, g1: set<Ref>,
        tmu: seq<Ref>)
  {
    && g1 <= g0
    && (forall r :: r in g0 && r !in g1 ==> Wanted(modeOf, hasGc, s, r))
    && forall u :: u in g0 && Due(hasGc, s.h, u) ==> u in tmu
  }

  lemma SetRightLess(modeOf: Body -> (bool, bool), hasGc: Body -> bool, s: State, g0: set<Ref>, g1: set<Ref>,
        tmu: seq<Ref>)
    requires SetRight(modeOf, hasGc, s, g0, g1, tmu)
    ensures g1 <= g0
  {
  }

  lemma FewerFixed(h: Heap, g0: set<Ref>, g1: set<Ref>)
    requires NotFixed(h, g0) && g1 <= g0
    ensures NotFixed(h, g1)
  {
  }

  lemma NewOnes(h: Heap, udata: seq<Ref>, tmu: seq<Ref>, now: seq<Ref>)
    requires SetApartInOrder(h, udata, tmu, now)
    ensures |tmu| <= |now| && now == tmu + now[|tmu|..]
  {
  }

  lemma ApartWhite(modeOf: Body -> (bool, bool), h: Heap, u: set<Ref>)
    requires Apart(modeOf, h, u)
    ensures AllWhiteIn(h, u)
  {
  }

  lemma SetRightNow(strHash: nat -> nat, modeOf: Body -> (bool, bool), hasGc: Body -> bool, s: State, h: Heap,
        g: set<Ref>, d: seq<Ref>, tmu: seq<Ref>)
    requires Structure(strHash, s.h, s.ls, s.main) && AllWhiteIn(s.h, g) && OnlyFinalized(s.h, h)
    requires (forall u :: u in s.ls.tmu ==> u !in g) && tmu == s.ls.tmu + d
    requires forall u :: u in d <==> u in s.ls.udata && ToFinalize(hasGc, s.h, u, false)
    ensures SetRight(modeOf, hasGc, s, g, StillLost(modeOf, h, g, d), tmu)
  {
    hide StringsOk, Interned, RootOk, UpvalsOk, ClungFrom, Wanted;
    FinalizedBodies(s.h, h);
    forall q | q in d ensures Due(hasGc, s.h, q) { }
    forall r | r in g && r !in StillLost(modeOf, h, g, d) ensures Wanted(modeOf, hasGc, s, r) {
      NoLongerLost(modeOf, hasGc, s, h, g, d, r);
    }
    forall u | u in g && Due(hasGc, s.h, u) ensures u in tmu { assert u in s.ls.udata || u in s.ls.tmu; }
  }

  /** From an earlier state of the marking. */
  lemma SetRightSince(modeOf: Body -> (bool, bool), hasGc: Body -> bool, s0: State, s: State, g0: set<Ref>,
        g1: set<Ref>, tmu: seq<Ref>)
    requires Grown(s0.h, s.h) && s.ls.tmu == s0.ls.tmu && SameRoots(s0, s)
    requires SetRight(modeOf, hasGc, s, g0, g1, tmu)
    ensures SetRight(modeOf, hasGc, s0, g0, g1, tmu)
  {
    hide Wanted, Grown, Due;
    forall r | r in g0 && r !in g1 ensures Wanted(modeOf, hasGc, s0, r) { WantedGrown(modeOf, hasGc, s0, s, r); }
    forall u | u in g0 && Due(hasGc, s0.h, u) ensures u in tmu { DueGrown(hasGc, s0.h, s.h, u); }
  }

  /** A marking makes nothing wanted. */
  lemma WantedGrown(modeOf: Body -> (bool, bool), hasGc: Body -> bool, s: State, t: State, r: Ref)
    requires Grown(s.h, t.h) && t.ls.tmu == s.ls.tmu && SameRoots(s, t) && Wanted(modeOf, hasGc, t, r)
    ensures Wanted(modeOf, hasGc, s, r)
  {
    hide Clings, IsRoot;
    var p :| WantedBy(modeOf, hasGc, t, p, r);
    forall i | 0 < i < |p| ensures ClingLinked(modeOf, s.h, p, i) {
      assert ClingLinked(modeOf, t.h, p, i);
      assert SameBodies(s.h, t.h);
      SameClings(modeOf, s.h, t.h, p[i - 1], p[i]);
    }
    DueGrown(hasGc, s.h, t.h, p[0]);
    assert IsRoot(t, p[0]) ==> IsRoot(s, p[0]) by { RootsTheSame(s, t, p[0]); }
    assert WantedBy(modeOf, hasGc, s, p, r);
  }

  lemma RootsTheSame(s: State, t: State, r: Ref)
    requires SameRoots(s, t)
    ensures IsRoot(t, r) == IsRoot(s, r)
  {
  }

  lemma DueGrown(hasGc: Body -> bool, h: Heap, k: Heap, u: Ref)
    requires Grown(h, k)
    ensures Due(hasGc, k, u) <==> Due(hasGc, h, u)
  {
    if u in h && h[u].body.Udata? && h[u].body.umeta.Ptr? && h[u].body.umeta.r in h { assert h[u].body.umeta.r in k; }
  }
}
