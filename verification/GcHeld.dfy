/** What the program holds, and what of it the end of a marking sees. */
module GcHeld {
  import opened GcHeap
  import opened GcLists
  import opened GcInvariant
  import opened GcMarking
  import opened GcGrowth
  import opened GcAtomic
  import opened GcFacts

  ghost predicate SameRoots(s0: State, s1: State) {
    s1.main == s0.main && s1.running == s0.running && s1.registry == s0.registry && s1.mt == s0.mt
  }

  /** The program holds object r: a path of references that are not weak leads to it. */
  ghost predicate Held(modeOf: Body -> (bool, bool), s: State, r: Ref) {
    exists p: seq<Ref> :: HeldBy(modeOf, s, p, r)
  }

  ghost predicate HeldBy(modeOf: Body -> (bool, bool), s: State, p: seq<Ref>, r: Ref) {
    |p| > 0 && p[|p| - 1] == r && IsRoot(s, p[0]) && forall i :: 0 < i < |p| ==> HoldLinked(modeOf, s.h, p, i)
  }

  /** The program holds object r by a path on which no object before r is one of these. */
  ghost predicate HeldPast(modeOf: Body -> (bool, bool), s: State, waits: seq<Ref>, r: Ref) {
    exists p: seq<Ref> :: HeldBy(modeOf, s, p, r) && forall i :: 0 <= i < |p| - 1 ==> p[i] !in waits
  }

  lemma HeldPastAll(modeOf: Body -> (bool, bool), s: State, r: Ref)
    ensures HeldPast(modeOf, s, [], r) <==> Held(modeOf, s, r)
  {
    hide HeldBy;
    if Held(modeOf, s, r) {
      var p :| HeldBy(modeOf, s, p, r);
      assert forall i :: 0 <= i < |p| - 1 ==> p[i] !in [];
    }
  }

  lemma HoldsOnward(modeOf: Body -> (bool, bool), h: Heap, k: Heap, o: Ref, x: Ref)
    requires Onward(h, k) && o in h && Holds(modeOf, h, o, x)
    ensures o in k && Holds(modeOf, k, o, x)
  {
  }

  lemma HeldOnward(modeOf: Body -> (bool, bool), s0: State, s: State, r: Ref)
    requires Onward(s0.h, s.h) && SameRoots(s0, s) && Held(modeOf, s0, r)
    ensures Held(modeOf, s, r)
  {
    hide Onward, Holds;
    var p :| HeldBy(modeOf, s0, p, r);
    forall i | 0 < i < |p| ensures HoldLinked(modeOf, s.h, p, i) {
      assert HoldLinked(modeOf, s0.h, p, i);
      HoldsOnward(modeOf, s0.h, s.h, p[i - 1], p[i]);
    }
    assert HeldBy(modeOf, s, p, r);
  }

  lemma HeldPastOnward(modeOf: Body -> (bool, bool), s0: State, s: State, u: Ref)
    requires Grown(s0.h, s.h) && s.ls.tmu == s0.ls.tmu && SameRoots(s0, s) && HeldPast(modeOf, s0, s0.ls.tmu, u)
    ensures HeldPast(modeOf, s, s.ls.tmu, u)
  {
    GrownOnward(s0.h, s.h);
    hide Onward, Grown, Holds;
    var p :| HeldBy(modeOf, s0, p, u) && forall i :: 0 <= i < |p| - 1 ==> p[i] !in s0.ls.tmu;
    forall i | 0 < i < |p| ensures HoldLinked(modeOf, s.h, p, i) {
      assert HoldLinked(modeOf, s0.h, p, i);
      HoldsOnward(modeOf, s0.h, s.h, p[i - 1], p[i]);
    }
    assert HeldBy(modeOf, s, p, u);
  }

  /** When only userdata that wait for their finalizers are still to be traversed, what is not
      marked is held through these at most. */
  lemma WhiteUnheld(modeOf: Body -> (bool, bool), s0: State, h: Heap, w: set<Ref>, r: Ref)
    requires Onward(s0.h, h) && Covered(h, ToSet(s0.ls.tmu), w) && forall t :: t in w ==> ModeBits(modeOf, h, t)
    requires (forall q :: IsRoot(s0, q) ==> Marked(h, q)) && IsWhite(h, r)
    ensures !HeldPast(modeOf, s0, s0.ls.tmu, r)
  {
    hide Onward, Holds, IsRoot, Covered, ModeBits;
    if HeldPast(modeOf, s0, s0.ls.tmu, r) {
      var p :| HeldBy(modeOf, s0, p, r) && forall i :: 0 <= i < |p| - 1 ==> p[i] !in s0.ls.tmu;
      forall i | 0 < i < |p| ensures HoldLinked(modeOf, h, p, i) {
        assert HoldLinked(modeOf, s0.h, p, i);
        HoldsOnward(modeOf, s0.h, h, p[i - 1], p[i]);
      }
      HeldMarked(modeOf, h, ToSet(s0.ls.tmu), w, p);
    }
  }

  lemma NewUnheld(modeOf: Body -> (bool, bool), s0: State, h: Heap, w: set<Ref>, udata: seq<Ref>, now: seq<Ref>)
    requires Onward(s0.h, h) && Covered(h, ToSet(s0.ls.tmu), w) && forall t :: t in w ==> ModeBits(modeOf, h, t)
    requires (forall q :: IsRoot(s0, q) ==> Marked(h, q)) && SetApartInOrder(h, udata, s0.ls.tmu, now)
    requires forall u :: u in now[|s0.ls.tmu|..] ==> IsWhite(h, u)
    ensures forall u :: u in now[|s0.ls.tmu|..] ==> !HeldPast(modeOf, s0, s0.ls.tmu, u)
  {
    hide Onward, IsRoot, Covered, ModeBits, HeldPast, Descends;
    forall u | u in now[|s0.ls.tmu|..] ensures !HeldPast(modeOf, s0, s0.ls.tmu, u) { WhiteUnheld(modeOf, s0, h, w, u); }
  }

  /** A userdata has newly been marked finalized only if it was held through those that waited at
      most. */
  ghost predicate BitsHeld(modeOf: Body -> (bool, bool), s: State, k: Heap) {
    forall u :: u in s.h && s.h[u].body.Udata? ==>
      u in k && (s.h[u].bit3 ==> k[u].bit3) && (k[u].bit3 && !s.h[u].bit3 ==> !HeldPast(modeOf, s, s.ls.tmu, u))
  }

  lemma BitsUnheld(modeOf: Body -> (bool, bool), s0: State, h: Heap, w: set<Ref>, k: Heap)
    requires Onward(s0.h, h) && Grown(s0.h, h) && Covered(h, ToSet(s0.ls.tmu), w)
          && forall t :: t in w ==> ModeBits(modeOf, h, t)
    requires (forall q :: IsRoot(s0, q) ==> Marked(h, q)) && BitsWhite(h, k, false)
    ensures BitsHeld(modeOf, s0, k)
  {
    hide Onward, IsRoot, Covered, ModeBits, HeldPast;
    forall u | u in s0.h && s0.h[u].body.Udata?
      ensures u in k && (s0.h[u].bit3 ==> k[u].bit3)
            && (k[u].bit3 && !s0.h[u].bit3 ==> !HeldPast(modeOf, s0, s0.ls.tmu, u))
    {
      assert u in h;
      if IsWhite(h, u) { WhiteUnheld(modeOf, s0, h, w, u); }
    }
  }

  lemma BitsGrown(h: Heap, k: Heap, l: Heap)
    requires BitsWhite(h, k, false) && Grown(k, l) && SameBodies(h, k)
    ensures BitsWhite(h, l, false)
  {
    forall u | u in h && h[u].body.Udata? ensures u in l && l[u].bit3 == (h[u].bit3 || h[u].color.White?) {
      assert u in k;
    }
  }

  /** The userdata that wait are marked finalized. */
  lemma TmuBits(strHash: nat -> nat, h: Heap, ls: Lists, main: Ref)
    requires Structure(strHash, h, ls, main)
    ensures forall u :: u in ls.tmu ==> u in h && h[u].body.Udata? && h[u].bit3
  {
    hide StringsOk, Interned, RootOk, UpvalsOk;
  }

  /** What the end of a marking, from state s, has done before it clears the tables listed in weak,
      and after that, in heap k. */
  ghost predicate Ended(modeOf: Body -> (bool, bool), s: State, before: Heap, k: Heap, weak: seq<Ref>) {
    && Onward(s.h, before) && KeepsHeld(modeOf, s, before) && BitsHeld(modeOf, s, before)
    && TablesCleared(before, k, weak) && forall t :: t in weak ==> ModeBits(modeOf, before, t)
  }

  lemma HeldMarkedThen(modeOf: Body -> (bool, bool), s: State, before: Heap, r: Ref)
    requires Onward(s.h, before) && KeepsHeld(modeOf, s, before) && Held(modeOf, s, r)
    ensures Marked(before, r)
  {
    hide Onward, Holds, IsRoot;
    var p :| HeldBy(modeOf, s, p, r);
    forall i | 0 < i < |p| ensures HoldLinked(modeOf, before, p, i) {
      assert HoldLinked(modeOf, s.h, p, i);
      HoldsOnward(modeOf, s.h, before, p[i - 1], p[i]);
    }
  }
}
