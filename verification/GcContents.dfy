/** What a collection leaves of the contents of objects. */
module GcContents {
  import opened GcHeap
  import opened GcLists
  import opened GcInvariant
  import opened GcGrowth
  import opened GcAtomic
  import opened GcFacts
  import opened GcHeld
  import opened GcWeakTables

  /** A value that every weak table keeps: one that the collector does not take, and no userdata
      that is marked finalized, or may be as it is held through others that wait. */
  ghost predicate Lasting(modeOf: Body -> (bool, bool), s: State, v: Value) {
    && Safe(modeOf, s, v)
    && (v.Ptr? && v.r in s.h && s.h[v.r].body.Udata? ==>
          HeldPast(modeOf, s, s.ls.tmu, v.r) && !Finalized(s.h, v))
  }

  ghost predicate EntryLeft(modeOf: Body -> (bool, bool), s: State, was: Entry, now: Entry) {
    && (now == was || now == Entry(was.key, Nil))
    && (Safe(modeOf, s, was.key) && Lasting(modeOf, s, was.val) ==> now == was)
  }

  ghost predicate SlotLeft(modeOf: Body -> (bool, bool), s: State, was: Value, now: Value) {
    (now == was || now == Nil) && (Lasting(modeOf, s, was) ==> now == was)
  }

  /** What is left of a table: all, if it is not weak, and the array part, if its values are not. */
  ghost predicate TableLeft(modeOf: Body -> (bool, bool), s: State, mode: (bool, bool), was: Body, now: Body) {
    && was.Table? && now.Table? && now.meta == was.meta
    && |now.nodes| == |was.nodes|
    && (forall i :: 0 <= i < |was.nodes| ==> EntryLeft(modeOf, s, was.nodes[i], now.nodes[i]))
    && |now.arr| == |was.arr| && (forall i :: 0 <= i < |was.arr| ==> SlotLeft(modeOf, s, was.arr[i], now.arr[i]))
    && (!mode.1 ==> now.arr == was.arr) && (mode == (false, false) ==> now == was)
  }

  /** What is left of an object; the stack of the running thread may have grown. */
  ghost predicate BodyLeft(modeOf: Body -> (bool, bool), s: State, r: Ref, was: Body, now: Body) {
    if was.Table? then TableLeft(modeOf, s, Mode(modeOf, s.h, r), was, now)
    else Longer(was, now, r == s.running)
  }

  predicate Longer(was: Body, now: Body, grows: bool) {
    now == was || (grows && was.Thread? && now.Thread? && now.globals == was.globals && now.open == was.open
                   && was.stack <= now.stack)
  }

  /** All objects of k were there in s, and hold what they held, weak tables but for what they
      lose. */
  ghost predicate ContentsLeft(modeOf: Body -> (bool, bool), s: State, k: Heap) {
    forall r :: r in k ==> r in s.h && BodyLeft(modeOf, s, r, Contents(s.h, r), Contents(k, r))
  }

  lemma TableStays(modeOf: Body -> (bool, bool), s: State, mode: (bool, bool), b: Body)
    requires b.Table?
    ensures TableLeft(modeOf, s, mode, b, b)
  {
    hide Safe, Lasting;
  }

  /** One that was not weak has lost nothing. */
  lemma TableAnyMode(modeOf: Body -> (bool, bool), s: State, mode: (bool, bool), was: Body, now: Body)
    requires TableLeft(modeOf, s, (false, false), was, now)
    ensures TableLeft(modeOf, s, mode, was, now)
  {
    TableStays(modeOf, s, mode, was);
  }

  // ----- The end of the marking -----

  lemma LastingStays(modeOf: Body -> (bool, bool), s: State, before: Heap, v: Value)
    requires Onward(s.h, before) && KeepsHeld(modeOf, s, before) && BitsHeld(modeOf, s, before) && Lasting(modeOf, s, v)
    ensures !Collected(before, v, false)
  {
    hide KeepsHeld, BitsHeld, Safe, HeldPast, Onward;
    SafeNotCollected(modeOf, s, before, v, false);
    if Finalized(before, v) {
      BodyOnward(s.h, before, v.r);
      FinalizedBefore(modeOf, s, before, v.r);
    }
  }

  lemma BodyOnward(h: Heap, k: Heap, r: Ref)
    requires Onward(h, k) && r in k
    ensures r in h && h[r].body == k[r].body
  {
  }

  lemma ClearedLeft(modeOf: Body -> (bool, bool), s: State, before: Heap, was: Body, now: Body, mode: (bool, bool))
    requires Onward(s.h, before) && KeepsHeld(modeOf, s, before) && BitsHeld(modeOf, s, before)
    requires TableCleared(before, was, now, mode.1) && mode != (false, false)
    ensures TableLeft(modeOf, s, mode, was, now)
  {
    hide Onward, KeepsHeld, BitsHeld, Safe, Lasting, Collected;
    forall i | 0 <= i < |was.nodes| ensures EntryLeft(modeOf, s, was.nodes[i], now.nodes[i]) {
      var e := was.nodes[i];
      assert EntryCleared(before, e, now.nodes[i]);
      if Safe(modeOf, s, e.key) && Lasting(modeOf, s, e.val) {
        SafeNotCollected(modeOf, s, before, e.key, true);
        LastingStays(modeOf, s, before, e.val);
      }
    }
    forall i | 0 <= i < |was.arr| ensures SlotLeft(modeOf, s, was.arr[i], now.arr[i]) {
      if Lasting(modeOf, s, was.arr[i]) { LastingStays(modeOf, s, before, was.arr[i]); }
    }
  }

  lemma SameThen(modeOf: Body -> (bool, bool), s: State, r: Ref, b: Body)
    ensures BodyLeft(modeOf, s, r, b, b)
  {
    if b.Table? { TableStays(modeOf, s, Mode(modeOf, s.h, r), b); }
  }

  lemma SlotSame(h: Heap, k: Heap, r: Ref)
    requires r in h && r in k && k[r].body == h[r].body
    requires forall t :: t in h && h[t].body.Thread? ==> t in k && k[t].body == h[t].body
    requires forall t :: t in k && k[t].body.Thread? ==> t in h && h[t].body.Thread?
    ensures Contents(k, r) == Contents(h, r)
  {
  }

  /** The end of a marking leaves the contents. */
  lemma AtomicLeaves(modeOf: Body -> (bool, bool), s: State, before: Heap, k: Heap, weak: seq<Ref>)
    requires Ended(modeOf, s, before, k, weak)
    ensures ContentsLeft(modeOf, s, k)
  {
    hide KeepsHeld, BitsHeld, TableCleared, ModeBits, Onward, BodyLeft;
    ThreadsOnward(modeOf, s, before, k, weak);
    forall r | r in k ensures r in s.h && BodyLeft(modeOf, s, r, Contents(s.h, r), Contents(k, r)) {
      BodyOnward(s.h, before, r);
      if r in weak {
        WeakLeft(modeOf, s, before, k, weak, r);
      } else {
        SlotSame(s.h, k, r);
        SameThen(modeOf, s, r, Contents(s.h, r));
      }
    }
  }

  lemma ThreadsOnward(modeOf: Body -> (bool, bool), s: State, before: Heap, k: Heap, weak: seq<Ref>)
    requires Ended(modeOf, s, before, k, weak)
    ensures forall t :: t in s.h && s.h[t].body.Thread? ==> t in k && k[t].body == s.h[t].body
    ensures forall t :: t in k && k[t].body.Thread? ==> t in s.h && s.h[t].body.Thread?
  {
    hide KeepsHeld, BitsHeld;
    forall t | t in weak ensures t in before && before[t].body.Table? && k[t].body.Table? {
      assert ModeBits(modeOf, before, t);
    }
  }

  lemma WeakLeft(modeOf: Body -> (bool, bool), s: State, before: Heap, k: Heap, weak: seq<Ref>, t: Ref)
    requires Ended(modeOf, s, before, k, weak) && t in weak && t in s.h && t in k
    ensures BodyLeft(modeOf, s, t, Contents(s.h, t), Contents(k, t))
  {
    hide KeepsHeld, BitsHeld, TableLeft;
    assert ModeBits(modeOf, before, t);
    ClearedLeft(modeOf, s, before, s.h[t].body, k[t].body, Mode(modeOf, s.h, t));
  }

  // ----- From the start of the marking -----

  lemma SafeOnward(modeOf: Body -> (bool, bool), s0: State, s: State, v: Value)
    requires Onward(s0.h, s.h) && SameRoots(s0, s) && Safe(modeOf, s0, v)
    ensures Safe(modeOf, s, v)
  {
    hide Held;
    if v.Ptr? && Held(modeOf, s0, v.r) { HeldOnward(modeOf, s0, s, v.r); }
  }

  lemma LastingOnward(modeOf: Body -> (bool, bool), s0: State, s: State, v: Value)
    requires Grown(s0.h, s.h) && SameRoots(s0, s) && s.ls.tmu == s0.ls.tmu && Lasting(modeOf, s0, v)
    ensures Lasting(modeOf, s, v)
  {
    GrownOnward(s0.h, s.h);
    hide Safe, HeldPast;
    SafeOnward(modeOf, s0, s, v);
    if v.Ptr? && v.r in s.h && s.h[v.r].body.Udata? { HeldPastOnward(modeOf, s0, s, v.r); }
  }

  lemma TableOnward(modeOf: Body -> (bool, bool), s0: State, s: State, mode: (bool, bool), was: Body, now: Body)
    requires Grown(s0.h, s.h) && SameRoots(s0, s) && s.ls.tmu == s0.ls.tmu && TableLeft(modeOf, s, mode, was, now)
    ensures TableLeft(modeOf, s0, mode, was, now)
  {
    GrownOnward(s0.h, s.h);
    hide Safe, Lasting, Grown, Onward;
    forall v ensures Safe(modeOf, s0, v) ==> Safe(modeOf, s, v) {
      if Safe(modeOf, s0, v) { SafeOnward(modeOf, s0, s, v); }
    }
    forall v ensures Lasting(modeOf, s0, v) ==> Lasting(modeOf, s, v) {
      if Lasting(modeOf, s0, v) { LastingOnward(modeOf, s0, s, v); }
    }
  }

  lemma ModeSame(modeOf: Body -> (bool, bool), h: Heap, k: Heap, r: Ref)
    requires k.Keys == h.Keys && forall x :: x in h ==> k[x].body == h[x].body
    ensures Mode(modeOf, k, r) == Mode(modeOf, h, r)
  {
  }

  /** Since the marking has changed no contents, what its end left is also left since its start. */
  lemma LeftOnward(modeOf: Body -> (bool, bool), s0: State, s: State, k: Heap)
    requires Grown(s0.h, s.h) && SameRoots(s0, s) && s.ls.tmu == s0.ls.tmu && ContentsLeft(modeOf, s, k)
    ensures ContentsLeft(modeOf, s0, k)
  {
    GrownBodies(s0.h, s.h);
    hide Grown, TableLeft, Mode;
    forall r | r in k ensures r in s0.h && BodyLeft(modeOf, s0, r, Contents(s0.h, r), Contents(k, r)) {
      assert r in s.h;
      SlotSame(s0.h, s.h, r);
      ModeSame(modeOf, s0.h, s.h, r);
      if s.h[r].body.Table? {
        TableOnward(modeOf, s0, s, Mode(modeOf, s.h, r), Contents(s.h, r), Contents(k, r));
      }
    }
  }

  lemma GrownBodies(h: Heap, k: Heap)
    requires Grown(h, k)
    ensures k.Keys == h.Keys && forall x :: x in h ==> k[x].body == h[x].body
  {
  }

  // ----- After the marking -----

  /** No object is new, and all hold what they held, but that the stack of the running thread may
      have grown. */
  ghost predicate OnlyPushed(s: State, k: Heap) {
    forall r :: r in k ==> r in s.h && Longer(Contents(s.h, r), Contents(k, r), r == s.running)
  }

  lemma LeftThen(modeOf: Body -> (bool, bool), s0: State, s: State, k: Heap)
    requires ContentsLeft(modeOf, s0, s.h) && OnlyPushed(s, k) && s.running == s0.running
    ensures ContentsLeft(modeOf, s0, k)
  {
    hide Contents, BodyLeft;
    forall r | r in k ensures r in s0.h && BodyLeft(modeOf, s0, r, Contents(s0.h, r), Contents(k, r)) {
      assert r in s.h;
      ThenLonger(modeOf, s0, r, Contents(s0.h, r), Contents(s.h, r), Contents(k, r));
    }
  }

  lemma ThenLonger(modeOf: Body -> (bool, bool), s: State, r: Ref, was: Body, mid: Body, now: Body)
    requires BodyLeft(modeOf, s, r, was, mid) && Longer(mid, now, r == s.running)
    ensures BodyLeft(modeOf, s, r, was, now)
  {
    hide EntryLeft, SlotLeft, Mode;
  }

  lemma SweptPushed(s: State, k: Heap)
    requires Swept(s.h, k, s.cw)
    ensures OnlyPushed(s, k)
  {
  }

  lemma NonePushed(s: State)
    ensures OnlyPushed(s, s.h)
  {
  }

  lemma GcLevels(strHash: nat -> nat, s: State)
    requires GcOk(strHash, s)
    ensures LevelsOk(s.h)
  {
    hide Structure, LevelsOk, LiveClosed, RootsLive, ColorsOk, PhaseOk;
  }

  /** A finalizer puts its userdata on the stack. */
  lemma TurnPushed(s: State, u: Ref, c: Color, runs: bool, k: Heap)
    requires u in s.h && LevelsOk(s.h)
    requires k == if runs then Pushed(Painted(s.h, u, c), s.running, Ptr(u)) else Painted(s.h, u, c)
    ensures OnlyPushed(s, k)
  {
    hide LevelsOk;
    var h := Painted(s.h, u, c);
    forall r | r in k ensures r in s.h && Longer(Contents(s.h, r), Contents(k, r), r == s.running) {
      SlotSame(s.h, h, r);
      LevelsPainted(s.h, u, c);
      if runs { PushedLonger(h, s.running, Ptr(u), r); }
    }
  }

  lemma LevelsPainted(h: Heap, u: Ref, c: Color)
    requires u in h && LevelsOk(h)
    ensures LevelsOk(Painted(h, u, c))
  {
  }

  lemma PushedLonger(h: Heap, t: Ref, v: Value, r: Ref)
    requires LevelsOk(h) && r in Pushed(h, t, v)
    ensures r in h && Longer(Contents(h, r), Contents(Pushed(h, t, v), r), r == t)
  {
  }
}
