/** What finishing a sweep means for the collection that follows it: the same objects are held,
    and nothing more is wanted. */
module GcPruned {
  import opened GcHeap
  import opened GcLists
  import opened GcInvariant
  import opened GcAtomic
  import opened GcFacts
  import opened GcHeld
  import opened GcWeakTables
  import opened GcContents
  import opened GcProgress
  import opened GcGarbage

  /** Metatables are tables. */
  ghost predicate TablesOnly(modeOf: Body -> (bool, bool), hasGc: Body -> bool) {
    forall b: Body :: !b.Table? ==> modeOf(b) == (false, false) && !hasGc(b)
  }

  /** Dead objects have been freed, and nothing else has happened to what a collection sees. */
  ghost predicate Pruned(s: State, t: State) {
    SameRoots(s, t) && t.cw == s.cw && t.ls.tmu == s.ls.tmu && Swept(s.h, t.h, s.cw)
  }

  lemma PrunedRefl(s: State, t: State)
    requires SameRoots(s, t) && t.cw == s.cw && t.ls.tmu == s.ls.tmu && t.h == s.h
    ensures Pruned(s, t)
  {
    SweptRefl(s.h, s.cw);
  }

  lemma PrunedKeys(s: State, t: State)
    requires Pruned(s, t)
    ensures t.h.Keys <= s.h.Keys
  {
  }

  lemma PrunedTrans(s: State, t: State, v: State)
    requires Pruned(s, t) && Pruned(t, v)
    ensures Pruned(s, v)
  {
    hide Swept;
    SweptTrans(s.h, t.h, v.h, s.cw);
  }

  /** An object that is left holds what it held. */
  lemma PrunedRefers(s: State, t: State, o: Ref, x: Ref)
    requires Pruned(s, t) && o in t.h
    ensures o in s.h && Refers(t.h, t.h[o].body, x) == Refers(s.h, s.h[o].body, x)
    ensures t.h[o].body.Table? == s.h[o].body.Table? && (t.h[o].body.Table? ==> t.h[o].body == s.h[o].body)
  {
    hide FreedDead, Unrevived;
    ContentsRefer(s.h, o, x);
    ContentsRefer(t.h, o, x);
  }

  lemma ContentsRefer(h: Heap, o: Ref, x: Ref)
    requires o in h
    ensures Refers(h, Contents(h, o), x) == Refers(h, h[o].body, x)
    ensures forall k: Heap :: Refers(k, Contents(h, o), x) == Refers(h, Contents(h, o), x)
    ensures Contents(h, o).Table? == h[o].body.Table? && (h[o].body.Table? ==> Contents(h, o) == h[o].body)
  {
  }

  lemma PrunedMode(modeOf: Body -> (bool, bool), hasGc: Body -> bool, s: State, t: State, m: Ref)
    requires Pruned(s, t) && TablesOnly(modeOf, hasGc) && m in t.h
    ensures m in s.h && modeOf(t.h[m].body) == modeOf(s.h[m].body) && hasGc(t.h[m].body) == hasGc(s.h[m].body)
  {
    hide Pruned;
    PrunedRefers(s, t, m, m);
  }

  /** An object whose metatable is left too holds the same objects. */
  lemma PrunedHolds(modeOf: Body -> (bool, bool), hasGc: Body -> bool, s: State, t: State, o: Ref, x: Ref)
    requires Pruned(s, t) && TablesOnly(modeOf, hasGc) && o in t.h
    requires t.h[o].body.Table? && t.h[o].body.meta.Ptr? ==> t.h[o].body.meta.r in t.h
    ensures o in s.h && Holds(modeOf, t.h, o, x) == Holds(modeOf, s.h, o, x)
  {
    hide Pruned, Refers, StronglyRefers;
    PrunedRefers(s, t, o, x);
    var b := t.h[o].body;
    if b.Table? && b.meta.Ptr? { PrunedMode(modeOf, hasGc, s, t, b.meta.r); }
  }

  lemma HoldsRefers(modeOf: Body -> (bool, bool), h: Heap, o: Ref, x: Ref)
    requires o in h && Holds(modeOf, h, o, x)
    ensures Refers(h, h[o].body, x)
  {
    hide Refers, StronglyRefers;
    var b := h[o].body;
    if b.Table? && b.meta.Ptr? && b.meta.r in h { StrongIsReference(h, b, modeOf(h[b.meta.r].body), x); }
  }

  lemma MetaReferred(h: Heap, b: Body)
    requires b.Table? && b.meta.Ptr?
    ensures Refers(h, b, b.meta.r)
  {
  }

  // ----- What is held -----

  /** The objects on a path of references that are not weak are live. */
  lemma {:induction false} HeldLive(modeOf: Body -> (bool, bool), s: State, p: seq<Ref>, i: nat)
    requires LiveClosed(s.h, s.cw) && RootsLive(s) && i < |p| && IsRoot(s, p[0])
    requires forall j :: 0 < j < |p| ==> HoldLinked(modeOf, s.h, p, j)
    ensures Live(s.h, s.cw, p[i])
    decreases i
  {
    hide Holds, Refers;
    if i == 0 {
      assert Path(s, [p[0]], p[0]);
      ReachableLive(s, [p[0]], p[0]);
    } else {
      HeldLive(modeOf, s, p, i - 1);
      assert HoldLinked(modeOf, s.h, p, i);
      HoldsRefers(modeOf, s.h, p[i - 1], p[i]);
    }
  }

  lemma StaysLive(s: State, t: State, r: Ref)
    requires Pruned(s, t) && Live(s.h, s.cw, r)
    ensures r in t.h
  {
    hide Contents, Unrevived;
  }

  lemma HeldByPruned(strHash: nat -> nat, modeOf: Body -> (bool, bool), hasGc: Body -> bool, s: State, t: State,
        p: seq<Ref>, r: Ref)
    requires GcOk(strHash, s) && Pruned(s, t) && TablesOnly(modeOf, hasGc) && HeldBy(modeOf, s, p, r)
    ensures HeldBy(modeOf, t, p, r)
  {
    hide Structure, LevelsOk, ColorsOk, PhaseOk, LiveClosed, RootsLive, Holds, Swept, TablesOnly, IsRoot;
    forall i | 0 < i < |p| ensures HoldLinked(modeOf, t.h, p, i) {
      assert HoldLinked(modeOf, s.h, p, i);
      HeldLive(modeOf, s, p, i - 1);
      HeldStep(modeOf, hasGc, s, t, p[i - 1], p[i]);
    }
    RootsSame(s, t, p[0]);
  }

  lemma HeldPruned(strHash: nat -> nat, modeOf: Body -> (bool, bool), hasGc: Body -> bool, s: State, t: State, r: Ref)
    requires GcOk(strHash, s) && Pruned(s, t) && TablesOnly(modeOf, hasGc) && Held(modeOf, s, r)
    ensures Held(modeOf, t, r)
  {
    hide GcOk, Pruned, TablesOnly, HeldBy;
    var p :| HeldBy(modeOf, s, p, r);
    HeldByPruned(strHash, modeOf, hasGc, s, t, p, r);
  }

  lemma HeldPastPruned(strHash: nat -> nat, modeOf: Body -> (bool, bool), hasGc: Body -> bool, s: State, t: State,
        r: Ref)
    requires GcOk(strHash, s) && Pruned(s, t) && TablesOnly(modeOf, hasGc) && HeldPast(modeOf, s, s.ls.tmu, r)
    ensures HeldPast(modeOf, t, t.ls.tmu, r)
  {
    hide GcOk, Swept, TablesOnly, HeldBy;
    var p :| HeldBy(modeOf, s, p, r) && forall i :: 0 <= i < |p| - 1 ==> p[i] !in s.ls.tmu;
    HeldByPruned(strHash, modeOf, hasGc, s, t, p, r);
  }

  lemma RootsSame(s: State, t: State, r: Ref)
    requires SameRoots(s, t)
    ensures IsRoot(t, r) == IsRoot(s, r)
  {
  }

  lemma HeldStep(modeOf: Body -> (bool, bool), hasGc: Body -> bool, s: State, t: State, o: Ref, x: Ref)
    requires LiveClosed(s.h, s.cw) && Pruned(s, t) && TablesOnly(modeOf, hasGc)
    requires Live(s.h, s.cw, o) && Holds(modeOf, s.h, o, x)
    ensures o in t.h && Holds(modeOf, t.h, o, x)
  {
    hide Pruned, Refers, Holds, TablesOnly;
    StaysLive(s, t, o);
    PrunedRefers(s, t, o, x);
    var b := s.h[o].body;
    if b.Table? && b.meta.Ptr? {
      MetaReferred(s.h, b);
      StaysLive(s, t, b.meta.r);
    }
    PrunedHolds(modeOf, hasGc, s, t, o, x);
  }

  // ----- What is wanted -----

  lemma AnchorPruned(modeOf: Body -> (bool, bool), hasGc: Body -> bool, s: State, t: State, r: Ref)
    requires Pruned(s, t) && TablesOnly(modeOf, hasGc) && Anchor(hasGc, t, r)
    ensures Anchor(hasGc, s, r)
  {
    hide Contents, FreedDead;
    if r in t.h && t.h[r].body.Udata? {
      assert s.h[r].body == t.h[r].body by { assert Contents(t.h, r) == Contents(s.h, r); UdataContents(s.h, t.h, r); }
      var m := t.h[r].body.umeta;
      if m.Ptr? && m.r in t.h { PrunedMode(modeOf, hasGc, s, t, m.r); }
    }
  }

  lemma UdataContents(h: Heap, k: Heap, r: Ref)
    requires r in h && r in k && k[r].body.Udata? && Contents(k, r) == Contents(h, r)
    ensures h[r].body == k[r].body
  {
  }

  lemma ClingsPruned(modeOf: Body -> (bool, bool), hasGc: Body -> bool, s: State, t: State, o: Ref, x: Ref)
    requires Pruned(s, t) && TablesOnly(modeOf, hasGc) && NoDangling(t.h) && o in t.h && Clings(modeOf, t.h, o, x)
    ensures o in s.h && Clings(modeOf, s.h, o, x)
  {
    hide Pruned, Refers, Holds, TablesOnly;
    PrunedRefers(s, t, o, x);
    var b := t.h[o].body;
    if b.Table? && b.meta.Ptr? { MetaReferred(t.h, b); }
    PrunedHolds(modeOf, hasGc, s, t, o, x);
    if x in t.h && t.h[x].body.Str? { StringPruned(s, t, x); }
  }

  lemma StringPruned(s: State, t: State, x: Ref)
    requires Pruned(s, t) && x in t.h && t.h[x].body.Str?
    ensures x in s.h && s.h[x].body.Str?
  {
    hide FreedDead, Unrevived;
    assert Contents(t.h, x) == Contents(s.h, x);
  }

  lemma WantedPruned(strHash: nat -> nat, modeOf: Body -> (bool, bool), hasGc: Body -> bool, s: State, t: State, r: Ref)
    requires GcOk(strHash, t) && t.phase == Finalize && Pruned(s, t) && TablesOnly(modeOf, hasGc)
    requires Wanted(modeOf, hasGc, t, r)
    ensures Wanted(modeOf, hasGc, s, r)
  {
    NothingDangles(strHash, t);
    hide GcOk, Pruned, TablesOnly, Anchor, Clings, NoDangling;
    var p :| WantedBy(modeOf, hasGc, t, p, r);
    forall i | 0 < i < |p| ensures ClingLinked(modeOf, s.h, p, i) {
      assert ClingLinked(modeOf, t.h, p, i);
      ClingsPruned(modeOf, hasGc, s, t, p[i - 1], p[i]);
    }
    AnchorPruned(modeOf, hasGc, s, t, p[0]);
    assert WantedBy(modeOf, hasGc, s, p, r);
  }

  lemma LiveNext(h: Heap, cw: bool, r: Ref, x: Ref)
    requires LiveClosed(h, cw) && Live(h, cw, r) && Refers(h, h[r].body, x)
    ensures Live(h, cw, x)
  {
  }

  lemma NothingDangles(strHash: nat -> nat, s: State)
    requires GcOk(strHash, s) && s.phase != SweepString && s.phase != Sweep
    ensures NoDangling(s.h)
  {
    hide Structure, LevelsOk, RootsLive, ColorsOk, Refers, LiveClosed, PhaseOk;
    forall r, x | r in s.h && Refers(s.h, s.h[r].body, x) ensures x in s.h {
      NoneDead(s, r);
      LiveNext(s.h, s.cw, r, x);
    }
  }

  // ----- What is left of the contents -----

  lemma SafePruned(strHash: nat -> nat, modeOf: Body -> (bool, bool), hasGc: Body -> bool, s: State, t: State, v: Value)
    requires GcOk(strHash, s) && Pruned(s, t) && TablesOnly(modeOf, hasGc) && (v.Ptr? ==> v.r in t.h)
    requires Safe(modeOf, s, v)
    ensures Safe(modeOf, t, v)
  {
    hide GcOk, TablesOnly, Held, FreedDead, Unrevived;
    if v.Ptr? {
      if Held(modeOf, s, v.r) {
        HeldPruned(strHash, modeOf, hasGc, s, t, v.r);
      } else {
        assert Contents(t.h, v.r) == Contents(s.h, v.r);
      }
    }
  }

  lemma LastingPruned(strHash: nat -> nat, modeOf: Body -> (bool, bool), hasGc: Body -> bool, s: State, t: State,
        v: Value)
    requires GcOk(strHash, s) && Pruned(s, t) && TablesOnly(modeOf, hasGc) && (v.Ptr? ==> v.r in t.h)
    requires Lasting(modeOf, s, v)
    ensures Lasting(modeOf, t, v)
  {
    hide GcOk, TablesOnly, HeldPast, FreedDead, Safe;
    SafePruned(strHash, modeOf, hasGc, s, t, v);
    if v.Ptr? && t.h[v.r].body.Udata? {
      assert Contents(t.h, v.r) == Contents(s.h, v.r) && t.h[v.r].bit3 == s.h[v.r].bit3;
      UdataContents(s.h, t.h, v.r);
      HeldPastPruned(strHash, modeOf, hasGc, s, t, v.r);
    }
  }

  /** What a table refers to is there. */
  lemma EntriesThere(h: Heap, r: Ref)
    requires NoDangling(h) && r in h && h[r].body.Table?
    ensures forall v :: v in h[r].body.arr && v.Ptr? ==> v.r in h
    ensures forall i :: 0 <= i < |h[r].body.nodes| && h[r].body.nodes[i].val != Nil ==>
              var e := h[r].body.nodes[i]; (e.key.Ptr? ==> e.key.r in h) && (e.val.Ptr? ==> e.val.r in h)
    ensures h[r].body.meta.Ptr? ==> h[r].body.meta.r in h
  {
    var b := h[r].body;
    forall v | v in b.arr && v.Ptr? ensures v.r in h { assert Refers(h, b, v.r); }
    forall i | 0 <= i < |b.nodes| && b.nodes[i].val != Nil
      ensures (b.nodes[i].key.Ptr? ==> b.nodes[i].key.r in h) && (b.nodes[i].val.Ptr? ==> b.nodes[i].val.r in h)
    {
      if b.nodes[i].key.Ptr? { assert EntryRefers(b.nodes[i], b.nodes[i].key.r) && Refers(h, b, b.nodes[i].key.r); }
      if b.nodes[i].val.Ptr? { assert EntryRefers(b.nodes[i], b.nodes[i].val.r) && Refers(h, b, b.nodes[i].val.r); }
    }
    if b.meta.Ptr? { assert Refers(h, b, b.meta.r); }
  }

  lemma TablePruned(strHash: nat -> nat, modeOf: Body -> (bool, bool), hasGc: Body -> bool, s: State, t: State, r: Ref,
        now: Body)
    requires GcOk(strHash, s) && Pruned(s, t) && TablesOnly(modeOf, hasGc) && NoDangling(t.h)
    requires r in t.h && t.h[r].body.Table? && r in s.h && s.h[r].body == t.h[r].body
    requires TableLeft(modeOf, t, Mode(modeOf, t.h, r), t.h[r].body, now)
    ensures TableLeft(modeOf, s, Mode(modeOf, s.h, r), s.h[r].body, now)
  {
    EntriesThere(t.h, r);
    hide GcOk, Pruned, TablesOnly, Safe, Lasting, NoDangling;
    var b := t.h[r].body;
    if b.meta.Ptr? { PrunedMode(modeOf, hasGc, s, t, b.meta.r); }
    forall i | 0 <= i < |b.nodes| ensures EntryLeft(modeOf, s, b.nodes[i], now.nodes[i]) {
      var e := b.nodes[i];
      assert EntryLeft(modeOf, t, e, now.nodes[i]);
      if e.val != Nil && Safe(modeOf, s, e.key) && Lasting(modeOf, s, e.val) {
        SafePruned(strHash, modeOf, hasGc, s, t, e.key);
        LastingPruned(strHash, modeOf, hasGc, s, t, e.val);
      }
    }
    forall i | 0 <= i < |b.arr| ensures SlotLeft(modeOf, s, b.arr[i], now.arr[i]) {
      assert SlotLeft(modeOf, t, b.arr[i], now.arr[i]) && b.arr[i] in b.arr;
      if Lasting(modeOf, s, b.arr[i]) { LastingPruned(strHash, modeOf, hasGc, s, t, b.arr[i]); }
    }
  }

  lemma TableContents(h: Heap, r: Ref)
    requires r in h
    ensures Contents(h, r).Table? == h[r].body.Table? && (h[r].body.Table? ==> Contents(h, r) == h[r].body)
  {
  }

  lemma BodyPruned(strHash: nat -> nat, modeOf: Body -> (bool, bool), hasGc: Body -> bool, s: State, t: State, r: Ref,
        now: Body)
    requires GcOk(strHash, s) && Pruned(s, t) && TablesOnly(modeOf, hasGc) && NoDangling(t.h)
    requires r in t.h && r in s.h && Contents(t.h, r) == Contents(s.h, r)
    requires BodyLeft(modeOf, t, r, Contents(t.h, r), now)
    ensures BodyLeft(modeOf, s, r, Contents(s.h, r), now)
  {
    TableContents(s.h, r);
    TableContents(t.h, r);
    hide GcOk, TablesOnly, NoDangling, TableLeft, Mode, Swept, Contents;
    if t.h[r].body.Table? { TablePruned(strHash, modeOf, hasGc, s, t, r, now); }
  }

  lemma PrunedContents(s: State, t: State, r: Ref)
    requires Pruned(s, t) && r in t.h
    ensures r in s.h && Contents(t.h, r) == Contents(s.h, r)
  {
    hide Contents, FreedDead, Unrevived;
  }

  lemma ContentsPruned(strHash: nat -> nat, modeOf: Body -> (bool, bool), hasGc: Body -> bool, s: State, t: State,
        k: Heap)
    requires GcOk(strHash, s) && GcOk(strHash, t) && t.phase == Finalize && Pruned(s, t) && TablesOnly(modeOf, hasGc)
    requires ContentsLeft(modeOf, t, k)
    ensures ContentsLeft(modeOf, s, k)
  {
    hide GcOk, TablesOnly, NoDangling, BodyLeft, Contents, Pruned;
    NothingDangles(strHash, t);
    forall r | r in k ensures r in s.h && BodyLeft(modeOf, s, r, Contents(s.h, r), Contents(k, r)) {
      PrunedContents(s, t, r);
      BodyPruned(strHash, modeOf, hasGc, s, t, r, Contents(k, r));
    }
  }
}
