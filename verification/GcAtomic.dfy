/** The last part of a marking, done in one step: userdata to be finalized,
    weak tables, and the change of white. */
module GcAtomic {
  import opened GcHeap
  import opened GcLists
  import opened GcRemovals
  import opened GcInvariant
  import opened GcMarking
  import opened GcGrowth

  // ----- Setting userdata apart -----

  /** Only finalized bits of userdata have been set. */
  ghost predicate OnlyFinalized(h: Heap, k: Heap) {
    k.Keys == h.Keys && forall r :: r in h ==> k[r] == h[r] || (h[r].body.Udata? && k[r] == h[r].(bit3 := true))
  }

  predicate HasFinalizer(hasGc: Body -> bool, h: Heap, u: Ref) {
    u in h && h[u].body.Udata? && h[u].body.umeta.Ptr? && h[u].body.umeta.r in h && hasGc(h[h[u].body.umeta.r].body)
  }

  predicate ToFinalize(hasGc: Body -> bool, h: Heap, u: Ref, all: bool) {
    u in h && (h[u].color.White? || all) && !h[u].bit3 && HasFinalizer(hasGc, h, u)
  }

  predicate Unfinalized(h: Heap, u: Ref) {
    u in h && h[u].body.Udata? && !h[u].bit3
  }

  /** Userdata that may still be set apart are listed newest first. */
  ghost predicate NewestFirst(h: Heap, udata: seq<Ref>) {
    forall i, j :: 0 <= i < j < |udata| && Unfinalized(h, udata[i]) && Unfinalized(h, udata[j]) ==> udata[i] > udata[j]
  }

  /** What finalizers rely on: n is the number of the next object, and called are
      the userdata whose finalizers have run. */
  ghost predicate FinOk(h: Heap, udata: seq<Ref>, tmu: seq<Ref>, called: set<Ref>, n: Ref) {
    && NewestFirst(h, udata)
    && (forall u :: u in called ==> u !in tmu && u < n && !Unfinalized(h, u) && (u in h ==> h[u].body.Udata?))
    && (forall r :: r in h ==> r < n)
  }

  lemma FinNewest(h: Heap, udata: seq<Ref>, tmu: seq<Ref>, called: set<Ref>, n: Ref)
    requires FinOk(h, udata, tmu, called, n)
    ensures NewestFirst(h, udata)
  {
  }

  /** No object is new, and userdata are as before. */
  ghost predicate FinSame(h: Heap, k: Heap) {
    forall r :: r in k ==>
          r in h && k[r].body.Udata? == h[r].body.Udata? && (k[r].body.Udata? ==> k[r].bit3 == h[r].bit3)
  }

  lemma FinKept(h: Heap, k: Heap, udata: seq<Ref>, tmu: seq<Ref>, called: set<Ref>, n: Ref)
    requires FinOk(h, udata, tmu, called, n) && FinSame(h, k)
    ensures FinOk(k, udata, tmu, called, n)
  {
  }

  ghost predicate Descends(s: seq<Ref>) {
    forall i, j :: 0 <= i < j < |s| ==> s[i] > s[j]
  }

  lemma FinalizedClean(h: Heap, k: Heap, r: Ref)
    requires OnlyFinalized(h, k) && r in h
    ensures (Clean(h, r) ==> Clean(k, r)) && (StrongClean(h, r) ==> StrongClean(k, r)) && Marked(k, r) == Marked(h, r)
  {
    hide StronglyRefers;
    forall x ensures Refers(k, k[r].body, x) == Refers(h, h[r].body, x) { FinalizedRefers(h, k, r, x); }
    hide Refers;
    assert forall x :: Marked(k, x) == Marked(h, x);
  }

  lemma FinalizedRefers(h: Heap, k: Heap, r: Ref, x: Ref)
    requires OnlyFinalized(h, k) && r in h
    ensures Refers(k, k[r].body, x) == Refers(h, h[r].body, x)
  {
  }

  lemma FinalizedKept(h: Heap, k: Heap, gl: GrayLists, s: set<Ref>, w: set<Ref>)
    requires OnlyFinalized(h, k)
    ensures NoDangling(h) ==> NoDangling(k)
    ensures Listed(h, gl) ==> Listed(k, gl)
    ensures ColorsOk(h) ==> ColorsOk(k)
    ensures Covered(h, s, w) ==> Covered(k, s, w)
    ensures SameFrames(h, k) && (LevelsOk(h) ==> LevelsOk(k))
  {
    if Covered(h, s, w) {
      forall r | Marked(k, r) ensures r in s || Clean(k, r) || (r in w && StrongClean(k, r)) {
        hide Clean, StrongClean;
        FinalizedClean(h, k, r);
      }
    }
    if NoDangling(h) {
      hide Refers;
      forall r, x | r in k && Refers(k, k[r].body, x) ensures x in k { FinalizedRefers(h, k, r, x); }
    }
    hide Clean, StrongClean, Refers, Frame;
  }

  // ----- Marking those set apart -----

  lemma TmuStep(h: Heap, gl: GrayLists, u: Ref, c: Color, k: Heap, g': seq<Ref>, s: set<Ref>, w: set<Ref>)
    requires u in h && h[u].body.Udata? && c.White? && Advance(Painted(h, u, c), gl.gray, k, g', {}) && Marked(k, u)
    requires Covered(h, s + {u} + ToSet(gl.gray), w) && Listed(h, gl) && ColorsOk(h) && NoDangling(h)
    ensures Covered(k, s + ToSet(g'), w) && Listed(k, gl.(gray := g')) && ColorsOk(k) && NoDangling(k) && Grown(h, k)
  {
    var m := Painted(h, u, c);
    TmuPaint(h, gl, u, c);
    hide Clean, StrongClean, Refers, Advance, Covered, Listed, ColorsOk, NoDangling;
    AdvanceListed(m, gl, k, g');
    AdvanceColors(m, gl.gray, k, g');
    AdvanceGrown(m, gl.gray, k, g');
    GrownDangling(m, k);
    TmuGrown(h, u, c, k);
    TmuCovered(h, gl, u, c, k, g', s, w);
  }

  lemma TmuGrown(h: Heap, u: Ref, c: Color, k: Heap)
    requires u in h && c.White? && Grown(Painted(h, u, c), k) && Marked(k, u)
    ensures Grown(h, k)
  {
    var m := Painted(h, u, c);
    assert forall r :: r in h ==> r in m;
  }

  lemma TmuPaint(h: Heap, gl: GrayLists, u: Ref, c: Color)
    requires u in h && h[u].body.Udata? && c.White? && Listed(h, gl) && ColorsOk(h) && NoDangling(h)
    ensures var m := Painted(h, u, c); Listed(m, gl) && ColorsOk(m) && NoDangling(m)
  {
    var m := Painted(h, u, c);
    hide Refers;
    SwapDangling2(h, u, m[u]);
    hide NoDangling;
    assert ColorsOk(m);
    hide ColorsOk;
    assert Listed(m, gl) by {
      assert forall r :: r in AllGray(gl) ==> r != u;
      assert forall r :: r in gl.again || r in gl.weak ==> r in AllGray(gl);
      hide AllGray;
    }
  }

  lemma SwapDangling2(h: Heap, t: Ref, ob: GCObject)
    requires t in h && ob.body == h[t].body && NoDangling(h)
    ensures NoDangling(h[t := ob])
  {
    hide Refers;
    var k := h[t := ob];
    forall r, x | r in k && Refers(k, k[r].body, x) ensures x in k { SwapRefers(h, t, ob, h[r].body, x); }
  }

  lemma TmuCovered(h: Heap, gl: GrayLists, u: Ref, c: Color, k: Heap, g': seq<Ref>, s: set<Ref>, w: set<Ref>)
    requires u in h && h[u].body.Udata? && c.White? && Advance(Painted(h, u, c), gl.gray, k, g', {}) && Marked(k, u)
    requires Covered(h, s + {u} + ToSet(gl.gray), w) && Grown(h, k)
    ensures Covered(k, s + ToSet(g'), w)
  {
    var m := Painted(h, u, c);
    hide Clean, StrongClean;
    forall r | Marked(k, r) ensures r in s + ToSet(g') || Clean(k, r) || (r in w && StrongClean(k, r)) {
      assert r in h;
      if r == u || !Marked(h, r) {
        assert NewlyMarked(m, k, r) && MarkedWell(k, g', r);
      } else {
        if r in gl.gray { assert r in g'[|g'| - |gl.gray|..]; }
        GrownClean(h, k, r);
        assert m[r] == h[r] && k[r].bit3 == h[r].bit3 && k[r].bit4 == h[r].bit4;
      }
    }
  }

  lemma GrownClean(h: Heap, k: Heap, r: Ref)
    requires Grown(h, k) && r in h
    ensures Clean(h, r) ==> Clean(k, r)
    ensures StrongClean(h, r) && k[r].bit3 == h[r].bit3 && k[r].bit4 == h[r].bit4 ==> StrongClean(k, r)
  {
    hide Refers, StronglyRefers;
    forall x ensures Refers(k, k[r].body, x) == Refers(h, h[r].body, x) { GrownRefers(h, k, r, x); }
  }

  // ----- Clearing weak tables -----

  /** A reference that is taken out of a weak table: to an object about to be
      collected, or, unless it is a key, to a userdata about to be finalized. */
  predicate Collected(h: Heap, v: Value, isKey: bool) {
    v.Ptr? && v.r in h && !h[v.r].body.Str? && (h[v.r].color.White? || (h[v.r].body.Udata? && !isKey && h[v.r].bit3))
  }

  /** Only white strings have been marked. */
  ghost predicate StringsMarked(h: Heap, k: Heap) {
    k.Keys == h.Keys
    && forall r :: r in h ==> k[r] == h[r] || (h[r].body.Str? && h[r].color.White? && k[r] == h[r].(color := Gray))
  }

  lemma StringsMarkedTrans(h: Heap, k: Heap, l: Heap)
    requires StringsMarked(h, k) && StringsMarked(k, l)
    ensures StringsMarked(h, l)
  {
    assert forall r :: r in h ==> r in k;
  }

  lemma StringsRefers(h: Heap, k: Heap, b: Body, x: Ref)
    requires StringsMarked(h, k)
    ensures Refers(k, b, x) == Refers(h, b, x)
  {
    assert forall t :: t in h && h[t].body.Thread? ==> k[t] == h[t];
  }

  lemma StringsClean(h: Heap, k: Heap, r: Ref)
    requires StringsMarked(h, k) && r in h
    ensures Clean(h, r) ==> Clean(k, r)
    ensures StrongClean(h, r) ==> StrongClean(k, r)
    ensures h[r].body.Str? ==> Clean(k, r)
  {
    assert k[r].body == h[r].body;
    assert k[r].body.Str? ==> Clean(k, r);
    hide StronglyRefers;
    forall x ensures Refers(k, k[r].body, x) == Refers(h, h[r].body, x) { StringsRefers(h, k, h[r].body, x); }
    hide Refers;
    assert forall x :: Marked(h, x) ==> Marked(k, x);
    assert h[r].body.Table? ==> k[r] == h[r];
  }

  /** The slots whose values are collected are empty, all others as before. */
  ghost predicate ArrayCleared(h: Heap, was: seq<Value>, now: seq<Value>) {
    |now| == |was| && forall i :: 0 <= i < |was| ==> now[i] == if Collected(h, was[i], false) then Nil else was[i]
  }

  /** An entry has lost its value exactly if its key or value is collected. */
  ghost predicate EntryCleared(h: Heap, was: Entry, now: Entry) {
    now == if was.val != Nil && (Collected(h, was.key, true) || Collected(h, was.val, false)) then Entry(was.key, Nil)
           else was
  }

  ghost predicate NodesCleared(h: Heap, was: seq<Entry>, now: seq<Entry>) {
    |now| == |was| && forall i :: 0 <= i < |was| ==> EntryCleared(h, was[i], now[i])
  }

  /** What a table has lost is what was to be collected; slots of the array only if values are
      weak. */
  ghost predicate TableCleared(h: Heap, was: Body, now: Body, weakVal: bool) {
    && was.Table? && now.Table? && now.meta == was.meta && NodesCleared(h, was.nodes, now.nodes)
    && if weakVal then ArrayCleared(h, was.arr, now.arr) else now.arr == was.arr
  }

  lemma CollectedKept(h: Heap, k: Heap, v: Value, isKey: bool)
    requires StringsMarked(h, k)
    ensures Collected(k, v, isKey) == Collected(h, v, isKey)
  {
  }

  lemma ClearedRefers(h: Heap, k: Heap, was: Body, now: Body, weakVal: bool, x: Ref)
    requires TableCleared(h, was, now, weakVal) && Refers(k, now, x)
    ensures Refers(h, was, x)
  {
    hide Collected;
    if Ptr(x) in now.arr {
      var i :| 0 <= i < |now.arr| && now.arr[i] == Ptr(x);
      assert was.arr[i] == Ptr(x);
    } else if now.meta != Ptr(x) {
      var i :| 0 <= i < |now.nodes| && EntryRefers(now.nodes[i], x);
      assert EntryCleared(h, was.nodes[i], now.nodes[i]) && EntryRefers(was.nodes[i], x);
    }
  }

  /** All that is left in a cleared table is marked. */
  lemma ClearedClean(h: Heap, t: Ref, now: Body)
    requires t in h && now.Table? && MarkedValue(h, now.meta)
          && (forall i :: 0 <= i < |now.arr| ==> MarkedValue(h, now.arr[i]))
    requires forall i :: 0 <= i < |now.nodes| && now.nodes[i].val != Nil ==>
               MarkedValue(h, now.nodes[i].key) && MarkedValue(h, now.nodes[i].val)
    requires !h[t].color.White?
    ensures Clean(h[t := h[t].(body := now)], t)
  {
    var k := h[t := h[t].(body := now)];
    assert forall x :: Marked(h, x) ==> Marked(k, x);
  }

  /** One weak table less to clear. */
  lemma ClearedStep(h: Heap, m: Heap, k: Heap, t: Ref, now: Body, w: set<Ref>)
    requires StringsMarked(h, m) && t in m && k == m[t := m[t].(body := now)]
          && TableCleared(h, h[t].body, now, h[t].bit4)
    requires Covered(h, {}, w + {t}) && Clean(k, t)
    ensures Covered(k, {}, w)
  {
    hide StrongClean, Clean, TableCleared;
    forall r | Marked(k, r) ensures Clean(k, r) || (r in w && StrongClean(k, r)) {
      if r != t {
        StringsClean(h, m, r);
        OtherClean(h, m, k, t, now, r);
      }
    }
  }

  lemma OtherClean(h: Heap, m: Heap, k: Heap, t: Ref, now: Body, r: Ref)
    requires StringsMarked(h, m) && t in m && k == m[t := m[t].(body := now)]
          && TableCleared(h, h[t].body, now, h[t].bit4)
          && r in m && r != t
    ensures (Clean(m, r) ==> Clean(k, r)) && (StrongClean(m, r) ==> StrongClean(k, r))
  {
    assert m[t].body.Table?;
    hide TableCleared, StronglyRefers;
    forall x ensures Refers(k, k[r].body, x) == Refers(m, m[r].body, x) { }
    hide Refers;
    assert forall x :: Marked(k, x) == Marked(m, x);
  }

  // ----- The change of white -----

  lemma AllTodo(strHash: nat -> nat, h: Heap, ls: Lists, main: Ref, r: Ref)
    requires Structure(strHash, h, ls, main) && r in h && r !in ls.tmu
    ensures Unswept(h, ls, 0, 0, r)
  {
    assert (ls.root + ls.udata)[0..] == ls.root + ls.udata;
    match h[r].body
    case Str(c) => assert r in ls.strt[Bucket(strHash, |ls.strt|, c)];
    case OpenUpval(t, _) => assert OpenedOk(h, r); assert InRoot(h[t].body);
    case _ =>
  }

  /** Objects not marked by now are dead, and the others refer to none of them. */
  lemma Flipped(h: Heap, cw: bool, main: Ref)
    requires Covered(h, {}, {}) && Marked(h, main) && forall r :: r in h && h[r].fixed ==> r == main || h[r].body.Str?
    requires NoneOther(h, cw)
    ensures LiveClosed(h, !cw)
  {
    forall r, x | Live(h, !cw, r) && Refers(h, h[r].body, x) ensures Live(h, !cw, x) {
      assert Marked(h, r) && Clean(h, r);
      assert Marked(h, x);
    }
  }

  // ----- Nothing strongly reachable is lost -----

  /** The weak bits of table t are what its metatable says, and one is set. */
  ghost predicate ModeBits(modeOf: Body -> (bool, bool), h: Heap, t: Ref) {
    && t in h && (h[t].bit3 || h[t].bit4)
    && h[t].body.Table? && h[t].body.meta.Ptr? && h[t].body.meta.r in h
    && modeOf(h[h[t].body.meta.r].body) == (h[t].bit3, h[t].bit4)
  }

  /** Object o refers to x in a way that keeps x, by the present weak modes. */
  ghost predicate Holds(modeOf: Body -> (bool, bool), h: Heap, o: Ref, x: Ref)
    requires o in h
  {
    var b := h[o].body;
    if b.Table? && b.meta.Ptr? && b.meta.r in h then
      var mode := modeOf(h[b.meta.r].body);
      StronglyRefers(b, mode.0, mode.1, x)
    else Refers(h, b, x)
  }

  ghost predicate HoldLinked(modeOf: Body -> (bool, bool), h: Heap, p: seq<Ref>, i: int)
    requires 0 < i < |p|
  {
    p[i - 1] in h && Holds(modeOf, h, p[i - 1], p[i])
  }

  /** When the marking is over, every object the program holds is marked, so that
      clearing weak tables takes none of them out; as long as there are objects s that
      are still to be traversed, but for what is held only through these. */
  lemma {:induction false} HeldMarked(modeOf: Body -> (bool, bool), h: Heap, s: set<Ref>, w: set<Ref>, p: seq<Ref>)
    requires Covered(h, s, w) && forall t :: t in w ==> ModeBits(modeOf, h, t)
    requires 0 < |p| && Marked(h, p[0]) && forall i :: 0 < i < |p| ==> HoldLinked(modeOf, h, p, i)
    requires forall i :: 0 <= i < |p| - 1 ==> p[i] !in s
    ensures Marked(h, p[|p| - 1])
    decreases |p|
  {
    if 1 < |p| {
      var q := p[..|p| - 1];
      forall i | 0 < i < |q| ensures HoldLinked(modeOf, h, q, i) { assert HoldLinked(modeOf, h, p, i); }
      HeldMarked(modeOf, h, s, w, q);
      assert HoldLinked(modeOf, h, p, |p| - 1);
      HoldsMarked(modeOf, h, s, w, p[|p| - 2], p[|p| - 1]);
    }
  }

  lemma HoldsMarked(modeOf: Body -> (bool, bool), h: Heap, s: set<Ref>, w: set<Ref>, o: Ref, x: Ref)
    requires Covered(h, s, w) && forall t :: t in w ==> ModeBits(modeOf, h, t)
    requires o !in s && Marked(h, o) && Holds(modeOf, h, o, x)
    ensures Marked(h, x)
  {
    assert h[o].body.Table? && h[o].body.meta.Ptr? && h[o].body.meta.r in h ==> Refers(h, h[o].body, x) by {
      if h[o].body.Table? && h[o].body.meta.Ptr?
            && h[o].body.meta.r in h { StrongIsReference(h, h[o].body, modeOf(h[h[o].body.meta.r].body), x); }
    }
    assert Refers(h, h[o].body, x);
    hide Refers, StronglyRefers;
  }

  lemma StrongIsReference(h: Heap, b: Body, mode: (bool, bool), x: Ref)
    requires b.Table?
    ensures StronglyRefers(b, mode.0, mode.1, x) ==> Refers(h, b, x)
  {
    assert forall i ::
          0 <= i < |b.nodes| && b.nodes[i].val != Nil && (b.nodes[i].key == Ptr(x) || b.nodes[i].val == Ptr(x)) ==>
      EntryRefers(b.nodes[i], x);
  }
}
