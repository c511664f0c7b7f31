/** What holds between any two steps of the collector and the program. */
module GcInvariant {
  import opened GcHeap
  import opened GcLists
  import opened GcRemovals

  datatype Phase = Pause | Propagate | SweepString | Sweep | Finalize

  datatype GrayLists = GrayLists(gray: seq<Ref>, again: seq<Ref>, weak: seq<Ref>)

  /** A global state: the collector's own fields and the roots. strPos buckets
      and pos objects of the chain from the root list have been swept. */
  datatype State = State(h: Heap, cw: bool, phase: Phase, ls: Lists, gl: GrayLists, strPos: nat, pos: nat,
                         main: Ref, running: Ref, registry: Value, mt: seq<Value>)

  /** White of the old kind, which the sweep frees. */
  predicate Dead(h: Heap, cw: bool, r: Ref) {
    r in h && h[r].color == White(!cw) && !h[r].fixed
  }

  predicate Live(h: Heap, cw: bool, r: Ref) {
    r in h && !Dead(h, cw, r)
  }

  predicate LiveValue(h: Heap, cw: bool, v: Value) {
    v.Ptr? ==> Live(h, cw, v.r)
  }

  /** Live objects refer to live objects. */
  ghost predicate LiveClosed(h: Heap, cw: bool) {
    forall r, x :: Live(h, cw, r) && Refers(h, h[r].body, x) ==> Live(h, cw, x)
  }

  ghost predicate ColorsOk(h: Heap) {
    forall r :: r in h ==>
      && (h[r].color.Black? ==> !h[r].body.Str? && !h[r].body.OpenUpval? && !h[r].body.Thread?)
      && (h[r].color.Gray? ==> !h[r].body.Udata? && !h[r].body.ClosedUpval?)
  }

  function AllGray(gl: GrayLists): seq<Ref> {
    gl.gray + gl.again + gl.weak
  }

  lemma AllGrayParts(gl: GrayLists)
    ensures forall r :: r in AllGray(gl) <==> r in gl.gray || r in gl.again || r in gl.weak
  {
  }

  /** Every gray object that is to be traversed is on one of three lists, once. */
  ghost predicate Listed(h: Heap, gl: GrayLists) {
    && NoDup(AllGray(gl))
    && (forall r :: r in AllGray(gl) ==> r in h && h[r].color.Gray? && Traversable(h[r].body))
    && (forall r :: r in h && h[r].color.Gray? && Traversable(h[r].body) ==> r in AllGray(gl))
    && (forall r :: r in gl.again ==> h[r].body.Thread? || h[r].body.Table?)
    && (forall r :: r in gl.weak ==> h[r].body.Table?)
  }

  /** What still has to be looked at before the marking is over. */
  function Pending(ls: Lists, gl: GrayLists): set<Ref> {
    ToSet(AllGray(gl)) + ToSet(ls.tmu) + ToSet(ls.upvals)
  }

  ghost predicate NoneOther(h: Heap, cw: bool) {
    forall r :: r in h ==> h[r].color != White(!cw)
  }

  ghost predicate AllWhite(h: Heap, cw: bool, but: set<Ref>) {
    forall r :: r in h && r !in but ==> h[r].color == White(cw)
  }

  /** The sweep has yet to come to object r. */
  ghost predicate Unswept(h: Heap, ls: Lists, strPos: nat, pos: nat, r: Ref)
    requires r in h
  {
    var tail := if pos <= |ls.root + ls.udata| then (ls.root + ls.udata)[pos..] else [];
    match h[r].body
    case Str(_) => exists b :: strPos <= b < |ls.strt| && r in ls.strt[b]
    case OpenUpval(t, _) => t in tail
    case _ => r in tail
  }

  ghost function Todo(s: State): set<Ref> {
    set r | r in s.h && Unswept(s.h, s.ls, s.strPos, s.pos, r)
  }

  ghost predicate MarkedValue(h: Heap, v: Value) {
    v.Ptr? ==> Marked(h, v.r)
  }

  ghost predicate TmuLive(h: Heap, cw: bool, tmu: seq<Ref>) {
    forall r :: r in tmu ==> r in h && h[r].color != White(!cw)
  }

  ghost predicate MarkingOk(s: State) {
    && NoneOther(s.h, s.cw) && Listed(s.h, s.gl) && Covered(s.h, Pending(s.ls, s.gl), {})
    && Marked(s.h, s.main) && MarkedValue(s.h, s.registry)
  }

  ghost predicate PhaseOk(s: State) {
    match s.phase
    case Pause => AllWhite(s.h, s.cw, {}) && s.ls.tmu == []
    case Propagate => MarkingOk(s)
    case SweepString => AllWhite(s.h, s.cw, Todo(s) + ToSet(s.ls.tmu)) && TmuLive(s.h, s.cw, s.ls.tmu) && s.pos == 0
          && s.strPos < |s.ls.strt|
    case Sweep => AllWhite(s.h, s.cw, Todo(s) + ToSet(s.ls.tmu)) && TmuLive(s.h, s.cw, s.ls.tmu)
          && s.strPos == |s.ls.strt|
                  && s.pos <= |s.ls.root| + |s.ls.udata|
    case Finalize => AllWhite(s.h, s.cw, ToSet(s.ls.tmu)) && TmuLive(s.h, s.cw, s.ls.tmu)
  }

  ghost predicate RootsLive(s: State) {
    && Live(s.h, s.cw, s.main)
    && Live(s.h, s.cw, s.running) && s.h[s.running].body.Thread?
    && LiveValue(s.h, s.cw, s.registry)
    && forall i :: 0 <= i < |s.mt| ==> LiveValue(s.h, s.cw, s.mt[i])
  }

  ghost predicate GcOk(strHash: nat -> nat, s: State) {
    && Structure(strHash, s.h, s.ls, s.main) && LevelsOk(s.h)
    && LiveClosed(s.h, s.cw) && RootsLive(s) && ColorsOk(s.h) && PhaseOk(s)
  }

  // ----- Safety -----

  ghost predicate IsRoot(s: State, r: Ref) {
    r == s.main || r == s.running || Ptr(r) == s.registry || Ptr(r) in s.mt
  }

  /** A way from a root to object r. */
  ghost predicate Path(s: State, p: seq<Ref>, r: Ref) {
    && 0 < |p| && p[|p| - 1] == r && IsRoot(s, p[0])
    && forall i :: 0 < i < |p| ==> Linked(s.h, p, i)
  }

  ghost predicate Linked(h: Heap, p: seq<Ref>, i: int)
    requires 0 < i < |p|
  {
    p[i - 1] in h && Refers(h, h[p[i - 1]].body, p[i])
  }

  ghost predicate Reachable(s: State, r: Ref) {
    exists p :: Path(s, p, r)
  }

  /** Whatever the program can get at, even through weak tables, is live. */
  lemma {:induction false} ReachableLive(s: State, p: seq<Ref>, r: Ref)
    requires LiveClosed(s.h, s.cw) && RootsLive(s) && Path(s, p, r)
    ensures Live(s.h, s.cw, r)
    decreases |p|
  {
    if |p| == 1 {
      if Ptr(r) in s.mt {
        var i :| 0 <= i < |s.mt| && s.mt[i] == Ptr(r);
      }
    } else {
      var q := p[..|p| - 1];
      forall i | 0 < i < |q| ensures Linked(s.h, q, i) { assert Linked(s.h, p, i); }
      assert Path(s, q, q[|q| - 1]);
      ReachableLive(s, q, q[|q| - 1]);
      assert Linked(s.h, p, |p| - 1);
    }
  }

  /** During a marking no black object refers to a white one, but for userdata
      that an earlier cycle has left to be finalized. */
  lemma NoBlackToWhite(strHash: nat -> nat, s: State, r: Ref, x: Ref)
    requires GcOk(strHash, s) && s.phase == Propagate && r in s.h && s.h[r].color.Black? && r !in s.ls.tmu
    requires Refers(s.h, s.h[r].body, x)
    ensures Marked(s.h, x)
  {
    hide Refers, LiveClosed, LevelsOk, StringsOk, Interned, RootOk, UdataOk;
    assert r !in AllGray(s.gl) && r !in s.ls.upvals;
    assert Clean(s.h, r);
  }

  /** The exception is needed: userdata u, black since it was marked to keep it for its
      finalizer, may still wait when a full collection starts, and the sweep has whitened all
      that it refers to; markroot then marks the main thread and the registry only. */
  lemma LeftOverBlack(strHash: nat -> nat)
    ensures GcOk(strHash, LeftOver(Finalize, Nil)) && GcOk(strHash, LeftOver(Propagate, Nil))
    ensures var s := LeftOver(Propagate, Nil);
            s.ls.tmu == [3] && s.h[3].color.Black? && Refers(s.h, s.h[3].body, 2) && IsWhite(s.h, 2)
  {
    hide Structure, LevelsOk, LiveClosed, RootsLive, ColorsOk, MarkingOk;
    LeftOverOk(strHash, Finalize, Nil);
    LeftOverOk(strHash, Propagate, Nil);
  }

  lemma LeftOverOk(strHash: nat -> nat, phase: Phase, env: Value)
    requires (phase == Finalize || phase == Propagate) && (env == Nil || env == Ptr(2))
    ensures GcOk(strHash, LeftOver(phase, env))
  {
    hide Structure, LevelsOk, LiveClosed, RootsLive, ColorsOk, MarkingOk;
    LeftOverLists(strHash, phase, env);
    LeftOverLive(phase, env);
    LeftOverMarking(env);
  }

  lemma LeftOverLists(strHash: nat -> nat, phase: Phase, env: Value)
    ensures var s := LeftOver(phase, env); Structure(strHash, s.h, s.ls, s.main) && LevelsOk(s.h)
  {
    hide StringsOk, RootOk, UdataOk, UpvalsOk, Interned, LevelsOk;
    LeftOverRoot(phase, env);
    LeftOverStrings(strHash, phase, env);
    LeftOverUpvals(phase, env);
  }

  lemma LeftOverRoot(phase: Phase, env: Value)
    ensures var s := LeftOver(phase, env); RootOk(s.h, s.ls.root, s.main) && UdataOk(s.h, s.ls.udata, s.ls.tmu)
  {
    var s := LeftOver(phase, env);
    assert s.ls.root[0] == 2 && s.ls.root[1] == 1 && s.ls.root[2] == 0;
    assert s.ls.udata + s.ls.tmu == [3] && s.ls.tmu[0] == 3;
  }

  lemma LeftOverStrings(strHash: nat -> nat, phase: Phase, env: Value)
    ensures var s := LeftOver(phase, env); StringsOk(strHash, s.h, s.ls.strt) && Interned(s.h)
  {
    assert forall r :: r in LeftOver(phase, env).h ==> !LeftOver(phase, env).h[r].body.Str?;
  }

  lemma LeftOverUpvals(phase: Phase, env: Value)
    ensures var s := LeftOver(phase, env); UpvalsOk(s.h, s.ls.upvals) && LevelsOk(s.h)
  {
    assert forall r :: r in LeftOver(phase, env).h ==> !LeftOver(phase, env).h[r].body.OpenUpval?;
  }

  lemma LeftOverLive(phase: Phase, env: Value)
    requires env == Nil || env == Ptr(2)
    ensures var s := LeftOver(phase, env); LiveClosed(s.h, s.cw) && RootsLive(s) && ColorsOk(s.h)
  {
    var s := LeftOver(phase, env);
    assert forall r :: r in s.h ==> s.h[r].color != White(true);
    forall r, x | r in s.h && Refers(s.h, s.h[r].body, x) ensures x in s.h {
      assert r == 1 || r == 3;
    }
  }

  lemma LeftOverMarking(env: Value)
    requires env == Nil || env == Ptr(2)
    ensures MarkingOk(LeftOver(Propagate, env))
  {
    var s := LeftOver(Propagate, env);
    assert AllGray(s.gl) == [1, 0] && [1, 0][0] == 1 && [1, 0][1] == 0;
    assert s.ls.tmu[0] == 3;
    hide Clean, Refers, StrongClean;
  }

  /** A main thread; the registry, a table of which userdata 3 is a key; and table 2, the
      metatable of both. The userdata waits for its finalizer; env is its environment. */
  function LeftOver(phase: Phase, env: Value): State {
    var c := if phase.Propagate? then Gray else White(false);
    State(map[0 := GCObject(c, true, false, false, Thread(Nil, [], [])),
              1 := GCObject(c, false, true, false, Table(Ptr(2), [], [Entry(Ptr(3), Plain(0))])),
              2 := GCObject(White(false), false, false, false, Table(Nil, [], [])),
              3 := GCObject(Black, false, true, false, Udata(Ptr(2), env))],
          false, phase, Lists([2, 1, 0], [], [[]], [3], []),
          GrayLists(if phase.Propagate? then [1, 0] else [], [], []), 1, 3, 0, 0, Ptr(1), [])
  }

  /** The program can get at the userdata. */
  lemma LeftOverReached(phase: Phase, env: Value)
    ensures Reachable(LeftOver(phase, env), 3)
  {
    var s, p := LeftOver(phase, env), [1, 3];
    assert s.h[1].body.nodes[0] == Entry(Ptr(3), Plain(0)) && EntryRefers(s.h[1].body.nodes[0], 3);
    assert Linked(s.h, p, 1);
    assert Path(s, p, 3);
  }

  /** During a marking every gray object to be traversed is on exactly one of the
      three lists, once. */
  lemma GrayOnOneList(strHash: nat -> nat, s: State, r: Ref)
    requires GcOk(strHash, s) && s.phase == Propagate && r in s.h && s.h[r].color.Gray? && Traversable(s.h[r].body)
    ensures var all := AllGray(s.gl);
            exists i :: 0 <= i < |all| && all[i] == r && forall j :: 0 <= j < |all| && j != i ==> all[j] != r
  {
    hide Covered, LiveClosed, LevelsOk, StringsOk, Interned, RootOk, UdataOk, UpvalsOk, AllGray;
    var all := AllGray(s.gl);
    var i :| 0 <= i < |all| && all[i] == r;
    forall j | 0 <= j < |all| && j != i ensures all[j] != r {
      if j < i { assert all[j] != all[i]; } else { assert all[i] != all[j]; }
    }
  }

  /** While nothing is being swept there are no dead objects. */
  lemma NoneDead(s: State, r: Ref)
    requires PhaseOk(s) && s.phase != SweepString && s.phase != Sweep && r in s.h
    ensures Live(s.h, s.cw, r)
  {
    hide Covered, Listed;
  }

  // ----- Changes that leave colours alone -----

  ghost predicate SameColors(h: Heap, k: Heap) {
    SameFrames(h, k) && forall r :: r in h ==> k[r].color == h[r].color
  }

  /** All of the invariant but what depends on the references. */
  lemma SameColorsPhase(s: State, k: Heap)
    requires SameColors(s.h, k) && PhaseOk(s) && (s.phase == Propagate ==> Covered(k, Pending(s.ls, s.gl), {}))
    ensures PhaseOk(s.(h := k))
  {
    hide Covered, Frame;
    forall r | r in s.h
      ensures Traversable(k[r].body) == Traversable(s.h[r].body) && k[r].body.Thread? == s.h[r].body.Thread?
            && k[r].body.Table? == s.h[r].body.Table?
      ensures Unswept(k, s.ls, s.strPos, s.pos, r) == Unswept(s.h, s.ls, s.strPos, s.pos, r)
    {
      FrameKinds(s.h[r].body, k[r].body);
    }
    assert Todo(s.(h := k)) == Todo(s);
    hide Todo;
    if s.phase == Propagate { SameColorsListed(s.h, k, s.gl); }
  }

  lemma SameColorsListed(h: Heap, k: Heap, gl: GrayLists)
    requires SameColors(h, k) && Listed(h, gl)
    ensures Listed(k, gl)
  {
    hide Frame, AllGray;
    forall r | r in h
      ensures Traversable(k[r].body) == Traversable(h[r].body) && k[r].body.Thread? == h[r].body.Thread?
            && k[r].body.Table? == h[r].body.Table?
    {
      FrameKinds(h[r].body, k[r].body);
    }
    AllGrayParts(gl);
  }

  lemma SameColorsOk(h: Heap, k: Heap)
    requires SameColors(h, k) && ColorsOk(h)
    ensures ColorsOk(k)
  {
    hide Frame;
    forall r | r in h
      ensures h[r].body.Str? == k[r].body.Str? && h[r].body.OpenUpval? == k[r].body.OpenUpval?
            && h[r].body.Thread? == k[r].body.Thread?
           && h[r].body.Udata? == k[r].body.Udata? && h[r].body.ClosedUpval? == k[r].body.ClosedUpval?
    {
      FrameKinds(h[r].body, k[r].body);
    }
  }

  // ----- A write to one object -----

  /** Object o has a new body, which holds no new references but v and w. */
  ghost predicate Wrote(h: Heap, k: Heap, o: Ref, v: Value, w: Value) {
    && o in h && k == h[o := h[o].(body := if o in k then k[o].body else h[o].body)]
    && Frame(k[o].body) == Frame(h[o].body) && !h[o].body.Thread?
    && forall x :: Refers(k, k[o].body, x) ==> Refers(h, h[o].body, x) || v == Ptr(x) || w == Ptr(x)
  }

  lemma WroteOthers(h: Heap, k: Heap, o: Ref, v: Value, w: Value, r: Ref, x: Ref)
    requires Wrote(h, k, o, v, w) && r in h && r != o
    ensures Refers(k, k[r].body, x) == Refers(h, h[r].body, x)
  {
    FrameKinds(h[o].body, k[o].body);
  }

  lemma WroteFrames(h: Heap, k: Heap, o: Ref, v: Value, w: Value)
    requires Wrote(h, k, o, v, w)
    ensures SameColors(h, k) && (LevelsOk(h) ==> LevelsOk(k))
  {
    FrameKinds(h[o].body, k[o].body);
    hide Frame, Refers;
  }

  lemma WroteLive(h: Heap, k: Heap, cw: bool, o: Ref, v: Value, w: Value)
    requires Wrote(h, k, o, v, w) && LiveClosed(h, cw) && LiveValue(h, cw, v) && LiveValue(h, cw, w)
    ensures LiveClosed(k, cw)
  {
    forall r, x | Live(k, cw, r) && Refers(k, k[r].body, x) ensures Live(k, cw, x) {
      if r != o { WroteOthers(h, k, o, v, w, r, x); }
      hide Refers;
      assert Live(h, cw, r) && Live(h, cw, x);
    }
  }

  lemma WroteCovered(h: Heap, k: Heap, o: Ref, v: Value, w: Value, p: set<Ref>)
    requires Wrote(h, k, o, v, w) && Covered(h, p, {})
    ensures Covered(k, p + {o}, {})
    ensures (MarkedValue(k, v) && MarkedValue(k, w)) || !Marked(k, o) ==> Covered(k, p, {})
  {
    hide Refers, Frame;
    forall r | Marked(k, r) && r != o ensures r in p || Clean(k, r) {
      assert Marked(h, r);
      if Clean(h, r) {
        forall x | Refers(k, k[r].body, x) ensures Marked(k, x) { WroteOthers(h, k, o, v, w, r, x); }
      }
    }
    if Marked(k, o) && MarkedValue(k, v) && MarkedValue(k, w) && o !in p {
      assert Marked(h, o) && Clean(h, o);
      forall x | Refers(k, k[o].body, x) ensures Marked(k, x) { assert Refers(h, h[o].body, x) ==> Marked(h, x); }
    }
  }

  // ----- A write to a thread: its stack and globals are never behind a barrier -----

  ghost predicate WroteThread(h: Heap, k: Heap, t: Ref, cw: bool) {
    && t in h && h[t].body.Thread? && t in k && k[t].body.Thread? && k == h[t := h[t].(body := k[t].body)]
    && k[t].body.open == h[t].body.open
    && forall x :: Refers(k, k[t].body, x) ==> Refers(h, h[t].body, x) || Live(h, cw, x)
  }

  lemma WroteIsThread(h: Heap, k: Heap, t: Ref, cw: bool)
    requires WroteThread(h, k, t, cw)
    ensures t in h && h[t].body.Thread?
  {
  }

  lemma ThreadOthers(h: Heap, k: Heap, t: Ref, cw: bool, r: Ref, x: Ref)
    requires WroteThread(h, k, t, cw) && r in h && r != t && !h[r].body.OpenUpval?
    ensures Refers(k, k[r].body, x) == Refers(h, h[r].body, x)
  {
  }

  lemma ThreadCovered(h: Heap, k: Heap, t: Ref, cw: bool, p: set<Ref>)
    requires WroteThread(h, k, t, cw) && Covered(h, p, {}) && (Marked(h, t) ==> t in p)
    requires forall u :: u in h && h[u].body.OpenUpval? ==> u in p
    ensures Covered(k, p, {})
  {
    hide Refers;
    forall r | Marked(k, r) && r !in p ensures Clean(k, r) {
      assert Marked(h, r) && Clean(h, r);
      forall x | Refers(k, k[r].body, x) ensures Marked(k, x) { ThreadOthers(h, k, t, cw, r, x); }
    }
  }

  lemma ThreadLive(h: Heap, k: Heap, t: Ref, cw: bool)
    requires WroteThread(h, k, t, cw) && LiveClosed(h, cw)
    requires forall u, x :: u in h && Live(h, cw, u) && h[u].body.OpenUpval? && Refers(k, k[u].body, x) ==>
          Live(h, cw, x)
    ensures LiveClosed(k, cw)
  {
    hide Refers;
    forall r, x | Live(k, cw, r) && Refers(k, k[r].body, x) ensures Live(k, cw, x) {
      assert Live(h, cw, r);
      if r != t && !h[r].body.OpenUpval? { ThreadOthers(h, k, t, cw, r, x); }
      assert Live(h, cw, x);
    }
  }

  lemma ThreadFrames(h: Heap, k: Heap, t: Ref, cw: bool)
    requires WroteThread(h, k, t, cw)
    ensures SameColors(h, k)
  {
    hide Refers;
  }
}
