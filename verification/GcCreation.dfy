/** Why new and revived objects keep the invariant. */
module GcCreation {
  import opened GcHeap
  import opened GcLists
  import opened GcRemovals
  import opened GcInvariant
  import opened GcMarking
  import opened GcGrowth
  import opened GcAtomic
  import opened GcSweeping
  import opened GcMutation

  lemma NotListed(strHash: nat -> nat, s: State, r: Ref)
    requires CoreOk(strHash, s) && r !in s.h
    ensures r !in s.ls.root && r !in s.ls.udata
  {
    hide StringsOk, Interned, UpvalsOk, LiveClosed;
  }

  lemma AddedFin(h: Heap, udata: seq<Ref>, tmu: seq<Ref>, called: set<Ref>, r: Ref, o: GCObject)
    requires FinOk(h, udata, tmu, called, r)
    ensures r !in h && r !in called
    ensures FinOk(h[r := o], udata, tmu, called, r + 1) || r in udata
    ensures o.body.Udata? ==> FinOk(h[r := o], [r] + udata, tmu, called, r + 1) || r in udata
  {
    var k, w := h[r := o], [r] + udata;
    assert forall j :: 0 < j < |w| ==> w[j] == udata[j - 1];
    assert forall x :: x != r ==> Unfinalized(k, x) == Unfinalized(h, x);
    assert forall j :: 0 <= j < |udata| && Unfinalized(h, udata[j]) ==> udata[j] < r;
    if r !in udata { assert forall j :: 0 <= j < |udata| ==> udata[j] != r; }
  }

  lemma AddedPhase(s: State, r: Ref, o: GCObject, ls: Lists, pos: nat)
    requires PhaseOk(s) && LevelsOk(s.h) && r !in s.h && o.color == White(s.cw) && r !in s.ls.root && r !in s.ls.udata
    requires ls.tmu == s.ls.tmu && ls.upvals == s.ls.upvals && |ls.strt| == |s.ls.strt|
          && SameTail(s.ls, s.pos, ls, pos, r)
    requires (s.pos == 0 ==> pos == 0) && (s.pos <= |s.ls.root| + |s.ls.udata| ==> pos <= |ls.root| + |ls.udata|)
    ensures PhaseOk(s.(h := s.h[r := o], ls := ls, pos := pos))
  {
    var s' := s.(h := s.h[r := o], ls := ls, pos := pos);
    hide LevelsOk, Todo, SameTail, MarkingOk;
    RestAllWhite(s);
    RestAllWhite(s');
    if s.phase == Propagate {
      AddedMarking(s, r, o, ls);
      MarkingShift(s.(h := s.h[r := o], ls := ls), s');
    } else if s.phase == Sweep || s.phase == SweepString {
      AddedRest(s, r, o, ls, pos);
    }
  }

  lemma MarkingShift(a: State, b: State)
    requires MarkingOk(a) && b == a.(pos := b.pos)
    ensures MarkingOk(b)
  {
    hide Covered, Listed;
  }

  lemma BucketFront(ls: Lists, pos: nat, b: nat, r: Ref)
    requires b < |ls.strt|
    ensures SameTail(ls, pos, ls.(strt := ls.strt[b := [r] + ls.strt[b]]), pos, r)
  {
  }

  lemma UdataFront(ls: Lists, pos: nat, r: Ref)
    ensures SameTail(ls, pos, ls.(udata := [r] + ls.udata), if pos <= |ls.root| then pos else pos + 1, r)
  {
    var a, b := ls.root + ls.udata, ls.root + ([r] + ls.udata);
    var pos' := if pos <= |ls.root| then pos else pos + 1;
    if pos <= |a| {
      forall x | x in a[pos..] ensures x in b[pos'..] {
        var j :| 0 <= j < |a[pos..]| && a[pos..][j] == x;
        var q := pos + j;
        var q' := if q < |ls.root| then q else q + 1;
        assert b[q'] == x;
        assert b[pos'..][q' - pos'] == x;
      }
    }
  }

  // ----- Reviving -----

  /** A dead string or open upvalue is wanted again. */
  lemma ReviveCore(strHash: nat -> nat, s: State, r: Ref)
    requires CoreOk(strHash, s) && r in s.h && forall x :: Refers(s.h, s.h[r].body, x) ==> Live(s.h, s.cw, x)
    ensures CoreOk(strHash, s.(h := Painted(s.h, r, White(s.cw))))
  {
    hide Structure, Refers, Frame, SameFrames, LiveClosed, LevelsOk, RootsLive;
    var k := Painted(s.h, r, White(s.cw));
    assert Recolored(s.h, k);
    RecoloredFrames(s.h, k);
    FramesStructure(strHash, s.h, k, s.ls, s.main);
    ReviveLive(s.h, s.cw, r);
    ReviveRoots(s, r);
  }

  lemma ReviveLive(h: Heap, cw: bool, r: Ref)
    requires LiveClosed(h, cw) && r in h && forall x :: Refers(h, h[r].body, x) ==> Live(h, cw, x)
    ensures LiveClosed(Painted(h, r, White(cw)), cw)
  {
    hide Refers;
    var k := Painted(h, r, White(cw));
    forall q, x | Live(k, cw, q) && Refers(k, k[q].body, x) ensures Live(k, cw, x) {
      RecoloredRefers(h, k, k[q].body, x);
      if q != r { assert Live(h, cw, q); }
      assert Live(h, cw, x);
    }
  }

  lemma ReviveRoots(s: State, r: Ref)
    requires RootsLive(s) && r in s.h
    ensures RootsLive(s.(h := Painted(s.h, r, White(s.cw))))
  {
    var k := Painted(s.h, r, White(s.cw));
    assert forall x :: Live(s.h, s.cw, x) ==> Live(k, s.cw, x);
  }

  /** Dead objects are met in a sweep only. */
  lemma RevivePhase(s: State, r: Ref)
    requires PhaseOk(s) && r in s.h && s.h[r].color == White(!s.cw)
    ensures PhaseOk(s.(h := Painted(s.h, r, White(s.cw))))
  {
    hide Covered, Listed;
    if s.phase == Propagate { assert false; }
    WhitenPhase(s, r);
  }

  // ----- A new open upvalue -----

  function WithUpval(h: Heap, t: Ref, r: Ref, o: GCObject, i: nat): Heap
    requires t in h && h[t].body.Thread? && i <= |h[t].body.open|
  {
    h[r := o][t := WithOpen(h[t], h[t].body.open[..i] + [r] + h[t].body.open[i..])]
  }

  lemma UpvalRefers(h: Heap, t: Ref, r: Ref, o: GCObject, i: nat, b: Body, x: Ref)
    requires t in h && h[t].body.Thread? && i <= |h[t].body.open| && r !in h && o.body.OpenUpval?
    ensures Refers(WithUpval(h, t, r, o, i), b, x) == Refers(h, b, x)
  {
  }

  lemma UpvalMarks(h: Heap, t: Ref, r: Ref, o: GCObject, i: nat)
    requires t in h && h[t].body.Thread? && i <= |h[t].body.open| && r !in h
    ensures var k := WithUpval(h, t, r, o, i);
            && k.Keys == h.Keys + {r} && k[r] == o && (forall x :: x in h && x != t ==> k[x] == h[x])
            && k[t] == WithOpen(h[t], k[t].body.open) && k[t].body.Thread?
  {
  }

  lemma UpvalSame(h: Heap, t: Ref, r: Ref, o: GCObject, i: nat, q: Ref, x: Ref)
    requires t in h && h[t].body.Thread? && i <= |h[t].body.open| && r !in h && o.body.OpenUpval? && q in h
    ensures var k := WithUpval(h, t, r, o, i); Refers(k, k[q].body, x) == Refers(h, h[q].body, x)
  {
    UpvalRefers(h, t, r, o, i, h[q].body, x);
    if q == t {
      var k := WithUpval(h, t, r, o, i);
      assert Refers(k, k[q].body, x) == Refers(k, h[q].body, x);
    }
  }

  lemma UpvalCore(strHash: nat -> nat, s: State, t: Ref, r: Ref, o: GCObject, i: nat)
    requires CoreOk(strHash, s) && Live(s.h, s.cw, t) && s.h[t].body.Thread? && r !in s.h
    requires o.body.OpenUpval? && o.body.thread == t && !o.fixed && o.color == White(s.cw)
          && o.body.level < |s.h[t].body.stack|
    requires OpenPlace(s.h, s.h[t].body.open, o.body.level, i)
    ensures CoreOk(strHash, s.(h := WithUpval(s.h, t, r, o, i), ls := s.ls.(upvals := [r] + s.ls.upvals)))
  {
    AddUpval(strHash, s.h, s.ls, s.main, r, o, i);
    hide Structure, LiveClosed, LevelsOk, RootsLive, ColorsOk, OpenPlace, Refers;
    PlaceIn(s.h, s.h[t].body.open, o.body.level, i);
    var k := WithUpval(s.h, t, r, o, i);
    UpvalLive(s.h, s.cw, t, r, o, i);
    UpvalRest(s, t, r, o, i, s.ls.(upvals := [r] + s.ls.upvals));
  }

  lemma UpvalLiveSame(h: Heap, cw: bool, t: Ref, r: Ref, o: GCObject, i: nat, x: Ref)
    requires Live(h, cw, t) && h[t].body.Thread? && r !in h && i <= |h[t].body.open| && o.body.OpenUpval?
    ensures x != r ==> Live(WithUpval(h, t, r, o, i), cw, x) == Live(h, cw, x)
    ensures Live(h, cw, x) ==> x != r
  {
  }

  lemma UpvalLive(h: Heap, cw: bool, t: Ref, r: Ref, o: GCObject, i: nat)
    requires LiveClosed(h, cw) && Live(h, cw, t) && h[t].body.Thread? && r !in h && i <= |h[t].body.open|
    requires o.body.OpenUpval? && o.body.thread == t && o.color == White(cw)
    ensures LiveClosed(WithUpval(h, t, r, o, i), cw)
  {
    var k := WithUpval(h, t, r, o, i);
    UpvalMarks(h, t, r, o, i);
    forall x | Refers(h, o.body, x) ensures Live(h, cw, x) { assert Refers(h, h[t].body, x); }
    hide Refers, WithUpval, WithOpen;
    forall q, x | Live(k, cw, q) && Refers(k, k[q].body, x) ensures Live(k, cw, x) {
      if q == r { UpvalRefers(h, t, r, o, i, o.body, x); } else {
        UpvalSame(h, t, r, o, i, q, x);
        UpvalLiveSame(h, cw, t, r, o, i, q);
      }
      UpvalLiveSame(h, cw, t, r, o, i, x);
    }
  }

  lemma UpvalRest(s: State, t: Ref, r: Ref, o: GCObject, i: nat, ls: Lists)
    requires LevelsOk(s.h) && RootsLive(s) && ColorsOk(s.h) && t in s.h && s.h[t].body.Thread? && r !in s.h
          && i <= |s.h[t].body.open|
    requires o.body.OpenUpval? && o.body.thread == t && o.color == White(s.cw) && o.body.level < |s.h[t].body.stack|
    ensures var k := WithUpval(s.h, t, r, o, i); LevelsOk(k) && RootsLive(s.(h := k, ls := ls)) && ColorsOk(k)
  {
    var k := WithUpval(s.h, t, r, o, i);
    assert forall x :: Live(s.h, s.cw, x) ==> Live(k, s.cw, x);
  }

  lemma UpvalListed(s: State, t: Ref, r: Ref, o: GCObject, i: nat)
    requires Listed(s.h, s.gl) && t in s.h && s.h[t].body.Thread? && r !in s.h && i <= |s.h[t].body.open|
          && o.body.OpenUpval? && o.color == White(s.cw)
    ensures Listed(WithUpval(s.h, t, r, o, i), s.gl)
  {
    AllGrayParts(s.gl);
    hide AllGray;
  }

  lemma UpvalMarking(s: State, t: Ref, r: Ref, o: GCObject, i: nat)
    requires MarkingOk(s) && t in s.h && s.h[t].body.Thread? && r !in s.h && i <= |s.h[t].body.open|
          && o.body.OpenUpval? && o.color == White(s.cw)
    ensures MarkingOk(s.(h := WithUpval(s.h, t, r, o, i), ls := s.ls.(upvals := [r] + s.ls.upvals)))
  {
    var k := WithUpval(s.h, t, r, o, i);
    UpvalMarks(s.h, t, r, o, i);
    hide Refers, WithUpval;
    UpvalListed(s, t, r, o, i);
    hide Listed;
    var ls := s.ls.(upvals := [r] + s.ls.upvals);
    assert Pending(s.ls, s.gl) <= Pending(ls, s.gl);
    forall q | Marked(k, q) && q !in Pending(ls, s.gl) ensures Clean(k, q) {
      assert Marked(s.h, q) && Clean(s.h, q);
      forall x | Refers(k, k[q].body, x) ensures Marked(k, x) { UpvalSame(s.h, t, r, o, i, q, x); }
    }
  }

  lemma UpvalPhase(s: State, t: Ref, r: Ref, o: GCObject, i: nat)
    requires PhaseOk(s) && t in s.h && s.h[t].body.Thread? && r !in s.h && i <= |s.h[t].body.open| && o.body.OpenUpval?
          && o.color == White(s.cw)
    ensures PhaseOk(s.(h := WithUpval(s.h, t, r, o, i), ls := s.ls.(upvals := [r] + s.ls.upvals)))
  {
    var k, ls := WithUpval(s.h, t, r, o, i), s.ls.(upvals := [r] + s.ls.upvals);
    var s' := s.(h := k, ls := ls);
    hide Todo, MarkingOk, WithUpval;
    RestAllWhite(s);
    RestAllWhite(s');
    UpvalMarks(s.h, t, r, o, i);
    if s.phase == Propagate {
      UpvalMarking(s, t, r, o, i);
    } else if s.phase == Sweep || s.phase == SweepString {
      forall x | x in k ensures k[x].color == White(s.cw) || x in ls.tmu || Unswept(k, ls, s.strPos, s.pos, x) {
        if x != r { assert s.h[x].color == White(s.cw) || x in s.ls.tmu || Unswept(s.h, s.ls, s.strPos, s.pos, x); }
      }
    }
  }

  // ----- A string table of another size -----

  /** The strings of done have been put into the new buckets. */
  ghost predicate Rehashed(strHash: nat -> nat, h: Heap, strt: seq<seq<Ref>>, done: set<Ref>) {
    && 0 < |strt|
    && (forall b :: 0 <= b < |strt| ==> NoDup(strt[b]))
    && (forall b, r :: 0 <= b < |strt| && r in strt[b] ==>
          r in done && r in h && h[r].body.Str? && b == Bucket(strHash, |strt|, h[r].body.content))
    && (forall r :: r in done ==> r in h && h[r].body.Str? && r in strt[Bucket(strHash, |strt|, h[r].body.content)])
  }

  lemma RehashOne(strHash: nat -> nat, h: Heap, strt: seq<seq<Ref>>, done: set<Ref>, r: Ref)
    requires Rehashed(strHash, h, strt, done) && r in h && h[r].body.Str? && r !in done
    ensures var b := Bucket(strHash, |strt|, h[r].body.content);
          Rehashed(strHash, h, strt[b := [r] + strt[b]], done + {r})
  {
    var b := Bucket(strHash, |strt|, h[r].body.content);
    NoDupFront(r, strt[b]);
  }

  /** The strings of the first i buckets, and the first j of the next. */
  ghost function SeenStrings(strt: seq<seq<Ref>>, i: nat, j: nat): set<Ref>
    requires i <= |strt| && (if i < |strt| then j <= |strt[i]| else j == 0)
  {
    (set c, r | 0 <= c < i && r in strt[c] :: r) + (if i < |strt| then ToSet(strt[i][..j]) else {})
  }

  lemma NoneSeen(strt: seq<seq<Ref>>)
    ensures SeenStrings(strt, 0, 0) == {}
  {
  }

  lemma OneBucket(strHash: nat -> nat, h: Heap, strt: seq<seq<Ref>>, c: int, i: int, r: Ref)
    requires StringsOk(strHash, h, strt) && 0 <= c < |strt| && 0 <= i < |strt| && r in strt[c] && r in strt[i]
    ensures c == i
  {
    assert c == Bucket(strHash, |strt|, h[r].body.content);
  }

  lemma SeenNext(strHash: nat -> nat, h: Heap, strt: seq<seq<Ref>>, i: nat, j: nat)
    requires StringsOk(strHash, h, strt) && i < |strt| && j < |strt[i]|
    ensures strt[i][j] !in SeenStrings(strt, i, j)
          && SeenStrings(strt, i, j + 1) == SeenStrings(strt, i, j) + {strt[i][j]}
    ensures strt[i][j] in h && h[strt[i][j]].body.Str?
  {
    var r := strt[i][j];
    assert r in strt[i];
    assert strt[i][..j + 1] == strt[i][..j] + [r];
    assert i == Bucket(strHash, |strt|, h[r].body.content);
    forall c | 0 <= c < i ensures r !in strt[c] {
      if r in strt[c] { OneBucket(strHash, h, strt, c, i, r); }
    }
    forall k | 0 <= k < |strt[i][..j]| ensures strt[i][..j][k] != r { assert strt[i][k] != strt[i][j]; }
  }

  lemma SeenBucket(strt: seq<seq<Ref>>, i: nat)
    requires i < |strt|
    ensures SeenStrings(strt, i, |strt[i]|) == SeenStrings(strt, i + 1, 0)
  {
    assert strt[i][..|strt[i]|] == strt[i];
    assert i + 1 < |strt| ==> strt[i + 1][..0] == [];
  }

  lemma SeenAll(strHash: nat -> nat, s: State, strt: seq<seq<Ref>>)
    requires GcOk(strHash, s) && s.phase != SweepString
          && Rehashed(strHash, s.h, strt, SeenStrings(s.ls.strt, |s.ls.strt|, 0))
    ensures GcOk(strHash, s.(ls := s.ls.(strt := strt), strPos := |strt|))
  {
    GcParts(strHash, s);
    SeenStructure(strHash, s.h, s.ls, s.main, strt);
    var s' := s.(ls := s.ls.(strt := strt), strPos := |strt|);
    hide Structure, LiveClosed, LevelsOk, Listed, Covered, Rehashed, SeenStrings;
    if s.phase == Sweep {
      SeenTodo(s, strt);
      hide Todo;
    }
  }

  lemma SeenTodo(s: State, strt: seq<seq<Ref>>)
    requires s.strPos == |s.ls.strt|
    ensures Todo(s.(ls := s.ls.(strt := strt), strPos := |strt|)) == Todo(s)
  {
    var s' := s.(ls := s.ls.(strt := strt), strPos := |strt|);
    forall x | x in s.h ensures Unswept(s.h, s'.ls, s'.strPos, s.pos, x) == Unswept(s.h, s.ls, s.strPos, s.pos, x) { }
  }

  lemma GcParts(strHash: nat -> nat, s: State)
    requires GcOk(strHash, s)
    ensures Structure(strHash, s.h, s.ls, s.main)
  {
    hide Structure, LiveClosed, LevelsOk, PhaseOk, RootsLive;
  }

  lemma SeenStructure(strHash: nat -> nat, h: Heap, ls: Lists, main: Ref, strt: seq<seq<Ref>>)
    requires Structure(strHash, h, ls, main) && Rehashed(strHash, h, strt, SeenStrings(ls.strt, |ls.strt|, 0))
    ensures Structure(strHash, h, ls.(strt := strt), main)
  {
    hide RootOk, UdataOk, UpvalsOk, Interned;
    forall r | r in h && h[r].body.Str? ensures r in SeenStrings(ls.strt, |ls.strt|, 0) {
      assert r in ls.strt[Bucket(strHash, |ls.strt|, h[r].body.content)];
    }
    hide SeenStrings;
  }

  lemma NothingSeen(strHash: nat -> nat, h: Heap, n: nat)
    requires 0 < n
    ensures Rehashed(strHash, h, seq(n, i => []), {})
  {
  }
}
