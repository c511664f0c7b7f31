/** Freeing dead objects and returning the others to white. */
module GcSweeping {
  import opened GcHeap
  import opened GcLists
  import opened GcRemovals
  import opened GcInvariant

  /** The part of the invariant that does not depend on the phase. */
  ghost predicate CoreOk(strHash: nat -> nat, s: State) {
    && Structure(strHash, s.h, s.ls, s.main) && LevelsOk(s.h)
    && LiveClosed(s.h, s.cw) && RootsLive(s) && ColorsOk(s.h)
  }

  /** What the sweep has come past is white. */
  ghost predicate SweepRest(s: State) {
    && TmuLive(s.h, s.cw, s.ls.tmu)
    && forall x :: x in s.h ==> s.h[x].color == White(s.cw) || x in s.ls.tmu || Unswept(s.h, s.ls, s.strPos, s.pos, x)
  }

  lemma RestAllWhite(s: State)
    ensures SweepRest(s) <==> AllWhite(s.h, s.cw, Todo(s) + ToSet(s.ls.tmu)) && TmuLive(s.h, s.cw, s.ls.tmu)
  {
    hide Unswept;
  }

  // ----- Freeing -----

  lemma DroppedRefers(h: Heap, r: Ref, b: Body, x: Ref)
    requires r in h && (b.OpenUpval? ==> b.thread != r)
    ensures Refers(Dropped(h, r), b, x) == Refers(h, b, x)
  {
  }

  /** A dead object is not missed. */
  lemma DropCore(strHash: nat -> nat, s: State, r: Ref, ls: Lists)
    requires CoreOk(strHash, s) && Dead(s.h, s.cw, r)
    requires Structure(strHash, Dropped(s.h, r), ls, s.main)
    requires forall u :: u in s.h && u != r && s.h[u].body.OpenUpval? ==> s.h[u].body.thread != r
    ensures CoreOk(strHash, s.(h := Dropped(s.h, r), ls := ls))
  {
    hide Structure, Refers;
    var k := Dropped(s.h, r);
    forall q, x | Live(k, s.cw, q) && Refers(k, k[q].body, x) ensures Live(k, s.cw, x) {
      DroppedRefers(s.h, r, k[q].body, x);
      assert Live(s.h, s.cw, q) && Live(s.h, s.cw, x);
    }
    assert LevelsOk(k);
    assert RootsLive(s.(h := k, ls := ls));
  }

  /** Lists change, but not what is left of them to sweep. */
  ghost predicate SameTail(a: Lists, posA: nat, b: Lists, posB: nat, r: Ref) {
    && a.tmu == b.tmu
    && (forall c, x :: 0 <= c < |a.strt| && x != r && x in a.strt[c] ==> c < |b.strt| && x in b.strt[c])
    && (forall x :: x != r && posA <= |a.root + a.udata| && x in (a.root + a.udata)[posA..] ==>
          posB <= |b.root + b.udata| && x in (b.root + b.udata)[posB..])
  }

  ghost predicate SameKind(a: Body, b: Body) {
    a == b || (a.Thread? && b.Thread?)
  }

  /** Object r is dropped, or has become white, and is not left to be swept. */
  lemma RestKept(s: State, k: Heap, ls: Lists, pos: nat, r: Ref)
    requires SweepRest(s) && SameTail(s.ls, s.pos, ls, pos, r)
    requires forall x :: x in k && x != r ==> x in s.h && k[x].color == s.h[x].color && SameKind(k[x].body, s.h[x].body)
    requires forall x :: x in s.ls.tmu ==> x in k
    requires r in k ==> k[r].color == White(s.cw) && r in s.h
    requires forall u :: u in k && k[u].body.OpenUpval? && k[u].body.thread == r ==> k[u].color == White(s.cw)
    ensures SweepRest(s.(h := k, ls := ls, pos := pos))
  {
    var s' := s.(h := k, ls := ls, pos := pos);
    forall x | x in k ensures k[x].color == White(s.cw) || x in ls.tmu || Unswept(k, ls, s.strPos, pos, x) {
      if x != r && k[x].color != White(s.cw) && x !in ls.tmu {
        assert Unswept(s.h, s.ls, s.strPos, s.pos, x);
        match k[x].body
        case Str(_) =>
          var c :| s.strPos <= c < |s.ls.strt| && x in s.ls.strt[c];
          assert x in ls.strt[c];
        case OpenUpval(t, _) =>
        case _ =>
      }
    }
  }

  // ----- Whitening -----

  lemma WhitenCore(strHash: nat -> nat, s: State, r: Ref)
    requires CoreOk(strHash, s) && Live(s.h, s.cw, r)
    ensures CoreOk(strHash, s.(h := Painted(s.h, r, White(s.cw))))
  {
    hide Structure, Refers, Frame, SameFrames, LiveClosed, LevelsOk, ColorsOk, RootsLive;
    var k := Painted(s.h, r, White(s.cw));
    assert Recolored(s.h, k);
    RecoloredFrames(s.h, k);
    FramesStructure(strHash, s.h, k, s.ls, s.main);
    WhitenLive(s.h, s.cw, r);
    WhitenRoots(s, r);
  }

  lemma WhitenRoots(s: State, r: Ref)
    requires RootsLive(s) && ColorsOk(s.h) && Live(s.h, s.cw, r)
    ensures RootsLive(s.(h := Painted(s.h, r, White(s.cw)))) && ColorsOk(Painted(s.h, r, White(s.cw)))
  {
    var k := Painted(s.h, r, White(s.cw));
    assert forall x :: Live(s.h, s.cw, x) ==> Live(k, s.cw, x);
  }

  lemma WhitenLive(h: Heap, cw: bool, r: Ref)
    requires LiveClosed(h, cw) && Live(h, cw, r)
    ensures LiveClosed(Painted(h, r, White(cw)), cw)
  {
    hide Refers;
    var k := Painted(h, r, White(cw));
    forall q, x | Live(k, cw, q) && Refers(k, k[q].body, x) ensures Live(k, cw, x) {
      RecoloredRefers(h, k, k[q].body, x);
      assert Live(h, cw, q) && Live(h, cw, x);
    }
  }

  // ----- Open upvalues of a thread -----

  lemma UnlinkedRefers(h: Heap, t: Ref, j: nat, u: Ref, b: Body, x: Ref)
    requires t in h && h[t].body.Thread? && j < |h[t].body.open| && u in h && h[u].body.OpenUpval?
    ensures Refers(Dropped(Unlinked(h, t, j), u), b, x) == Refers(h, b, x)
  {
  }

  lemma UnlinkedSame(h: Heap, t: Ref, j: nat, u: Ref, q: Ref, x: Ref)
    requires t in h && h[t].body.Thread? && j < |h[t].body.open| && u in h && h[u].body.OpenUpval? && u != t && q in h
          && q != u
    ensures var k := Dropped(Unlinked(h, t, j), u);
            q in k && Refers(k, k[q].body, x) == Refers(h, h[q].body, x) && k[q].color == h[q].color
                  && k[q].fixed == h[q].fixed
  {
    var k := Dropped(Unlinked(h, t, j), u);
    UnlinkedRefers(h, t, j, u, h[q].body, x);
  }

  lemma FreeUpvalCore(strHash: nat -> nat, s: State, t: Ref, j: nat, i: nat)
    requires CoreOk(strHash, s) && t in s.h && s.h[t].body.Thread? && j < |s.h[t].body.open|
    requires i < |s.ls.upvals| && s.ls.upvals[i] == s.h[t].body.open[j] && Dead(s.h, s.cw, s.ls.upvals[i])
    ensures var u := s.ls.upvals[i];
            u != t && CoreOk(strHash,
                  s.(h := Dropped(Unlinked(s.h, t, j), u), ls := s.ls.(upvals := Without(s.ls.upvals, i))))
  {
    var u := s.ls.upvals[i];
    assert s.h[u].body.OpenUpval? by { hide StringsOk, Interned, RootOk, UdataOk; assert u in s.ls.upvals; }
    RemoveUpval(strHash, s.h, s.ls, s.main, t, j, i);
    hide Structure, Refers;
    var k := Dropped(Unlinked(s.h, t, j), u);
    forall q, x | Live(k, s.cw, q) && Refers(k, k[q].body, x) ensures Live(k, s.cw, x) {
      UnlinkedSame(s.h, t, j, u, q, x);
      assert Live(s.h, s.cw, q) && Live(s.h, s.cw, x);
      UnlinkedSame(s.h, t, j, u, x, x);
    }
    UnlinkedOthers(s, k, t, j, u, s.ls.(upvals := Without(s.ls.upvals, i)));
  }

  lemma UnlinkedOthers(s: State, k: Heap, t: Ref, j: nat, u: Ref, ls: Lists)
    requires t in s.h && s.h[t].body.Thread? && j < |s.h[t].body.open| && u in s.h && s.h[u].body.OpenUpval?
    requires Dead(s.h, s.cw, u) && k == Dropped(Unlinked(s.h, t, j), u)
    requires LevelsOk(s.h) && RootsLive(s) && ColorsOk(s.h)
    ensures LevelsOk(k) && RootsLive(s.(h := k, ls := ls)) && ColorsOk(k)
  {
    forall q | q in k ensures q in s.h && k[q].color == s.h[q].color && k[q].fixed == s.h[q].fixed
        && (if q == t then k[q].body.Thread? && k[q].body.stack == s.h[q].body.stack else k[q].body == s.h[q].body) { }
  }

  lemma FreeUpvalRest(strHash: nat -> nat, s: State, t: Ref, j: nat, i: nat)
    requires CoreOk(strHash, s) && SweepRest(s) && t in s.h && s.h[t].body.Thread? && j < |s.h[t].body.open|
    requires i < |s.ls.upvals| && s.ls.upvals[i] == s.h[t].body.open[j] && Dead(s.h, s.cw, s.ls.upvals[i])
          && s.ls.upvals[i] != t
    ensures var u := s.ls.upvals[i];
            SweepRest(s.(h := Dropped(Unlinked(s.h, t, j), u), ls := s.ls.(upvals := Without(s.ls.upvals, i))))
  {
    var u := s.ls.upvals[i];
    var ls := s.ls.(upvals := Without(s.ls.upvals, i));
    var k := Dropped(Unlinked(s.h, t, j), u);
    UpvalKind(strHash, s, u);
    TmuThere(s);
    hide CoreOk, SweepRest;
    assert SameTail(s.ls, s.pos, ls, s.pos, u);
    UnlinkedKinds(s.h, t, j, u);
    hide SameTail, Without, Unlinked, Dropped, SameKind;
    RestKept(s, k, ls, s.pos, u);
    assert s.(h := k, ls := ls, pos := s.pos) == s.(h := k, ls := ls);
  }

  lemma UnlinkedKinds(h: Heap, t: Ref, j: nat, u: Ref)
    requires t in h && h[t].body.Thread? && j < |h[t].body.open|
    ensures var k := Dropped(Unlinked(h, t, j), u);
            && u !in k && (forall x :: x in k ==> x in h && k[x].color == h[x].color && SameKind(k[x].body, h[x].body))
            && (forall x :: x in h && x != u ==> x in k)
            && (forall x :: x in k && k[x].body.OpenUpval? ==> h[x].body == k[x].body)
  {
  }

  lemma TmuThere(s: State)
    requires SweepRest(s)
    ensures forall x :: x in s.ls.tmu ==> x in s.h && s.h[x].color != White(!s.cw)
  {
  }

  /** An open upvalue is no one's thread. */
  lemma UpvalKind(strHash: nat -> nat, s: State, u: Ref)
    requires CoreOk(strHash, s) && u in s.ls.upvals
    ensures u in s.h && s.h[u].body.OpenUpval? && forall x :: x in s.h && s.h[x].body.OpenUpval? ==>
          s.h[x].body.thread != u
  {
    hide StringsOk, Interned, RootOk, UdataOk;
    forall x | x in s.h && s.h[x].body.OpenUpval? ensures s.h[x].body.thread != u { assert OpenedOk(s.h, x); }
  }

  // ----- Closing upvalues -----

  lemma ClosedRefers(h: Heap, t: Ref, u: Ref, c: Color, b: Body, x: Ref)
    requires t in h && h[t].body.Thread? && h[t].body.open != [] && u in h && h[u].body.OpenUpval? && u != t
    ensures Refers(Closed(h, t, u, c), b, x) == Refers(h, b, x)
  {
    var k := Closed(h, t, u, c);
    assert forall t' :: (t' in k && k[t'].body.Thread?) <==> (t' in h && h[t'].body.Thread?);
    assert forall t' :: t' in h && h[t'].body.Thread? ==> k[t'].body.stack == h[t'].body.stack;
  }

  /** A closed upvalue refers to what it did when it was open. */
  lemma ClosedSame(h: Heap, t: Ref, u: Ref, c: Color, q: Ref, x: Ref)
    requires t in h && h[t].body.Thread? && h[t].body.open != [] && u in h && h[u].body.OpenUpval? && u != t && q in h
    requires h[u].body.thread == t
    ensures var k := Closed(h, t, u, c);
            q in k && Refers(k, k[q].body, x) == Refers(h, h[q].body, x) && (q != u ==> k[q].color == h[q].color)
                  && k[q].fixed == h[q].fixed
  {
    var k := Closed(h, t, u, c);
    ClosedRefers(h, t, u, c, h[q].body, x);
    if q == t {
      assert Refers(k, k[q].body, x) == Refers(k, h[q].body, x);
    } else if q == u {
      assert k[q].body == ClosedUpval(SlotValue(h, t, h[u].body.level));
    } else {
      assert k[q] == h[q];
    }
  }

  lemma CloseCore(strHash: nat -> nat, s: State, t: Ref, u: Ref, i: nat, c: Color)
    requires CoreOk(strHash, s) && t in s.h && s.h[t].body.Thread? && s.h[t].body.open != [] && s.h[t].body.open[0] == u
    requires i < |s.ls.upvals| && s.ls.upvals[i] == u && Live(s.h, s.cw, u) && c != White(!s.cw) && c != Gray
    ensures u in s.h && s.h[u].body.OpenUpval? && u != t
    ensures CoreOk(strHash,
          s.(h := Closed(s.h, t, u, c), ls := s.ls.(root := [u] + s.ls.root, upvals := Without(s.ls.upvals, i))))
  {
    CloseUpval(strHash, s.h, s.ls, s.main, t, u, i, c);
    assert s.h[u].body.thread == t by { hide StringsOk, Interned, RootOk, UdataOk; assert OpenListOk(s.h, t);
          assert u in s.h[t].body.open; }
    hide Structure, Refers;
    var k := Closed(s.h, t, u, c);
    var ls := s.ls.(root := [u] + s.ls.root, upvals := Without(s.ls.upvals, i));
    forall q, x | Live(k, s.cw, q) && Refers(k, k[q].body, x) ensures Live(k, s.cw, x) {
      ClosedSame(s.h, t, u, c, q, x);
      assert Live(s.h, s.cw, q) && Live(s.h, s.cw, x);
      ClosedSame(s.h, t, u, c, x, x);
    }
    ClosedOthers(s, k, t, u, c, ls);
  }

  lemma ClosedOthers(s: State, k: Heap, t: Ref, u: Ref, c: Color, ls: Lists)
    requires t in s.h && s.h[t].body.Thread? && s.h[t].body.open != [] && u in s.h && s.h[u].body.OpenUpval? && u != t
    requires Live(s.h, s.cw, u) && c != White(!s.cw) && c != Gray && k == Closed(s.h, t, u, c)
    requires LevelsOk(s.h) && RootsLive(s) && ColorsOk(s.h)
    ensures LevelsOk(k) && RootsLive(s.(h := k, ls := ls)) && ColorsOk(k)
  {
    ClosedEach(s.h, t, u, c);
    hide Closed;
    assert LevelsOk(k) by { hide RootsLive, ColorsOk; }
    assert ColorsOk(k) by { hide RootsLive, LevelsOk; }
    hide LevelsOk, ColorsOk;
  }

  lemma ClosedEach(h: Heap, t: Ref, u: Ref, c: Color)
    requires t in h && h[t].body.Thread? && h[t].body.open != [] && u in h && h[u].body.OpenUpval? && u != t
    ensures var k := Closed(h, t, u, c);
            && (forall q :: q in k <==> q in h)
            && (forall q :: q in k ==> (q != u ==> k[q].color == h[q].color) && k[q].fixed == h[q].fixed)
            && (forall q :: q in k && q != t && q != u ==> k[q].body == h[q].body)
            && k[t].body.Thread? && k[t].body.stack == h[t].body.stack && k[u].color == c && k[u].body.ClosedUpval?
  {
  }

  // ----- The chain of all objects -----

  ghost function At(ls: Lists, i: nat): Ref
    requires i < |ls.root| + |ls.udata|
  {
    (ls.root + ls.udata)[i]
  }

  /** The object at the sweep pointer has been seen to. */
  lemma Advanced(s: State, r: Ref)
    requires SweepRest(s) && s.pos < |s.ls.root| + |s.ls.udata| && r == At(s.ls, s.pos) && r in s.h
          && s.h[r].color == White(s.cw)
    requires forall u :: u in s.h && s.h[u].body.OpenUpval? && s.h[u].body.thread == r ==> s.h[u].color == White(s.cw)
    ensures SweepRest(s.(pos := s.pos + 1))
  {
    var all := s.ls.root + s.ls.udata;
    assert all[s.pos..] == [r] + all[s.pos + 1..];
    forall x | x in s.h ensures s.h[x].color == White(s.cw) || x in s.ls.tmu
          || Unswept(s.h, s.ls, s.strPos, s.pos + 1, x) {
      assert s.h[x].color == White(s.cw) || x in s.ls.tmu || Unswept(s.h, s.ls, s.strPos, s.pos, x);
    }
  }

  lemma ChainThere(strHash: nat -> nat, s: State, i: nat)
    requires CoreOk(strHash, s) && i < |s.ls.root| + |s.ls.udata|
    ensures var r := At(s.ls, i);
            && r in s.h && (if i < |s.ls.root| then r == s.ls.root[i]
                  && InRoot(s.h[r].body) else r == s.ls.udata[i - |s.ls.root|] && s.h[r].body.Udata?)
            && (Dead(s.h, s.cw, r) ==> r != s.main) && r !in s.ls.tmu
    ensures Structure(strHash, s.h, s.ls, s.main) && NoDup(s.ls.root) && NoDup(s.ls.udata)
  {
    hide StringsOk, Interned, UpvalsOk;
    MainThere(s.h, s.ls.root, s.main);
    forall a, b | 0 <= a < b < |s.ls.udata| ensures s.ls.udata[a] != s.ls.udata[b] {
      assert (s.ls.udata + s.ls.tmu)[a] == s.ls.udata[a] && (s.ls.udata + s.ls.tmu)[b] == s.ls.udata[b];
    }
    var r := At(s.ls, i);
    if i < |s.ls.root| {
      assert r in s.ls.root;
    } else {
      var j := i - |s.ls.root|;
      assert r == s.ls.udata[j] && r in s.ls.udata;
      forall b | 0 <= b < |s.ls.tmu| ensures s.ls.tmu[b] != r {
        assert (s.ls.udata + s.ls.tmu)[j] == r && (s.ls.udata + s.ls.tmu)[|s.ls.udata| + b] == s.ls.tmu[b];
        assert (s.ls.udata + s.ls.tmu)[j] != (s.ls.udata + s.ls.tmu)[|s.ls.udata| + b];
      }
    }
  }

  lemma ChainTail(ls: Lists, pos: nat, i: nat)
    requires pos <= i < |ls.root| + |ls.udata| && NoDup(ls.root) && NoDup(ls.udata)
    ensures SameTail(ls, pos, Unchained(ls, i), pos, At(ls, i))
  {
    var all := ls.root + ls.udata;
    if i < |ls.root| {
      assert Without(ls.root, i) + ls.udata == Without(all, i);
    } else {
      assert ls.root + Without(ls.udata, i - |ls.root|) == Without(all, i);
    }
    forall x | x != all[i] && x in all[pos..] ensures pos <= |Without(all, i)|
          && x in Without(all, i)[pos..] { TailWithout(all, pos, i, x); }
  }

  lemma TailWithout(all: seq<Ref>, pos: nat, i: nat, x: Ref)
    requires pos <= i < |all| && x != all[i] && x in all[pos..]
    ensures pos <= |Without(all, i)| && x in Without(all, i)[pos..]
  {
    var now := Without(all, i);
    var j :| 0 <= j < |all[pos..]| && all[pos..][j] == x;
    var q := pos + j;
    assert all[q] == x;
    var q' := if q < i then q else q - 1;
    assert now[q'] == x;
    assert now[pos..][q' - pos] == x;
  }

  function Unchained(ls: Lists, i: nat): Lists
    requires i < |ls.root| + |ls.udata|
  {
    if i < |ls.root| then ls.(root := Without(ls.root, i)) else ls.(udata := Without(ls.udata, i - |ls.root|))
  }

  /** The object of the chain at place i, at or after the sweep pointer, is freed. */
  lemma FreeChained(strHash: nat -> nat, s: State, i: nat)
    requires CoreOk(strHash, s) && SweepRest(s) && s.pos <= i < |s.ls.root| + |s.ls.udata|
    requires Dead(s.h, s.cw, At(s.ls, i)) && (s.h[At(s.ls, i)].body.Thread? ==> s.h[At(s.ls, i)].body.open == [])
    ensures var s' := s.(h := Dropped(s.h, At(s.ls, i)), ls := Unchained(s.ls, i)); CoreOk(strHash, s') && SweepRest(s')
  {
    var r := At(s.ls, i);
    var ls := Unchained(s.ls, i);
    ChainThere(strHash, s, i);
    ChainTail(s.ls, s.pos, i);
    UnchainedOk(strHash, s, i);
    hide CoreOk, SweepRest, Structure, At, SameTail, Unchained, InRoot;
    NoThread(strHash, s, r);
    DropCore(strHash, s, r, ls);
    TmuThere(s);
    RestKept(s, Dropped(s.h, r), ls, s.pos, r);
    assert s.(h := Dropped(s.h, r), ls := ls, pos := s.pos) == s.(h := Dropped(s.h, r), ls := ls);
  }

  lemma UnchainedOk(strHash: nat -> nat, s: State, i: nat)
    requires Structure(strHash, s.h, s.ls, s.main) && i < |s.ls.root| + |s.ls.udata|
    requires At(s.ls, i) in s.h && At(s.ls, i) != s.main
          && (s.h[At(s.ls, i)].body.Thread? ==> s.h[At(s.ls, i)].body.open == [])
    requires if i < |s.ls.root| then InRoot(s.h[At(s.ls, i)].body) else s.h[At(s.ls, i)].body.Udata?
    ensures Structure(strHash, Dropped(s.h, At(s.ls, i)), Unchained(s.ls, i), s.main)
  {
    hide Structure, Without, InRoot;
    if i < |s.ls.root| {
      RemoveRoot(strHash, s.h, s.ls, s.main, i);
    } else {
      RemoveUdata(strHash, s.h, s.ls, s.main, i - |s.ls.root|);
    }
  }

  lemma NoThread(strHash: nat -> nat, s: State, r: Ref)
    requires CoreOk(strHash, s) && r in s.h && (s.h[r].body.Thread? ==> s.h[r].body.open == [])
    ensures forall u :: u in s.h && s.h[u].body.OpenUpval? ==> s.h[u].body.thread != r
  {
    hide StringsOk, Interned, RootOk, UdataOk;
    forall u | u in s.h && s.h[u].body.OpenUpval? ensures s.h[u].body.thread != r { assert OpenedOk(s.h, u); }
  }
}
