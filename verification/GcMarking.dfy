/** One traversal step of the collector, and what it keeps. */
module GcMarking {
  import opened GcHeap
  import opened GcLists
  import opened GcInvariant

  // ----- Steps inside a marking -----

  /** An object still to be seen to gets another colour. */
  lemma Repaint(h: Heap, g: seq<Ref>, k: Heap, g': seq<Ref>, r: Ref, c: Color)
    requires Advance(h, g, k, g', {r}) && NewlyMarked(h, k, r) && !c.White? && !Traversable(h[r].body)
    ensures Advance(h, g, Painted(k, r, c), g', {r})
  {
    var l := Painted(k, r, c);
    hide Refers, Clean;
    forall q | q in g'[..|g'| - |g|] ensures NewlyMarked(h, l, q) && Traversable(l[q].body) {
      assert NewlyMarked(h, k, q) && q in h && q in k;
    }
    assert Extends(h, l) by { assert forall q :: q in h ==> q in k; }
    forall q | NewlyMarked(h, l, q) && q != r ensures MarkedWell(l, g', q) {
      assert NewlyMarked(h, k, q) && MarkedWell(k, g', q);
      if !Traversable(k[q].body) { PaintedClean(k, r, c, q); }
    }
  }

  lemma PaintedClean(k: Heap, r: Ref, c: Color, q: Ref)
    requires r in k && !c.White? && q in k && Clean(k, q)
    ensures Clean(Painted(k, r, c), q)
  {
    hide Refers;
    var l := Painted(k, r, c);
    forall x | Refers(l, l[q].body, x) ensures Marked(l, x) { PaintedRefers(k, r, c, l[q].body, x); }
  }

  lemma PaintedRefers(k: Heap, r: Ref, c: Color, b: Body, x: Ref)
    requires r in k
    ensures Refers(Painted(k, r, c), b, x) == Refers(k, b, x)
  {
  }

  /** The marks of an object already marked do not matter to the others. */
  lemma SwapMarks(h: Heap, g: seq<Ref>, k: Heap, g': seq<Ref>, o: Ref, ob: GCObject)
    requires Advance(h, g, k, g', {}) && Marked(h, o) && ob.body == h[o].body && !ob.color.White?
    ensures Advance(h[o := ob], g, k[o := ob], g', {})
  {
    hide Refers;
    var h', k' := h[o := ob], k[o := ob];
    assert k[o].body == ob.body;
    forall r | NewlyMarked(h', k', r) ensures MarkedWell(k', g', r) {
      assert r != o && NewlyMarked(h, k, r) && MarkedWell(k, g', r);
      if !Traversable(k[r].body) {
        forall x | Refers(k', k'[r].body, x) ensures Marked(k', x) { SwapRefers(k, o, ob, k[r].body, x); }
      }
    }
  }

  lemma SwapRefers(k: Heap, o: Ref, ob: GCObject, b: Body, x: Ref)
    requires o in k && ob.body == k[o].body
    ensures Refers(k[o := ob], b, x) == Refers(k, b, x)
  {
  }

  lemma SwapClean(k: Heap, o: Ref, ob: GCObject, r: Ref)
    requires Marked(k, o) && ob.body == k[o].body && !ob.color.White? && r in k && Clean(k, r)
    ensures Clean(k[o := ob], r)
  {
    hide Refers;
    var k' := k[o := ob];
    forall x | Refers(k', k'[r].body, x) ensures Marked(k', x) { SwapRefers(k, o, ob, k[r].body, x); }
  }

  // ----- A whole step -----

  /** Object o, the first gray one, has been traversed. */
  ghost predicate Propagated(h: Heap, gl: GrayLists, k: Heap, gl': GrayLists, o: Ref) {
    && gl.gray != [] && o == gl.gray[0] && o in h && o in k && k[o].body == h[o].body && k[o].fixed == h[o].fixed
    && (!h[o].body.Table? ==> k[o].bit3 == h[o].bit3 && k[o].bit4 == h[o].bit4)
    && Advance(h[o := k[o]], gl.gray[1..], k, gl'.gray, {})
    && if k[o].color.Black? then
         !k[o].body.Thread? && Clean(k, o) && gl'.again == gl.again && gl'.weak == gl.weak
       else
         && k[o].color.Gray?
         && if k[o].body.Thread? then Clean(k, o) && gl'.again == [o] + gl.again && gl'.weak == gl.weak
            else k[o].body.Table? && StrongClean(k, o) && gl'.again == gl.again && gl'.weak == [o] + gl.weak
  }

  lemma PropagatedMarks(h: Heap, gl: GrayLists, k: Heap, gl': GrayLists, o: Ref, r: Ref)
    requires Propagated(h, gl, k, gl', o) && Marked(h, o) && r in h
    ensures r in k && k[r].body == h[r].body && k[r].fixed == h[r].fixed && (Marked(h, r) ==> Marked(k, r))
    ensures r != o ==> k[r].bit3 == h[r].bit3 && k[r].bit4 == h[r].bit4 && (Marked(h, r) ==> k[r].color == h[r].color)
  {
    hide Refers;
    assert r in h[o := k[o]];
  }

  lemma StrongCleanSwap(h: Heap, o: Ref, b: GCObject, r: Ref)
    requires r in h && StrongClean(h, r) && o in h && Marked(h, o) && !b.color.White? && r != o
    ensures StrongClean(h[o := b], r)
  {
  }

  lemma PropagatedClean(h: Heap, gl: GrayLists, k: Heap, gl': GrayLists, o: Ref, r: Ref)
    requires Propagated(h, gl, k, gl', o) && Marked(h, o) && r in h && r != o
    ensures Clean(h, r) ==> Clean(k, r)
    ensures StrongClean(h, r) ==> StrongClean(k, r)
  {
    hide Refers, StronglyRefers, Clean, StrongClean;
    var m := h[o := k[o]];
    if Clean(h, r) { SwapClean(h, o, k[o], r); CleanKept(m, k, r); }
    if StrongClean(h, r) {
      StrongCleanSwap(h, o, k[o], r);
      StrongCleanKept(m, k, r);
    }
  }

  lemma PropagatedCovered(h: Heap, gl: GrayLists, k: Heap, gl': GrayLists, o: Ref, s: set<Ref>, w: set<Ref>)
    requires Propagated(h, gl, k, gl', o) && Marked(h, o) && Covered(h, s + ToSet(gl.gray), w) && o !in w
    ensures Covered(k, s + ToSet(gl'.gray), w + ToSet(gl'.weak))
  {
    hide Clean, StrongClean;
    forall r | Marked(k, r) ensures r in s + ToSet(gl'.gray) || Clean(k, r)
          || (r in w + ToSet(gl'.weak) && StrongClean(k, r)) {
      if r != o {
        assert r in h;
        PropagatedCoveredAt(h, gl, k, gl', o, s, w, r);
      } else if k[o].color.Gray? && !k[o].body.Thread? {
        assert o in gl'.weak;
      }
    }
  }

  lemma PropagatedCoveredAt(h: Heap, gl: GrayLists, k: Heap, gl': GrayLists, o: Ref, s: set<Ref>, w: set<Ref>, r: Ref)
    requires Propagated(h, gl, k, gl', o) && Marked(h, o) && Covered(h, s + ToSet(gl.gray), w) && r in h && r != o
          && Marked(k, r)
    ensures r in s + ToSet(gl'.gray) || Clean(k, r) || (r in w && StrongClean(k, r))
  {
    hide Clean, StrongClean;
    if Marked(h, r) {
      PropagatedClean(h, gl, k, gl', o, r);
      if r in gl.gray {
        assert r in gl.gray[1..];
        assert r in gl'.gray[|gl'.gray| - |gl.gray[1..]|..];
      }
    } else {
      assert NewlyMarked(h[o := k[o]], k, r) && MarkedWell(k, gl'.gray, r);
    }
  }

  /** What was new on the gray list has just been marked. */
  lemma PropagatedListed(h: Heap, gl: GrayLists, k: Heap, gl': GrayLists, o: Ref)
    requires Propagated(h, gl, k, gl', o) && Listed(h, gl)
    ensures Listed(k, gl')
  {
    hide Clean, StrongClean, AllGray, MarkedWell;
    AllGrayParts(gl);
    AllGrayParts(gl');
    assert o == gl.gray[0] && o in gl.gray;
    var added := gl'.gray[..|gl'.gray| - |gl.gray[1..]|];
    assert gl'.gray == added + gl.gray[1..];
    forall r | r in added ensures NewlyMarked(h, k, r) && Traversable(k[r].body) && r !in AllGray(gl) {
      assert NewlyMarked(h[o := k[o]], k, r);
    }
    PropagatedLists(gl, gl', o, added);
    forall r | r in added ensures MarkedWell(k, gl'.gray, r) { assert NewlyMarked(h[o := k[o]], k, r); }
    assert o !in gl.again && o !in gl.weak by { FirstOnce(gl); }
    PropagatedKinds(h, gl, k, gl', o, added);
    forall r | r in k && k[r].color.Gray? && Traversable(k[r].body) ensures r in AllGray(gl') {
      PropagatedGray(h, gl, k, gl', o, added, r);
    }
  }

  lemma FirstOnce(gl: GrayLists)
    requires gl.gray != [] && NoDup(AllGray(gl))
    ensures gl.gray[0] !in gl.again && gl.gray[0] !in gl.weak && gl.gray[0] !in gl.gray[1..]
  {
    var o, rest := gl.gray[0], gl.gray[1..] + gl.again + gl.weak;
    assert AllGray(gl) == [o] + rest;
    forall i | 0 <= i < |rest| ensures rest[i] != o {
      assert AllGray(gl)[0] == o && AllGray(gl)[i + 1] == rest[i] && AllGray(gl)[0] != AllGray(gl)[i + 1];
    }
    assert o !in rest;
    forall r | r in gl.again || r in gl.weak || r in gl.gray[1..] ensures r in rest { }
  }

  lemma PropagatedKinds(h: Heap, gl: GrayLists, k: Heap, gl': GrayLists, o: Ref, added: seq<Ref>)
    requires Propagated(h, gl, k, gl', o) && Listed(h, gl) && Marked(h, o)
    requires forall r :: r in added ==> NewlyMarked(h, k, r) && Traversable(k[r].body)
    requires forall r :: r in AllGray(gl') ==>
          r in added || (r in AllGray(gl) && r != o) || (r == o && (r in gl'.again || r in gl'.weak))
    requires forall r :: r in added ==> r in k && MarkedWell(k, gl'.gray, r)
    requires o !in gl.again && o !in gl.weak
    ensures forall r :: r in AllGray(gl') ==> r in k && k[r].color.Gray? && Traversable(k[r].body)
    ensures forall r :: r in gl'.again ==> r in k && (k[r].body.Thread? || k[r].body.Table?)
    ensures forall r :: r in gl'.weak ==> r in k && k[r].body.Table?
  {
    hide Clean, StrongClean, AllGray, Advance;
    forall r | r in AllGray(gl) && r != o ensures r in k && k[r].color == h[r].color && k[r].body == h[r].body {
      PropagatedMarks(h, gl, k, gl', o, r);
    }
    AllGrayParts(gl);
  }

  lemma PropagatedGray(h: Heap, gl: GrayLists, k: Heap, gl': GrayLists, o: Ref, added: seq<Ref>, r: Ref)
    requires Propagated(h, gl, k, gl', o) && Listed(h, gl) && Marked(h, o)
    requires r in k && k[r].color.Gray? && Traversable(k[r].body)
    requires forall r ::
      r in AllGray(gl') <==> r in added || (r in AllGray(gl) && r != o) || (r == o && (r in gl'.again || r in gl'.weak))
    ensures r in AllGray(gl')
  {
    hide Clean, StrongClean, AllGray;
    if r != o {
      assert r in h[o := k[o]];
      if IsWhite(h, r) {
        assert NewlyMarked(h[o := k[o]], k, r) && MarkedWell(k, gl'.gray, r);
        AllGrayParts(gl');
      }
    }
  }

  lemma PropagatedLists(gl: GrayLists, gl': GrayLists, o: Ref, added: seq<Ref>)
    requires gl.gray != [] && o == gl.gray[0] && gl'.gray == added + gl.gray[1..] && NoDup(added)
    requires (gl'.again == gl.again && gl'.weak == gl.weak) || (gl'.again == [o] + gl.again && gl'.weak == gl.weak)
             || (gl'.again == gl.again && gl'.weak == [o] + gl.weak)
    requires NoDup(AllGray(gl)) && forall r :: r in added ==> r !in AllGray(gl)
    ensures NoDup(AllGray(gl'))
    ensures forall r ::
      r in AllGray(gl') <==> r in added || (r in AllGray(gl) && r != o) || (r == o && (r in gl'.again || r in gl'.weak))
  {
    var rest := gl.gray[1..];
    assert AllGray(gl) == [o] + (rest + gl.again + gl.weak);
    FirstOnce(gl);
    assert NoDup(rest + gl.again + gl.weak) by {
      assert rest + gl.again + gl.weak == AllGray(gl)[1..];
    }
    InsertNoDup(rest, gl.again, gl.weak, o);
    assert forall r :: r in AllGray(gl) <==> r == o || r in rest || r in gl.again || r in gl.weak;
    if gl'.again == [o] + gl.again && gl'.weak == gl.weak {
      JoinNoDup(added, rest + ([o] + gl.again) + gl.weak);
      assert AllGray(gl') == added + (rest + ([o] + gl.again) + gl.weak);
    } else if gl'.weak == [o] + gl.weak {
      JoinNoDup(added, rest + gl.again + ([o] + gl.weak));
      assert AllGray(gl') == added + (rest + gl.again + ([o] + gl.weak));
    } else {
      JoinNoDup(added, rest + gl.again + gl.weak);
      assert AllGray(gl') == added + (rest + gl.again + gl.weak);
    }
  }

  lemma JoinNoDup(a: seq<Ref>, b: seq<Ref>)
    requires NoDup(a) && NoDup(b) && forall r :: r in a ==> r !in b
    ensures NoDup(a + b)
  {
    forall i, j | 0 <= i < j < |a + b| ensures (a + b)[i] != (a + b)[j] {
      if i < |a| <= j { assert (a + b)[i] in a && (a + b)[j] in b; }
    }
  }

  lemma InsertNoDup(a: seq<Ref>, b: seq<Ref>, c: seq<Ref>, o: Ref)
    requires NoDup(a + b + c) && o !in a + b + c
    ensures NoDup(a + ([o] + b) + c) && NoDup(a + b + ([o] + c))
  {
    InsertOne(a, b + c, o);
    assert a + b + c == a + (b + c);
    assert a + ([o] + b) + c == a + [o] + (b + c);
    InsertOne(a + b, c, o);
    assert a + b + ([o] + c) == (a + b) + [o] + c;
  }

  lemma InsertOne(a: seq<Ref>, b: seq<Ref>, o: Ref)
    requires NoDup(a + b) && o !in a + b
    ensures NoDup(a + [o] + b)
  {
    var s, t := a + b, a + [o] + b;
    assert forall i :: 0 <= i < |t| && i != |a| ==> t[i] == s[if i < |a| then i else i - 1];
    assert forall i :: 0 <= i < |s| ==> s[i] in s;
  }
}
