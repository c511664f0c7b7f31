/** What any amount of marking does to the heap and keeps of the invariant. */
module GcGrowth {
  import opened GcHeap
  import opened GcLists
  import opened GcInvariant
  import opened GcMarking

  /** Marks have only been added. */
  ghost predicate Grown(h: Heap, k: Heap) {
    && k.Keys == h.Keys
    && forall r :: r in h ==>
         && k[r].body == h[r].body && k[r].fixed == h[r].fixed
         && (!h[r].body.Table? ==> k[r].bit3 == h[r].bit3 && k[r].bit4 == h[r].bit4)
         && (Marked(h, r) ==> Marked(k, r))
         && (k[r].color.White? ==> k[r].color == h[r].color)
  }

  lemma GrownTrans(h: Heap, k: Heap, l: Heap)
    requires Grown(h, k) && Grown(k, l)
    ensures Grown(h, l)
  {
  }

  lemma GrownFrames(h: Heap, k: Heap)
    requires Grown(h, k)
    ensures SameFrames(h, k) && (LevelsOk(h) ==> LevelsOk(k))
  {
    hide Frame;
    assert forall r :: r in h ==> r in k;
  }

  lemma GrownRefers(h: Heap, k: Heap, r: Ref, x: Ref)
    requires Grown(h, k) && r in h
    ensures Refers(k, k[r].body, x) == Refers(h, h[r].body, x)
  {
  }

  lemma GrownDangling(h: Heap, k: Heap)
    requires Grown(h, k) && NoDangling(h)
    ensures NoDangling(k)
  {
    hide Refers;
    forall r, x | r in k && Refers(k, k[r].body, x) ensures x in k { GrownRefers(h, k, r, x); }
  }

  lemma AdvanceGrown(h: Heap, g: seq<Ref>, k: Heap, g': seq<Ref>)
    requires Advance(h, g, k, g', {})
    ensures Grown(h, k) && Whites(k) <= Whites(h)
  {
    hide MarkedWell;
  }

  lemma PropagatedGrown(h: Heap, gl: GrayLists, k: Heap, gl': GrayLists, o: Ref)
    requires Propagated(h, gl, k, gl', o) && Marked(h, o)
    ensures Grown(h, k) && Whites(k) <= Whites(h)
    ensures Whites(k) == Whites(h) ==> |gl'.gray| < |gl.gray|
  {
    hide MarkedWell, Refers;
    var m := h[o := k[o]];
    forall r | r in h ensures r in k && k[r].body == h[r].body && (k[r].color.White? ==> k[r].color == h[r].color) {
      assert r in m;
    }
    assert forall r :: r in m ==> r in h;
    assert Whites(k) <= Whites(h);
    var n := |gl'.gray| - |gl.gray[1..]|;
    if n > 0 {
      var r := gl'.gray[..n][0];
      assert r in gl'.gray[..n];
      assert NewlyMarked(m, k, r);
      assert r in Whites(h) && r !in Whites(k);
    }
  }

  // ----- Colours -----

  lemma AdvanceColors(h: Heap, g: seq<Ref>, k: Heap, g': seq<Ref>)
    requires Advance(h, g, k, g', {}) && ColorsOk(h)
    ensures ColorsOk(k)
  {
    hide Refers;
    forall r | r in k
      ensures k[r].color.Black? ==> !k[r].body.Str? && !k[r].body.OpenUpval? && !k[r].body.Thread?
      ensures k[r].color.Gray? ==> !k[r].body.Udata? && !k[r].body.ClosedUpval?
    {
      assert r in h;
      if NewlyMarked(h, k, r) { assert MarkedWell(k, g', r); }
    }
  }

  lemma PropagatedColors(h: Heap, gl: GrayLists, k: Heap, gl': GrayLists, o: Ref)
    requires Propagated(h, gl, k, gl', o) && Listed(h, gl) && ColorsOk(h)
    ensures ColorsOk(k)
  {
    hide Refers, Advance;
    assert o in AllGray(gl) by { assert gl.gray == [o] + gl.gray[1..]; }
    AdvanceColors(h[o := k[o]], gl.gray[1..], k, gl'.gray);
  }

  // ----- Lists and cover under plain marking -----

  lemma AdvanceCovered(h: Heap, g: seq<Ref>, k: Heap, g': seq<Ref>, s: set<Ref>, w: set<Ref>)
    requires Advance(h, g, k, g', {}) && Covered(h, s + ToSet(g), w)
    ensures Covered(k, s + ToSet(g'), w)
  {
    hide Clean, StrongClean;
    forall r | Marked(k, r) ensures r in s + ToSet(g') || Clean(k, r) || (r in w && StrongClean(k, r)) {
      assert r in h;
      if Marked(h, r) {
        if r in g { assert r in g'[|g'| - |g|..]; }
        if Clean(h, r) { CleanKept(h, k, r); }
        if StrongClean(h, r) { StrongCleanKept(h, k, r); }
      } else {
        assert NewlyMarked(h, k, r) && MarkedWell(k, g', r);
      }
    }
  }

  lemma AdvanceListed(h: Heap, gl: GrayLists, k: Heap, g': seq<Ref>)
    requires Advance(h, gl.gray, k, g', {}) && Listed(h, gl)
    ensures Listed(k, gl.(gray := g'))
  {
    hide Clean, Refers;
    var gl' := gl.(gray := g');
    var added := g'[..|g'| - |gl.gray|];
    assert g' == added + gl.gray;
    assert AllGray(gl') == added + AllGray(gl);
    forall r | r in added ensures NewlyMarked(h, k, r) && Traversable(k[r].body) && r !in AllGray(gl) { }
    JoinNoDup(added, AllGray(gl));
    AllGrayParts(gl);
    AllGrayParts(gl');
    hide AllGray;
    forall r | r in added ensures k[r].color.Gray? { assert MarkedWell(k, g', r); }
    forall r | r in AllGray(gl) ensures k[r] == h[r]
          || (k[r].body == h[r].body && k[r].color == h[r].color) { assert r in h; }
    forall r | r in k && k[r].color.Gray? && Traversable(k[r].body) ensures r in AllGray(gl') {
      assert r in h;
      if NewlyMarked(h, k, r) {
        assert MarkedWell(k, g', r) && r in g';
      }
    }
  }

  lemma CoveredMono(h: Heap, s: set<Ref>, w: set<Ref>, s': set<Ref>, w': set<Ref>)
    requires Covered(h, s, w) && s <= s' + w' && w <= w' + s' && s <= s'
    ensures Covered(h, s', w')
  {
    hide Clean, StrongClean;
  }

  /** The weak list, or the list of those to be seen again, becomes the gray list. */
  lemma Moved(h: Heap, gl: GrayLists)
    requires Listed(h, gl) && gl.gray == []
    ensures Listed(h, GrayLists(gl.weak, gl.again, [])) && Listed(h, GrayLists(gl.again, [], gl.weak))
  {
    var a, b := GrayLists(gl.weak, gl.again, []), GrayLists(gl.again, [], gl.weak);
    assert AllGray(gl) == gl.again + gl.weak;
    assert AllGray(a) == gl.weak + gl.again;
    assert AllGray(b) == gl.again + gl.weak;
    SwapNoDup(gl.again, gl.weak);
    assert forall r :: r in AllGray(a) <==> r in AllGray(gl);
  }

  lemma SwapNoDup(a: seq<Ref>, b: seq<Ref>)
    requires NoDup(a + b)
    ensures NoDup(b + a)
  {
    forall i, j | 0 <= i < j < |b + a| ensures (b + a)[i] != (b + a)[j] {
      var i' := if i < |b| then i + |a| else i - |b|;
      var j' := if j < |b| then j + |a| else j - |b|;
      assert (b + a)[i] == (a + b)[i'] && (b + a)[j] == (a + b)[j'];
      assert i' != j';
      if i' < j' { assert (a + b)[i'] != (a + b)[j']; } else { assert (a + b)[j'] != (a + b)[i']; }
    }
  }
}
