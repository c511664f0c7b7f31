/** Making closures: where their upvalues come from. */
module GcClosures {
  import opened GcHeap
  import opened GcLists
  import opened GcRemovals
  import opened GcInvariant
  import opened GcFacts

  /** A capture asks for an upvalue of the enclosing closure, or for that of a register. */
  datatype Capture = FromEnclosing(i: nat) | FromStack(l: nat)

  ghost predicate Fitting(h: Heap, t: Ref, frame: nat, ups: seq<Value>, cap: Capture) {
    match cap
    case FromEnclosing(i) => i < |ups|
    case FromStack(l) => t in h && h[t].body.Thread? && frame + l < |h[t].body.stack|
  }

  /** Value v is what a capture asks for. */
  ghost predicate Captured(h: Heap, t: Ref, frame: nat, ups: seq<Value>, cap: Capture, v: Value) {
    match cap
    case FromEnclosing(i) => i < |ups| && v == ups[i]
    case FromStack(l) => v.Ptr? && v.r in h && h[v.r].body == OpenUpval(t, frame + l)
  }

  ghost predicate AllCaptured(h: Heap, t: Ref, frame: nat, ups: seq<Value>, caps: seq<Capture>, vs: seq<Value>) {
    |vs| == |caps| && forall j :: 0 <= j < |caps| ==> Captured(h, t, frame, ups, caps[j], vs[j])
  }

  /** The first j captures have been stored in closure c, and from heap h0 nothing else has changed. */
  ghost predicate SoFar(h0: Heap, h: Heap, cw: bool, t: Ref, frame: nat, own: seq<Value>, ups: seq<Value>,
        caps: seq<Capture>, c: Ref, j: nat) {
    && c !in h0 && Live(h, cw, c) && h[c].body.Closure? && Preserved(h0, h) && FreedDead(h0, h, cw)
    && |h[c].body.held| == |own| + |caps| && h[c].body.held[..|own|] == own
    && j <= |caps| && AllCaptured(h, t, frame, ups, caps[..j], h[c].body.held[|own|..|own| + j])
    && Live(h, cw, t) && h[t].body.Thread? && (forall v :: v in own + ups ==> LiveValue(h, cw, v))
    && forall k :: 0 <= k < |caps| ==> Fitting(h, t, frame, ups, caps[k])
  }

  lemma LiveStays(h: Heap, k: Heap, cw: bool, r: Ref)
    requires FreedDead(h, k, cw) && Live(h, cw, r)
    ensures Live(k, cw, r)
  {
  }

  lemma KeptThread(h: Heap, k: Heap, u: Ref, t: Ref)
    requires Kept(h, k, u) && t in h && h[t].body.Thread?
    ensures t in k && k[t].body.Thread? && k[t].body.stack == h[t].body.stack
  {
    assert Contents(k, t) == Contents(h, t);
  }

  lemma KeptClosure(h: Heap, k: Heap, u: Ref, c: Ref)
    requires Kept(h, k, u) && c in h && h[c].body.Closure?
    ensures c in k && k[c].body == h[c].body
  {
    assert Contents(k, c) == Contents(h, c);
  }

  lemma PreservedTrans(h0: Heap, h: Heap, k: Heap)
    requires Preserved(h0, h) && Preserved(h, k)
    ensures Preserved(h0, k)
  {
    hide Contents;
  }

  lemma PreservedStored(h0: Heap, h: Heap, k: Heap, c: Ref, b: Body)
    requires Preserved(h0, h) && Stored(h, k, c, b) && c in h && c !in h0 && h[c].body.Closure? && b.Closure?
    ensures Preserved(h0, k)
  {
    forall x | x in h0
      ensures x in k && Contents(k, x) == Contents(h0, x) && (h0[x].body.OpenUpval? ==> k[x].body == h0[x].body)
    {
      assert x in h;
    }
  }

  lemma PreservedNew(h: Heap, r: Ref, o: GCObject)
    requires r !in h && !o.body.Thread? && forall u :: u in h && h[u].body.OpenUpval? ==> h[u].body.thread in h
    ensures Preserved(h, h[r := o])
  {
  }

  lemma CapturedKept(h: Heap, k: Heap, u: Ref, t: Ref, frame: nat, ups: seq<Value>, caps: seq<Capture>, vs: seq<Value>)
    requires Kept(h, k, u) && AllCaptured(h, t, frame, ups, caps, vs)
    ensures AllCaptured(k, t, frame, ups, caps, vs)
  {
    hide Contents;
    forall j | 0 <= j < |caps| ensures Captured(k, t, frame, ups, caps[j], vs[j]) {
      assert Captured(h, t, frame, ups, caps[j], vs[j]);
    }
  }

  lemma CapturedStored(h: Heap, k: Heap, c: Ref, b: Body, t: Ref, frame: nat, ups: seq<Value>, caps: seq<Capture>,
        vs: seq<Value>)
    requires Stored(h, k, c, b) && c in h && h[c].body.Closure? && AllCaptured(h, t, frame, ups, caps, vs)
    ensures AllCaptured(k, t, frame, ups, caps, vs)
  {
    forall j | 0 <= j < |caps| ensures Captured(k, t, frame, ups, caps[j], vs[j]) {
      assert Captured(h, t, frame, ups, caps[j], vs[j]);
    }
  }

  lemma OwnLive(h: Heap, cw: bool, own: seq<Value>, ups: seq<Value>, held: seq<Value>)
    requires (forall v :: v in own + ups ==> LiveValue(h, cw, v)) && forall v :: v in held ==> v in own || v == Nil
    ensures forall x :: Refers(h, Closure(held), x) ==> Live(h, cw, x)
  {
    forall x | Refers(h, Closure(held), x) ensures Live(h, cw, x) {
      assert Ptr(x) in own + ups;
    }
  }

  lemma StartSoFar(h0: Heap, cw: bool, t: Ref, frame: nat, own: seq<Value>, ups: seq<Value>, caps: seq<Capture>, c: Ref,
        o: GCObject)
    requires c !in h0 && o.body.Closure? && o.color == White(cw) && FreedDead(h0, h0[c := o], cw)
    requires |o.body.held| == |own| + |caps| && o.body.held[..|own|] == own
    requires Live(h0, cw, t) && h0[t].body.Thread? && forall v :: v in own + ups ==> LiveValue(h0, cw, v)
    requires forall k :: 0 <= k < |caps| ==> Fitting(h0, t, frame, ups, caps[k])
    requires forall u :: u in h0 && h0[u].body.OpenUpval? ==> h0[u].body.thread in h0
    ensures SoFar(h0, h0[c := o], cw, t, frame, own, ups, caps, c, 0)
  {
    PreservedNew(h0, c, o);
    hide Preserved, FreedDead;
    assert o.body.held[|own|..|own| + 0] == [] && caps[..0] == [];
  }

  lemma KeptSoFar(h0: Heap, h: Heap, k: Heap, cw: bool, u: Ref, t: Ref, frame: nat, own: seq<Value>, ups: seq<Value>,
        caps: seq<Capture>, c: Ref, j: nat)
    requires SoFar(h0, h, cw, t, frame, own, ups, caps, c, j) && Kept(h, k, u) && FreedDead(h, k, cw)
    ensures SoFar(h0, k, cw, t, frame, own, ups, caps, c, j) && k[c].body == h[c].body
  {
    KeptThread(h, k, u, t);
    KeptClosure(h, k, u, c);
    CapturedKept(h, k, u, t, frame, ups, caps[..j], h[c].body.held[|own|..|own| + j]);
    PreservedTrans(h0, h, k);
    FreedTrans(h0, h, k, cw);
    LiveStays(h, k, cw, c);
    LiveStays(h, k, cw, t);
    forall v | v in own + ups ensures LiveValue(k, cw, v) {
      if v.Ptr? { LiveStays(h, k, cw, v.r); }
    }
    hide Preserved, FreedDead, AllCaptured, Live, Kept;
  }

  lemma StoredSoFar(h0: Heap, h: Heap, k: Heap, cw: bool, t: Ref, frame: nat, own: seq<Value>, ups: seq<Value>,
        caps: seq<Capture>, c: Ref, j: nat, v: Value)
    requires SoFar(h0, h, cw, t, frame, own, ups, caps, c, j) && j < |caps| && Captured(h, t, frame, ups, caps[j], v)
    requires Stored(h, k, c, Closure(h[c].body.held[|own| + j := v])) && FreedDead(h, k, cw)
    ensures SoFar(h0, k, cw, t, frame, own, ups, caps, c, j + 1)
  {
    var held, b := h[c].body.held, Closure(h[c].body.held[|own| + j := v]);
    CapturedStored(h, k, c, b, t, frame, ups, caps[..j], held[|own|..|own| + j]);
    assert [caps[j]][0] == caps[j] && [v][0] == v;
    CapturedStored(h, k, c, b, t, frame, ups, [caps[j]], [v]);
    CapturedMore(k, t, frame, ups, caps, j, held[|own|..|own| + j], v);
    assert b.held[|own|..|own| + (j + 1)] == held[|own|..|own| + j] + [v];
    assert b.held[..|own|] == held[..|own|];
    PreservedStored(h0, h, k, c, b);
    FreedTrans(h0, h, k, cw);
    LiveStays(h, k, cw, c);
    LiveStays(h, k, cw, t);
    forall v | v in own + ups ensures LiveValue(k, cw, v) {
      if v.Ptr? { LiveStays(h, k, cw, v.r); }
    }
    hide Preserved, FreedDead, AllCaptured, Live, Captured;
  }

  lemma CapturedMore(h: Heap, t: Ref, frame: nat, ups: seq<Value>, caps: seq<Capture>, j: nat, vs: seq<Value>, v: Value)
    requires j < |caps| && AllCaptured(h, t, frame, ups, caps[..j], vs) && AllCaptured(h, t, frame, ups, [caps[j]], [v])
    ensures AllCaptured(h, t, frame, ups, caps[..j + 1], vs + [v])
  {
    forall i | 0 <= i <= j ensures Captured(h, t, frame, ups, caps[..j + 1][i], (vs + [v])[i]) {
      if i < j {
        assert Captured(h, t, frame, ups, caps[..j][i], vs[i]);
      } else {
        assert Captured(h, t, frame, ups, [caps[j]][0], [v][0]);
      }
    }
  }

  lemma Finished(h0: Heap, h: Heap, cw: bool, t: Ref, frame: nat, own: seq<Value>, ups: seq<Value>, caps: seq<Capture>,
        c: Ref)
    requires SoFar(h0, h, cw, t, frame, own, ups, caps, c, |caps|)
    ensures AllCaptured(h, t, frame, ups, caps, h[c].body.held[|own|..])
  {
    assert caps[..|caps|] == caps && h[c].body.held[|own|..|own| + |caps|] == h[c].body.held[|own|..];
  }

  /** Captures of one register share one upvalue. */
  lemma SharedUpval(strHash: nat -> nat, s: State, t: Ref, frame: nat, ups: seq<Value>, caps: seq<Capture>,
        vs: seq<Value>,
        i: nat, j: nat)
    requires GcOk(strHash, s) && AllCaptured(s.h, t, frame, ups, caps, vs)
    requires i < |caps| && j < |caps| && caps[i].FromStack? && caps[i] == caps[j]
    ensures vs[i] == vs[j]
  {
    hide StringsOk, Interned, RootOk, UdataOk, LiveClosed, RootsLive, ColorsOk, PhaseOk, LevelsOk;
    assert Captured(s.h, t, frame, ups, caps[i], vs[i]) && Captured(s.h, t, frame, ups, caps[j], vs[j]);
    var a, b := vs[i].r, vs[j].r;
    assert OpenedOk(s.h, a) && OpenedOk(s.h, b) && OpenListOk(s.h, t);
  }
}
