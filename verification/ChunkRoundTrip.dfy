/** Loading what was dumped. */
module ChunkRoundTrip {
  import opened Chunks

  lemma BlockReads(b: seq<byte>, n: nat, tail: seq<byte>)
    requires |b| == n
    ensures Block(b + tail, n) == Got(b, tail)
  {
    assert (b + tail)[..n] == b && (b + tail)[n..] == tail;
  }

  lemma IntReads(m: Host, x: int31, tail: seq<byte>)
    ensures Int(m, IntBytes(m, x) + tail) == Got(x, tail)
  {
    BlockReads(IntBytes(m, x), 4, tail);
    FourBytes();
    FieldReads(m, x, 4);
  }

  /** No string and the empty string stay apart. */
  lemma TextReads(m: Host, t: Text, tail: seq<byte>)
    requires TextFits(m, t)
    ensures ReadText(m, TextBytes(m, t) + tail) == Got(t, tail)
  {
    var n := if t.NoText? then 0 else |t.bytes| + 1;
    FieldReads(m, n, m.sizeT);
    if t.NoText? {
      BlockReads(Field(m, 0, m.sizeT), m.sizeT, tail);
    } else {
      var b := t.bytes + [0];
      assert TextBytes(m, t) + tail == Field(m, n, m.sizeT) + (b + tail);
      BlockReads(Field(m, n, m.sizeT), m.sizeT, b + tail);
      BlockReads(b, n, tail);
      assert b[..n - 1] == t.bytes;
    }
  }

  lemma {:induction false} WordsRead(m: Host, ws: seq<word>)
    ensures Words(m, WordsBytes(m, ws)) == ws
    decreases |ws|
  {
    if ws != [] {
      var b := WordsBytes(m, ws);
      FourBytes();
      FieldReads(m, ws[0], 4);
      assert b[..4] == IntBytes(m, ws[0]) && b[4..] == WordsBytes(m, ws[1..]);
      WordsRead(m, ws[1..]);
    }
  }

  lemma VectorReads(m: Host, ws: seq<word>, tail: seq<byte>)
    requires |ws| < 0x8000_0000
    ensures Vector(m, VectorBytes(m, ws) + tail) == Got(ws, tail)
  {
    var b := WordsBytes(m, ws);
    assert VectorBytes(m, ws) + tail == IntBytes(m, |ws|) + (b + tail);
    IntReads(m, |ws|, b + tail);
    BlockReads(b, 4 * |ws|, tail);
    WordsRead(m, ws);
  }

  lemma ConstantReads(m: Host, c: Constant, tail: seq<byte>)
    requires ConstantFits(m, c)
    ensures ReadConstant(m, ConstantBytes(m, c) + tail) == Got(c, tail)
  {
    hide TextBytes, ReadText, TextFits;
    var s := ConstantBytes(m, c) + tail;
    match c
    case NilConst =>
      assert s[1..] == tail;
    case BoolConst(b) =>
      assert s[1..] == [if b then 1 else 0] + tail;
      assert s[1..][1..] == tail;
    case NumConst(image) =>
      assert s[1..] == image + tail;
      BlockReads(image, 8, tail);
    case TextConst(t) =>
      assert s[1..] == TextBytes(m, t) + tail;
      TextReads(m, t, tail);
  }

  lemma LocVarReads(m: Host, v: LocVar, tail: seq<byte>)
    requires TextFits(m, v.name)
    ensures ReadLocVar(m, LocVarBytes(m, v) + tail) == Got(v, tail)
  {
    var a, b := IntBytes(m, v.startpc), IntBytes(m, v.endpc);
    assert LocVarBytes(m, v) + tail == TextBytes(m, v.name) + (a + (b + tail));
    TextReads(m, v.name, a + (b + tail));
    IntReads(m, v.startpc, b + tail);
    IntReads(m, v.endpc, tail);
  }

  // ----- Lists -----

  /** Whatever follows, these bytes are read as x, or not at all. */
  ghost predicate Reads<T(!new)>(item: seq<byte> -> Read<T>, b: seq<byte>, x: T) {
    forall tail :: item(b + tail) == Got(x, tail)
  }

  ghost predicate Fails<T(!new)>(item: seq<byte> -> Read<T>, b: seq<byte>) {
    forall tail :: item(b + tail).Bad?
  }

  lemma {:induction false} ManyReads<T(!new)>(item: seq<byte> -> Read<T>, ss: seq<seq<byte>>, xs: seq<T>,
        tail: seq<byte>)
    requires |ss| == |xs| && forall i :: 0 <= i < |ss| ==> Reads(item, ss[i], xs[i])
    ensures Many(item, |ss|, Flat(ss) + tail) == Got(xs, tail)
    decreases |ss|
  {
    if ss == [] {
      assert Flat(ss) + tail == tail;
    } else {
      assert Flat(ss) + tail == ss[0] + (Flat(ss[1..]) + tail);
      assert Reads(item, ss[0], xs[0]);
      ManyReads(item, ss[1..], xs[1..], tail);
      assert xs == [xs[0]] + xs[1..];
    }
  }

  lemma {:induction false} ManyFails<T(!new)>(item: seq<byte> -> Read<T>, ss: seq<seq<byte>>, xs: seq<T>, k: nat,
        tail: seq<byte>)
    requires |ss| == |xs| && k < |ss| && Fails(item, ss[k]) && forall i :: 0 <= i < k ==> Reads(item, ss[i], xs[i])
    ensures Many(item, |ss|, Flat(ss) + tail).Bad?
    decreases |ss|
  {
    assert Flat(ss) + tail == ss[0] + (Flat(ss[1..]) + tail);
    if k > 0 {
      assert Reads(item, ss[0], xs[0]);
      ManyFails(item, ss[1..], xs[1..], k - 1, tail);
    }
  }

  lemma CountedReads<T(!new)>(m: Host, item: seq<byte> -> Read<T>, ss: seq<seq<byte>>, xs: seq<T>, tail: seq<byte>)
    requires |ss| == |xs| < 0x8000_0000 && forall i :: 0 <= i < |ss| ==> Reads(item, ss[i], xs[i])
    ensures Counted(m, item, IntBytes(m, |xs|) + Flat(ss) + tail) == Got(xs, tail)
  {
    assert IntBytes(m, |xs|) + Flat(ss) + tail == IntBytes(m, |xs|) + (Flat(ss) + tail);
    IntReads(m, |xs|, Flat(ss) + tail);
    ManyReads(item, ss, xs, tail);
  }

  lemma CountedFails<T(!new)>(m: Host, item: seq<byte> -> Read<T>, ss: seq<seq<byte>>, xs: seq<T>, k: nat,
        tail: seq<byte>)
    requires |ss| == |xs| < 0x8000_0000 && k < |ss| && Fails(item, ss[k])
    requires forall i :: 0 <= i < k ==> Reads(item, ss[i], xs[i])
    ensures Counted(m, item, IntBytes(m, |xs|) + Flat(ss) + tail).Bad?
  {
    assert IntBytes(m, |xs|) + Flat(ss) + tail == IntBytes(m, |xs|) + (Flat(ss) + tail);
    IntReads(m, |xs|, Flat(ss) + tail);
    ManyFails(item, ss, xs, k, tail);
  }

  lemma ConstantsRead(m: Host, ks: seq<Constant>, tail: seq<byte>)
    requires |ks| < 0x8000_0000 && forall i :: 0 <= i < |ks| ==> ConstantFits(m, ks[i])
    ensures Counted(m, ConstantItem(m), IntBytes(m, |ks|) + Flat(ConstantsBytes(m, ks)) + tail) == Got(ks, tail)
  {
    forall i | 0 <= i < |ks| ensures Reads(ConstantItem(m), ConstantsBytes(m, ks)[i], ks[i]) {
      forall t: seq<byte> { ConstantReads(m, ks[i], t); }
    }
    CountedReads(m, ConstantItem(m), ConstantsBytes(m, ks), ks, tail);
  }

  lemma LocVarsRead(m: Host, vs: seq<LocVar>, tail: seq<byte>)
    requires |vs| < 0x8000_0000 && forall i :: 0 <= i < |vs| ==> TextFits(m, vs[i].name)
    ensures Counted(m, LocVarItem(m), IntBytes(m, |vs|) + Flat(LocVarsBytes(m, vs)) + tail) == Got(vs, tail)
  {
    forall i | 0 <= i < |vs| ensures Reads(LocVarItem(m), LocVarsBytes(m, vs)[i], vs[i]) {
      forall t: seq<byte> { LocVarReads(m, vs[i], t); }
    }
    CountedReads(m, LocVarItem(m), LocVarsBytes(m, vs), vs, tail);
  }

  lemma TextsRead(m: Host, ts: seq<Text>, tail: seq<byte>)
    requires |ts| < 0x8000_0000 && forall i :: 0 <= i < |ts| ==> TextFits(m, ts[i])
    ensures Counted(m, TextItem(m), IntBytes(m, |ts|) + Flat(TextsBytes(m, ts)) + tail) == Got(ts, tail)
  {
    forall i | 0 <= i < |ts| ensures Reads(TextItem(m), TextsBytes(m, ts)[i], ts[i]) {
      forall t: seq<byte> { TextReads(m, ts[i], t); }
    }
    CountedReads(m, TextItem(m), TextsBytes(m, ts), ts, tail);
  }

  // ----- Functions -----

  /** The source a function has after it was dumped inside a parent and loaded inside what
      that was loaded as. */
  function RestoredSource(f: Proto, parent: Text, loaded: Text, strip: bool): Text {
    Inherited(DumpedSource(f, parent, strip), loaded)
  }

  /** What is left of a function: sources that were left out come from around it, and without
      debug information if that was stripped. */
  function Restored(f: Proto, parent: Text, loaded: Text, strip: bool): Proto {
    var source := RestoredSource(f, parent, loaded, strip);
    var p := seq(|f.p|, i requires 0 <= i < |f.p| => Restored(f.p[i], f.source, source, strip));
    Proto(source, f.linedefined, f.lastlinedefined, f.nups, f.numparams, f.isVararg, f.maxstacksize, f.code, f.k, p,
          if strip then [] else f.lineinfo, if strip then [] else f.locvars, if strip then [] else f.upvalues)
  }

  /** Every function passes the check, and none is nested too deep. */
  predicate Accepted(check: Proto -> bool, g: Proto, depth: nat)
    decreases g
  {
    depth + 1 <= MAX_CCALLS && check(g) && forall i :: 0 <= i < |g.p| ==> Accepted(check, g.p[i], depth + 1)
  }

  lemma HeadReads(m: Host, f: Proto, parent: Text, loaded: Text, strip: bool, tail: seq<byte>)
    requires Small(m, f)
    ensures ReadHead(m, loaded, HeadBytes(m, f, parent, strip) + tail)
            == Got(Proto(RestoredSource(f, parent, loaded, strip), f.linedefined, f.lastlinedefined, f.nups,
                  f.numparams,
                         f.isVararg, f.maxstacksize, f.code, [], [], [], [], []), tail)
  {
    hide TextBytes, IntBytes, VectorBytes, ReadText, Int, Vector;
    var t, a, b := DumpedSource(f, parent, strip), IntBytes(m, f.linedefined), IntBytes(m, f.lastlinedefined);
    var c, v := [f.nups, f.numparams, f.isVararg, f.maxstacksize], VectorBytes(m, f.code);
    assert HeadBytes(m, f, parent, strip) + tail == TextBytes(m, t) + (a + (b + (c + (v + tail))));
    assert TextFits(m, t);
    TextReads(m, t, a + (b + (c + (v + tail))));
    IntReads(m, f.linedefined, b + (c + (v + tail)));
    IntReads(m, f.lastlinedefined, c + (v + tail));
    BlockReads(c, 4, v + tail);
    VectorReads(m, f.code, tail);
  }

  lemma DebugReads(m: Host, f: Proto, strip: bool, tail: seq<byte>)
    requires Small(m, f)
    ensures ReadDebug(m, DebugBytes(m, f, strip) + tail)
            == Got(if strip then Debug([], [], []) else Debug(f.lineinfo, f.locvars, f.upvalues), tail)
  {
    hide VectorBytes, LocVarsBytes, TextsBytes, Vector, Counted, Flat, IntBytes, LocVarItem, TextItem;
    if strip {
      NoneRead(m, tail);
    } else {
      var a := VectorBytes(m, f.lineinfo);
      var b := IntBytes(m, |f.locvars|) + Flat(LocVarsBytes(m, f.locvars));
      var c := IntBytes(m, |f.upvalues|) + Flat(TextsBytes(m, f.upvalues));
      assert DebugBytes(m, f, strip) + tail == a + (b + (c + tail));
      VectorReads(m, f.lineinfo, b + (c + tail));
      LocVarsRead(m, f.locvars, c + tail);
      TextsRead(m, f.upvalues, tail);
    }
  }

  lemma NoneRead(m: Host, tail: seq<byte>)
    ensures var z := IntBytes(m, 0); ReadDebug(m, z + z + z + tail) == Got(Debug([], [], []), tail)
  {
    var z := IntBytes(m, 0);
    hide IntBytes, Int;
    assert z + z + z + tail == z + (z + (z + tail));
    IntReads(m, 0, z + (z + tail));
    IntReads(m, 0, z + tail);
    IntReads(m, 0, tail);
    assert (z + (z + tail))[0..] == z + (z + tail);
  }

  /** A dumped function loads as what is left of it exactly if that is accepted. */
  lemma {:induction false} FunctionReads(m: Host, check: Proto -> bool, f: Proto, parent: Text, loaded: Text,
        strip: bool,
        depth: nat, tail: seq<byte>)
    requires Small(m, f)
    ensures var g, r := Restored(f, parent, loaded, strip),
                        ReadFunction(m, check, loaded, depth, FunctionBytes(m, f, parent, strip) + tail);
            if Accepted(check, g, depth) then r == Got(g, tail) else r.Bad?
    decreases f
  {
    hide HeadBytes, DebugBytes, ReadHead, ReadDebug, Counted, Flat, Small, IntBytes, RestoredSource, DumpedSource;
    if depth + 1 <= MAX_CCALLS {
      SmallParts(m, f);
      var source := RestoredSource(f, parent, loaded, strip);
      var h, d := HeadBytes(m, f, parent, strip), DebugBytes(m, f, strip);
      var a := IntBytes(m, |f.k|) + Flat(ConstantsBytes(m, f.k));
      var b := IntBytes(m, |f.p|) + Flat(ChildrenBytes(m, f, strip));
      assert FunctionBytes(m, f, parent, strip) + tail == h + (a + (b + (d + tail)));
      HeadReads(m, f, parent, loaded, strip, a + (b + (d + tail)));
      ConstantsRead(m, f.k, b + (d + tail));
      ChildrenRead(m, check, f, source, strip, depth + 1, d + tail);
      DebugReads(m, f, strip, tail);
    }
  }

  lemma SmallParts(m: Host, f: Proto)
    requires Small(m, f)
    ensures |f.k| < 0x8000_0000 && |f.p| < 0x8000_0000 && forall i :: 0 <= i < |f.k| ==> ConstantFits(m, f.k[i])
    ensures forall i :: 0 <= i < |f.p| ==> Small(m, f.p[i])
  {
  }

  lemma {:induction false} ChildrenRead(m: Host, check: Proto -> bool, f: Proto, source: Text, strip: bool, depth: nat,
        tail: seq<byte>)
    requires Small(m, f)
    ensures var ps := seq(|f.p|, i requires 0 <= i < |f.p| => Restored(f.p[i], f.source, source, strip));
            var r := Counted(m, FunctionItem(m, check, source, depth),
                             IntBytes(m, |f.p|) + Flat(ChildrenBytes(m, f, strip)) + tail);
            if forall i :: 0 <= i < |f.p| ==> Accepted(check, ps[i], depth) then r == Got(ps, tail) else r.Bad?
    decreases f, 0
  {
    hide FunctionBytes, ReadFunction, Counted, Many, Flat, Small, IntBytes, Accepted, Restored;
    SmallParts(m, f);
    var ps := seq(|f.p|, i requires 0 <= i < |f.p| => Restored(f.p[i], f.source, source, strip));
    var ss, item := ChildrenBytes(m, f, strip), FunctionItem(m, check, source, depth);
    forall i | 0 <= i < |f.p|
      ensures if Accepted(check, ps[i], depth) then Reads(item, ss[i], ps[i]) else Fails(item, ss[i])
    {
      forall t: seq<byte> { FunctionReads(m, check, f.p[i], f.source, source, strip, depth, t); }
    }
    if forall i :: 0 <= i < |f.p| ==> Accepted(check, ps[i], depth) {
      CountedReads(m, item, ss, ps, tail);
    } else {
      var k := FirstRejected(check, ps, depth);
      CountedFails(m, item, ss, ps, k, tail);
    }
  }

  lemma FirstRejected(check: Proto -> bool, ps: seq<Proto>, depth: nat) returns (k: nat)
    requires exists i :: 0 <= i < |ps| && !Accepted(check, ps[i], depth)
    ensures k < |ps| && !Accepted(check, ps[k], depth) && forall i :: 0 <= i < k ==> Accepted(check, ps[i], depth)
  {
    k := 0;
    while Accepted(check, ps[k], depth)
      invariant k < |ps| && forall i :: 0 <= i < k ==> Accepted(check, ps[i], depth)
      decreases |ps| - k
    {
      k := k + 1;
    }
  }

  /** Dump and load: the same function tree but for debug information that was stripped and
      sources that were left out, and exactly if it is accepted. */
  lemma ChunkReads(m: Host, check: Proto -> bool, f: Proto, strip: bool, depth: nat, tail: seq<byte>)
    requires Small(m, f)
    ensures var g, r := Restored(f, NoText, UNKNOWN, strip), ReadChunk(m, check, depth, ChunkBytes(m, f, strip) + tail);
            if Accepted(check, g, depth) then r == Got(g, tail) else r.Bad?
  {
    hide FunctionBytes, ReadFunction, Accepted, Restored, Small;
    var b := FunctionBytes(m, f, NoText, strip);
    assert ChunkBytes(m, f, strip) + tail == HeaderBytes(m) + (b + tail);
    BlockReads(HeaderBytes(m), 12, b + tail);
    FunctionReads(m, check, f, NoText, UNKNOWN, strip, depth, tail);
  }

  // ----- What is left -----

  /** Every function of the tree has a source. */
  predicate Named(f: Proto) {
    f.source != NoText && forall i :: 0 <= i < |f.p| ==> Named(f.p[i])
  }

  /** Without stripping nothing is lost in exactly the trees whose functions all have a source. */
  lemma {:induction false} NothingLost(f: Proto, parent: Text, loaded: Text)
    requires loaded != NoText && (parent == loaded || parent == NoText)
    ensures Restored(f, parent, loaded, false) == f <==> Named(f)
    decreases f
  {
    var g := Restored(f, parent, loaded, false);
    if f.source != NoText {
      assert g.source == f.source;
      forall i | 0 <= i < |f.p| ensures g.p[i] == f.p[i] <==> Named(f.p[i]) {
        NothingLost(f.p[i], f.source, f.source);
      }
      if Named(f) { assert g.p == f.p; }
    }
  }

  /** Debug information is gone from the whole tree, and every source is the one given. */
  predicate Bare(f: Proto, source: Text) {
    && f.source == source && f.lineinfo == [] && f.locvars == [] && f.upvalues == []
    && forall i :: 0 <= i < |f.p| ==> Bare(f.p[i], source)
  }

  /** The trees are alike but for debug information and sources. */
  predicate SameCode(f: Proto, g: Proto) {
    && g.linedefined == f.linedefined && g.lastlinedefined == f.lastlinedefined && g.nups == f.nups
    && g.numparams == f.numparams && g.isVararg == f.isVararg && g.maxstacksize == f.maxstacksize
    && g.code == f.code && g.k == f.k && |g.p| == |f.p|
    && forall i :: 0 <= i < |f.p| ==> SameCode(f.p[i], g.p[i])
  }

  lemma {:induction false} StrippedOnly(f: Proto, parent: Text, loaded: Text, strip: bool)
    ensures SameCode(f, Restored(f, parent, loaded, strip))
    ensures strip && loaded != NoText ==> Bare(Restored(f, parent, loaded, strip), loaded)
    decreases f
  {
    forall i | 0 <= i < |f.p| {
      StrippedOnly(f.p[i], f.source, RestoredSource(f, parent, loaded, strip), strip);
    }
  }

  lemma {:induction false} RestoredSmall(m: Host, f: Proto, parent: Text, loaded: Text, strip: bool)
    requires Small(m, f) && TextFits(m, loaded)
    ensures Small(m, Restored(f, parent, loaded, strip))
    decreases f
  {
    SmallParts(m, f);
    var g := Restored(f, parent, loaded, strip);
    forall i | 0 <= i < |g.p| ensures Small(m, g.p[i]) {
      RestoredSmall(m, f.p[i], f.source, g.source, strip);
    }
  }

  /** Stripping what was stripped and loaded gives the same bytes. */
  lemma {:induction false} StripAgain(m: Host, f: Proto, parent: Text, loaded: Text, other: Text)
    requires Small(m, f) && TextFits(m, loaded)
    ensures var g := Restored(f, parent, loaded, true);
            Small(m, g) && FunctionBytes(m, g, other, true) == FunctionBytes(m, f, parent, true)
    decreases f
  {
    var g := Restored(f, parent, loaded, true);
    RestoredSmall(m, f, parent, loaded, true);
    SmallParts(m, f);
    SmallParts(m, g);
    forall i | 0 <= i < |f.p| ensures ChildrenBytes(m, g, true)[i] == ChildrenBytes(m, f, true)[i] {
      StripAgain(m, f.p[i], f.source, g.source, g.source);
    }
    hide Small;
    assert ChildrenBytes(m, g, true) == ChildrenBytes(m, f, true);
  }
}
