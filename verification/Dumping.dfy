/** Writing a precompiled chunk (src/c/lua/ldump.c). */
module Dumping {
  import opened Chunks

  /** From the output and status before, bytes b were given to the writer, all of them or
      those up to the first block that it refused. */
  ghost predicate Wrote(out0: seq<byte>, status0: int, b: seq<byte>, out: seq<byte>, status: int) {
    && out0 <= out <= out0 + b
    && (status0 != 0 ==> out == out0 && status == status0)
    && (status == 0 ==> out == out0 + b)
  }

  lemma WroteThen(out0: seq<byte>, st0: int, b: seq<byte>, out1: seq<byte>, st1: int, c: seq<byte>, out: seq<byte>,
        st: int)
    requires Wrote(out0, st0, b, out1, st1) && Wrote(out1, st1, c, out, st)
    ensures Wrote(out0, st0, b + c, out, st)
  {
    assert out0 + (b + c) == out0 + b + c;
    if st1 != 0 { assert out <= out0 + b; }
  }

  /** The writer got these blocks one after the other; it accepted each but perhaps the last, to
      which the status is its answer. */
  ghost predicate Told(writer: (seq<byte>, seq<byte>) -> int, blocks: seq<seq<byte>>, out: seq<byte>, status: int) {
    && out == Flat(blocks) && (blocks == [] ==> status == 0)
    && forall i :: 0 <= i < |blocks| ==>
         writer(Flat(blocks[..i]), blocks[i]) == if i == |blocks| - 1 then status else 0
  }

  lemma ToldMore(writer: (seq<byte>, seq<byte>) -> int, blocks: seq<seq<byte>>, out: seq<byte>, b: seq<byte>)
    requires Told(writer, blocks, out, 0)
    ensures Told(writer, blocks + [b], out + b, writer(out, b))
  {
    var more := blocks + [b];
    FlatMore(more, |blocks|);
    assert more[..|blocks|] == blocks && more[..|blocks| + 1] == more;
    forall i | 0 <= i < |more|
      ensures writer(Flat(more[..i]), more[i]) == if i == |more| - 1 then writer(out, b) else 0
    {
      if i < |blocks| { assert more[..i] == blocks[..i]; }
    }
  }

  /** The writer is a function of what it got before and the next block; its result is the
      status, 0 to go on. */
  class DumpState {
    const m: Host
    const writer: (seq<byte>, seq<byte>) -> int
    const strip: bool
    var out: seq<byte>
    var status: int
    /** The blocks that the writer got. */
    ghost var blocks: seq<seq<byte>>

    ghost predicate Valid()
      reads this
    {
      Told(writer, blocks, out, status)
    }

    constructor (m: Host, writer: (seq<byte>, seq<byte>) -> int, strip: bool)
      ensures this.m == m && this.writer == writer && this.strip == strip && out == [] && status == 0
      ensures Valid()
    {
      this.m, this.writer, this.strip, out, status, blocks := m, writer, strip, [], 0, [];
    }

    method DumpBlock(b: seq<byte>)
      requires Valid()
      modifies this
      ensures Valid()
      ensures Wrote(old(out), old(status), b, out, status)
    {
      if status == 0 {
        ToldMore(writer, blocks, out, b);
        status := writer(out, b);
        out := out + b;
        blocks := blocks + [b];
      }
    }

    method DumpChar(y: byte)
      requires Valid()
      modifies this
      ensures Valid()
      ensures Wrote(old(out), old(status), [y], out, status)
    {
      DumpBlock([y]);
    }

    method DumpInt(x: word)
      requires Valid()
      modifies this
      ensures Valid()
      ensures Wrote(old(out), old(status), IntBytes(m, x), out, status)
    {
      DumpBlock(IntBytes(m, x));
    }

    method DumpVector(ws: seq<word>)
      requires |ws| < 0x8000_0000
      requires Valid()
      modifies this
      ensures Valid()
      ensures Wrote(old(out), old(status), VectorBytes(m, ws), out, status)
    {
      DumpInt(|ws|);
      ghost var o, s := out, status;
      DumpBlock(WordsBytes(m, ws));
      WroteThen(old(out), old(status), IntBytes(m, |ws|), o, s, WordsBytes(m, ws), out, status);
    }

    method DumpString(t: Text)
      requires TextFits(m, t)
      requires Valid()
      modifies this
      ensures Valid()
      ensures Wrote(old(out), old(status), TextBytes(m, t), out, status)
    {
      if t.NoText? {
        DumpBlock(Field(m, 0, m.sizeT));
      } else {
        var size := |t.bytes| + 1;
        DumpBlock(Field(m, size, m.sizeT));
        ghost var o, s := out, status;
        DumpBlock(t.bytes + [0]);
        WroteThen(old(out), old(status), Field(m, size, m.sizeT), o, s, t.bytes + [0], out, status);
      }
    }

    method DumpConstant(c: Constant)
      requires ConstantFits(m, c)
      requires Valid()
      modifies this
      ensures Valid()
      ensures Wrote(old(out), old(status), ConstantBytes(m, c), out, status)
    {
      var tag: byte := match c case NilConst => 0 case BoolConst(_) => 1 case NumConst(_) => 3 case TextConst(_) => 4;
      DumpChar(tag);
      ghost var o, s := out, status;
      match c
      case NilConst =>
      case BoolConst(b) =>
        DumpChar(if b then 1 else 0);
        WroteThen(old(out), old(status), [tag], o, s, [if b then 1 else 0], out, status);
      case NumConst(image) =>
        DumpBlock(image);
        WroteThen(old(out), old(status), [tag], o, s, image, out, status);
      case TextConst(t) =>
        DumpString(t);
        WroteThen(old(out), old(status), [tag], o, s, TextBytes(m, t), out, status);
    }

    method DumpConstants(f: Proto)
      requires Small(m, f)
      requires Valid()
      modifies this
      ensures Valid()
      ensures Wrote(old(out), old(status), IntBytes(m, |f.k|) + Flat(ConstantsBytes(m, f.k)), out, status)
    {
      ghost var ss := ConstantsBytes(m, f.k);
      DumpInt(|f.k|);
      NoneWritten(IntBytes(m, |f.k|), ss);
      for i := 0 to |f.k|
        invariant Valid() && Wrote(old(out), old(status), IntBytes(m, |f.k|) + Flat(ss[..i]), out, status)
      {
        ghost var o, s := out, status;
        DumpConstant(f.k[i]);
        NextWritten(old(out), old(status), IntBytes(m, |f.k|), ss, i, o, s, out, status);
      }
      AllWritten(IntBytes(m, |f.k|), ss);
    }

    method DumpFunction(f: Proto, parent: Text)
      requires Small(m, f)
      requires Valid()
      modifies this
      ensures Valid()
      ensures Wrote(old(out), old(status), FunctionBytes(m, f, parent, strip), out, status)
      decreases f, 1
    {
      hide Told, Wrote, Small;
      SmallFunction(m, f);
      ghost var h, k := HeadBytes(m, f, parent, strip), IntBytes(m, |f.k|) + Flat(ConstantsBytes(m, f.k));
      ghost var p := IntBytes(m, |f.p|) + Flat(ChildrenBytes(m, f, strip));
      DumpHead(f, parent);
      ghost var o1, s1 := out, status;
      DumpConstants(f);
      WroteThen(old(out), old(status), h, o1, s1, k, out, status);
      ghost var o2, s2 := out, status;
      DumpFunctions(f);
      WroteThen(old(out), old(status), h + k, o2, s2, p, out, status);
      ghost var o3, s3 := out, status;
      DumpDebug(f);
      WroteThen(old(out), old(status), h + k + p, o3, s3, DebugBytes(m, f, strip), out, status);
    }

    /** The functions inside one, at the end of its constants. */
    method DumpFunctions(f: Proto)
      requires Small(m, f)
      requires Valid()
      modifies this
      ensures Valid()
      ensures |f.p| < 0x8000_0000
      ensures Wrote(old(out), old(status), IntBytes(m, |f.p|) + Flat(ChildrenBytes(m, f, strip)), out, status)
      decreases f, 0
    {
      SmallFunction(m, f);
      hide Told, Wrote, Small, FunctionBytes, ChildrenBytes, Flat, IntBytes;
      ghost var ss := ChildrenBytes(m, f, strip);
      DumpInt(|f.p|);
      NoneWritten(IntBytes(m, |f.p|), ss);
      for i := 0 to |f.p|
        invariant Valid() && Wrote(old(out), old(status), IntBytes(m, |f.p|) + Flat(ss[..i]), out, status)
      {
        ghost var o, s := out, status;
        DumpFunction(f.p[i], f.source);
        NextWritten(old(out), old(status), IntBytes(m, |f.p|), ss, i, o, s, out, status);
      }
      AllWritten(IntBytes(m, |f.p|), ss);
    }

    /** The fields before the constants. */
    method DumpHead(f: Proto, parent: Text)
      requires Small(m, f)
      requires Valid()
      modifies this
      ensures Valid()
      ensures Wrote(old(out), old(status), HeadBytes(m, f, parent, strip), out, status)
    {
      hide Told, Wrote;
      ghost var t, a := TextBytes(m, DumpedSource(f, parent, strip)), IntBytes(m, f.linedefined);
      ghost var b, c := IntBytes(m, f.lastlinedefined), [f.nups, f.numparams, f.isVararg, f.maxstacksize];
      DumpString(if f.source == parent || strip then NoText else f.source);
      ghost var o1, s1 := out, status;
      DumpInt(f.linedefined);
      WroteThen(old(out), old(status), t, o1, s1, a, out, status);
      ghost var o2, s2 := out, status;
      DumpInt(f.lastlinedefined);
      WroteThen(old(out), old(status), t + a, o2, s2, b, out, status);
      ghost var o3, s3 := out, status;
      DumpFour(f.nups, f.numparams, f.isVararg, f.maxstacksize);
      WroteThen(old(out), old(status), t + a + b, o3, s3, c, out, status);
      ghost var o4, s4 := out, status;
      DumpVector(f.code);
      WroteThen(old(out), old(status), t + a + b + c, o4, s4, VectorBytes(m, f.code), out, status);
    }

    method DumpFour(a: byte, b: byte, c: byte, d: byte)
      requires Valid()
      modifies this
      ensures Valid()
      ensures Wrote(old(out), old(status), [a, b, c, d], out, status)
    {
      hide Told, Wrote;
      DumpChar(a);
      ghost var o1, s1 := out, status;
      DumpChar(b);
      WroteThen(old(out), old(status), [a], o1, s1, [b], out, status);
      ghost var o2, s2 := out, status;
      DumpChar(c);
      WroteThen(old(out), old(status), [a] + [b], o2, s2, [c], out, status);
      ghost var o3, s3 := out, status;
      DumpChar(d);
      WroteThen(old(out), old(status), [a] + [b] + [c], o3, s3, [d], out, status);
      assert [a] + [b] + [c] + [d] == [a, b, c, d];
    }

    method DumpDebug(f: Proto)
      requires Small(m, f)
      requires Valid()
      modifies this
      ensures Valid()
      ensures Wrote(old(out), old(status), DebugBytes(m, f, strip), out, status)
    {
      hide Told, Wrote;
      var lines, vars, ups := f.lineinfo, f.locvars, f.upvalues;
      if strip {
        lines, vars, ups := [], [], [];
      }
      ghost var a := VectorBytes(m, lines);
      ghost var b := IntBytes(m, |vars|) + Flat(LocVarsBytes(m, vars));
      ghost var c := IntBytes(m, |ups|) + Flat(TextsBytes(m, ups));
      DumpVector(lines);
      ghost var o1, s1 := out, status;
      DumpLocVars(vars);
      WroteThen(old(out), old(status), a, o1, s1, b, out, status);
      ghost var o2, s2 := out, status;
      DumpUpvalueNames(ups);
      WroteThen(old(out), old(status), a + b, o2, s2, c, out, status);
      if strip { NoDebug(m); }
    }

    method DumpLocVars(vs: seq<LocVar>)
      requires |vs| < 0x8000_0000 && forall i :: 0 <= i < |vs| ==> TextFits(m, vs[i].name)
      requires Valid()
      modifies this
      ensures Valid()
      ensures Wrote(old(out), old(status), IntBytes(m, |vs|) + Flat(LocVarsBytes(m, vs)), out, status)
    {
      hide Told, Wrote;
      ghost var ss := LocVarsBytes(m, vs);
      DumpInt(|vs|);
      NoneWritten(IntBytes(m, |vs|), ss);
      for i := 0 to |vs|
        invariant Valid() && Wrote(old(out), old(status), IntBytes(m, |vs|) + Flat(ss[..i]), out, status)
      {
        ghost var o, s := out, status;
        ghost var t, a, b := TextBytes(m, vs[i].name), IntBytes(m, vs[i].startpc), IntBytes(m, vs[i].endpc);
        DumpString(vs[i].name);
        ghost var o1, s1 := out, status;
        DumpInt(vs[i].startpc);
        WroteThen(o, s, t, o1, s1, a, out, status);
        ghost var o2, s2 := out, status;
        DumpInt(vs[i].endpc);
        WroteThen(o, s, t + a, o2, s2, b, out, status);
        NextWritten(old(out), old(status), IntBytes(m, |vs|), ss, i, o, s, out, status);
      }
      AllWritten(IntBytes(m, |vs|), ss);
    }

    method DumpUpvalueNames(ts: seq<Text>)
      requires |ts| < 0x8000_0000 && forall i :: 0 <= i < |ts| ==> TextFits(m, ts[i])
      requires Valid()
      modifies this
      ensures Valid()
      ensures Wrote(old(out), old(status), IntBytes(m, |ts|) + Flat(TextsBytes(m, ts)), out, status)
    {
      hide Told, Wrote;
      ghost var ss := TextsBytes(m, ts);
      DumpInt(|ts|);
      NoneWritten(IntBytes(m, |ts|), ss);
      for i := 0 to |ts|
        invariant Valid() && Wrote(old(out), old(status), IntBytes(m, |ts|) + Flat(ss[..i]), out, status)
      {
        ghost var o, s := out, status;
        DumpString(ts[i]);
        NextWritten(old(out), old(status), IntBytes(m, |ts|), ss, i, o, s, out, status);
      }
      AllWritten(IntBytes(m, |ts|), ss);
    }

    /** luaU_dump. */
    method Dump(f: Proto)
      requires Small(m, f) && out == [] && status == 0
      requires Valid()
      modifies this
      ensures Valid()
      ensures out <= ChunkBytes(m, f, strip) && (status == 0 ==> out == ChunkBytes(m, f, strip))
    {
      hide Told, FunctionBytes, Small;
      DumpBlock(HeaderBytes(m));
      ghost var o, s := out, status;
      DumpFunction(f, NoText);
      WroteThen([], 0, HeaderBytes(m), o, s, FunctionBytes(m, f, NoText, strip), out, status);
    }
  }

  lemma NoneWritten(h: seq<byte>, ss: seq<seq<byte>>)
    ensures h + Flat(ss[..0]) == h
  {
  }

  lemma AllWritten(h: seq<byte>, ss: seq<seq<byte>>)
    ensures h + Flat(ss[..|ss|]) == h + Flat(ss)
  {
    assert ss[..|ss|] == ss;
  }

  lemma NextWritten(out0: seq<byte>, st0: int, h: seq<byte>, ss: seq<seq<byte>>, i: nat, out1: seq<byte>, st1: int,
        out: seq<byte>, st: int)
    requires i < |ss| && Wrote(out0, st0, h + Flat(ss[..i]), out1, st1) && Wrote(out1, st1, ss[i], out, st)
    ensures Wrote(out0, st0, h + Flat(ss[..i + 1]), out, st)
  {
    WroteThen(out0, st0, h + Flat(ss[..i]), out1, st1, ss[i], out, st);
    FlatMore(ss, i);
    assert h + Flat(ss[..i + 1]) == h + Flat(ss[..i]) + ss[i];
  }

  lemma SmallFunction(m: Host, f: Proto)
    requires Small(m, f)
    ensures |f.k| < 0x8000_0000 && |f.p| < 0x8000_0000 && forall i :: 0 <= i < |f.p| ==> Small(m, f.p[i])
  {
  }

  lemma NoDebug(m: Host)
    ensures VectorBytes(m,
          []) + (IntBytes(m, 0) + Flat(LocVarsBytes(m, []))) + (IntBytes(m, 0) + Flat(TextsBytes(m, [])))
            == IntBytes(m, 0) + IntBytes(m, 0) + IntBytes(m, 0)
  {
    assert WordsBytes(m, []) == [] && LocVarsBytes(m, []) == [] && TextsBytes(m, []) == [];
  }
}
