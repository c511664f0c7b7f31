/** Reading a stream that comes in pieces, and a precompiled chunk from it
    (src/c/lua/lzio.c, src/c/lua/lundump.c). */
module Undumping {
  import opened Chunks
  import ChunkRoundTrip

  /** What the reader still gives: it is not asked on after an empty piece. */
  function Pieces(chunks: seq<seq<byte>>): seq<byte> {
    if chunks == [] || chunks[0] == [] then [] else chunks[0] + Pieces(chunks[1..])
  }

  lemma {:induction false} NoneEmpty(chunks: seq<seq<byte>>)
    requires forall i :: 0 <= i < |chunks| ==> chunks[i] != []
    ensures Pieces(chunks) == Flat(chunks)
    decreases |chunks|
  {
    if chunks != [] { NoneEmpty(chunks[1..]); }
  }

  /** A buffered stream. */
  class Zio {
    var chunks: seq<seq<byte>>
    var p: seq<byte>

    constructor (chunks: seq<seq<byte>>)
      ensures Ahead() == Pieces(chunks)
    {
      this.chunks, p := chunks, [];
    }

    ghost function Ahead(): seq<byte>
      reads this
    {
      p + Pieces(chunks)
    }

    /** luaZ_fill, with the first byte of the new piece put back as luaZ_lookahead does. */
    method Fill() returns (more: bool)
      requires p == []
      modifies this
      ensures more == (old(Ahead()) != [])
      ensures more ==> p != [] && Ahead() == old(Ahead())
    {
      if chunks == [] { return false; }
      var buff := chunks[0];
      chunks := chunks[1..];
      if buff == [] { return false; }
      p := buff;
      more := true;
    }

    method Lookahead() returns (more: bool)
      modifies this
      ensures more == (old(Ahead()) != [])
      ensures more ==> p != [] && Ahead() == old(Ahead())
    {
      more := true;
      if p == [] { more := Fill(); }
    }

    /** luaZ_read: n bytes, or how many are missing. */
    method Read(n: nat) returns (b: seq<byte>, missing: nat)
      modifies this
      ensures missing == if n <= |old(Ahead())| then 0 else n - |old(Ahead())|
      ensures missing == 0 ==> old(Ahead()) == b + Ahead() && |b| == n
    {
      b, missing := [], n;
      while missing > 0
        invariant |b| + missing == n && old(Ahead()) == b + Ahead()
        decreases missing
      {
        var more := Lookahead();
        if !more {
          assert |old(Ahead())| == |b|;
          return;
        }
        var m := if missing <= |p| then missing else |p|;
        assert Ahead() == p[..m] + (p[m..] + Pieces(chunks));
        b, p, missing := b + p[..m], p[m..], missing - m;
      }
    }
  }

  /** The result of a function that may raise an error. */
  datatype Loaded<+T> = Value(v: T) | Error(why: Flaw) {
    predicate IsFailure() {
      Error?
    }

    function PropagateFailure<U>(): Loaded<U>
      requires Error?
    {
      Error(why)
    }

    function Extract(): T
      requires Value?
    {
      v
    }
  }

  /** The method did what the specification says. */
  ghost predicate Agrees<T>(spec: Chunks.Read<T>, r: Loaded<T>, ahead: seq<byte>) {
    match spec
    case Got(v, rest) => r == Value(v) && ahead == rest
    case Bad(why) => r == Error(why)
  }

  class LoadState {
    const m: Host
    const check: Proto -> bool
    const z: Zio
    var nCcalls: nat

    constructor (m: Host, check: Proto -> bool, z: Zio, nCcalls: nat)
      ensures this.m == m && this.check == check && this.z == z && this.nCcalls == nCcalls
    {
      this.m, this.check, this.z, this.nCcalls := m, check, z, nCcalls;
    }

    method LoadBlock(n: nat) returns (r: Loaded<seq<byte>>)
      modifies z
      ensures Agrees(Block(old(z.Ahead()), n), r, z.Ahead())
    {
      var b, missing := z.Read(n);
      r := if missing != 0 then Error(UnexpectedEnd) else Value(b);
    }

    method LoadChar() returns (r: Loaded<byte>)
      modifies z
      ensures Agrees(Char(old(z.Ahead())), r, z.Ahead())
    {
      var b :- LoadBlock(1);
      r := Value(b[0]);
    }

    method LoadInt() returns (r: Loaded<int31>)
      modifies z
      ensures Agrees(Int(m, old(z.Ahead())), r, z.Ahead())
    {
      var b :- LoadBlock(4);
      var x := FieldWorth(m, b);
      if x >= 0x8000_0000 { return Error(BadInteger); }
      r := Value(x);
    }

    method LoadString() returns (r: Loaded<Text>)
      modifies z
      ensures Agrees(ReadText(m, old(z.Ahead())), r, z.Ahead())
    {
      var size :- LoadBlock(m.sizeT);
      var n := FieldWorth(m, size);
      if n == 0 { return Value(NoText); }
      var s :- LoadBlock(n);
      r := Value(Text(s[..n - 1]));
    }

    method LoadVector() returns (r: Loaded<seq<word>>)
      modifies z
      ensures Agrees(Vector(m, old(z.Ahead())), r, z.Ahead())
    {
      hide Words, Int, FieldWorth;
      var n :- LoadInt();
      var count: nat := n;
      var b :- LoadBlock(4 * count);
      r := Value(Words(m, b));
    }

    method LoadConstant() returns (r: Loaded<Constant>)
      modifies z
      ensures Agrees(ReadConstant(m, old(z.Ahead())), r, z.Ahead())
    {
      hide ReadText, Char, Block;
      var t :- LoadChar();
      if t == 0 {
        r := Value(NilConst);
      } else if t == 1 {
        var c :- LoadChar();
        r := Value(BoolConst(c != 0));
      } else if t == 3 {
        var b :- LoadBlock(8);
        r := Value(NumConst(b));
      } else if t == 4 {
        var s :- LoadString();
        r := Value(TextConst(s));
      } else {
        r := Error(BadConstant);
      }
    }

    method LoadConstants() returns (r: Loaded<seq<Constant>>)
      modifies z
      ensures Agrees(Counted(m, ConstantItem(m), old(z.Ahead())), r, z.Ahead())
    {
      hide Int, ReadConstant;
      var n :- LoadInt();
      ghost var s0 := z.Ahead();
      var ks: seq<Constant> := [];
      JoinedNone(Many(ConstantItem(m), n, s0));
      for i := 0 to n
        invariant |ks| == i && Many(ConstantItem(m), n, s0) == Joined(ks, Many(ConstantItem(m), n - i, z.Ahead()))
      {
        var k :- LoadConstant();
        JoinedNext(ks, k, Many(ConstantItem(m), n - i - 1, z.Ahead()));
        ks := ks + [k];
      }
      assert ks + [] == ks;
      r := Value(ks);
    }

    method LoadLocVars() returns (r: Loaded<seq<LocVar>>)
      modifies z
      ensures Agrees(Counted(m, LocVarItem(m), old(z.Ahead())), r, z.Ahead())
    {
      hide Int, ReadLocVar;
      var n :- LoadInt();
      ghost var s0 := z.Ahead();
      var vs: seq<LocVar> := [];
      JoinedNone(Many(LocVarItem(m), n, s0));
      for i := 0 to n
        invariant |vs| == i && Many(LocVarItem(m), n, s0) == Joined(vs, Many(LocVarItem(m), n - i, z.Ahead()))
      {
        var v :- LoadLocVar();
        JoinedNext(vs, v, Many(LocVarItem(m), n - i - 1, z.Ahead()));
        vs := vs + [v];
      }
      assert vs + [] == vs;
      r := Value(vs);
    }

    method LoadLocVar() returns (r: Loaded<LocVar>)
      modifies z
      ensures Agrees(ReadLocVar(m, old(z.Ahead())), r, z.Ahead())
    {
      hide Int, ReadText;
      var name :- LoadString();
      var a :- LoadInt();
      var b :- LoadInt();
      r := Value(LocVar(name, a, b));
    }

    method LoadUpvalueNames() returns (r: Loaded<seq<Text>>)
      modifies z
      ensures Agrees(Counted(m, TextItem(m), old(z.Ahead())), r, z.Ahead())
    {
      hide Int, ReadText;
      var n :- LoadInt();
      ghost var s0 := z.Ahead();
      var ts: seq<Text> := [];
      JoinedNone(Many(TextItem(m), n, s0));
      for i := 0 to n
        invariant |ts| == i && Many(TextItem(m), n, s0) == Joined(ts, Many(TextItem(m), n - i, z.Ahead()))
      {
        var t :- LoadString();
        JoinedNext(ts, t, Many(TextItem(m), n - i - 1, z.Ahead()));
        ts := ts + [t];
      }
      assert ts + [] == ts;
      r := Value(ts);
    }

    method LoadDebug() returns (r: Loaded<Debug>)
      modifies z
      ensures Agrees(ReadDebug(m, old(z.Ahead())), r, z.Ahead())
    {
      hide Vector, Counted;
      var lines :- LoadVector();
      var vars :- LoadLocVars();
      var ups :- LoadUpvalueNames();
      r := Value(Debug(lines, vars, ups));
    }

    method LoadHead(parent: Text) returns (r: Loaded<Proto>)
      modifies z
      ensures Agrees(ReadHead(m, parent, old(z.Ahead())), r, z.Ahead())
    {
      hide ReadText, Int, Vector;
      var source :- LoadString();
      if source == NoText {
        source := parent;
      }
      var a :- LoadInt();
      var b :- LoadInt();
      var c :- LoadBlock(4);
      var code :- LoadVector();
      r := Value(Proto(source, a, b, c[0], c[1], c[2], c[3], code, [], [], [], [], []));
    }

    /** The count of C calls is what it was, unless an error is raised. */
    method LoadFunction(parent: Text) returns (r: Loaded<Proto>)
      modifies this, z
      ensures Agrees(ReadFunction(m, check, parent, old(nCcalls), old(z.Ahead())), r, z.Ahead())
      ensures r.Value? ==> nCcalls == old(nCcalls)
      decreases MAX_CCALLS - nCcalls, 1
    {
      hide ReadHead, Counted, ReadDebug;
      nCcalls := nCcalls + 1;
      if nCcalls > MAX_CCALLS { return Error(TooDeep); }
      var h :- LoadHead(parent);
      var k :- LoadConstants();
      var p :- LoadFunctions(h.source);
      var d :- LoadDebug();
      var f := Filled(h, k, p, d);
      if !check(f) { return Error(BadCode); }
      nCcalls := nCcalls - 1;
      r := Value(f);
    }

    /** The functions inside one with this source. */
    method LoadFunctions(source: Text) returns (r: Loaded<seq<Proto>>)
      modifies this, z
      ensures Agrees(Counted(m, FunctionItem(m, check, source, old(nCcalls)), old(z.Ahead())), r, z.Ahead())
      ensures r.Value? ==> nCcalls == old(nCcalls)
      decreases MAX_CCALLS - nCcalls, 2
    {
      hide Int, ReadFunction;
      ghost var item := FunctionItem(m, check, source, nCcalls);
      var n :- LoadInt();
      ghost var s0 := z.Ahead();
      var ps: seq<Proto> := [];
      JoinedNone(Many(item, n, s0));
      for i := 0 to n
        invariant nCcalls == old(nCcalls)
        invariant |ps| == i && Many(item, n, s0) == Joined(ps, Many(item, n - i, z.Ahead()))
      {
        var f :- LoadFunction(source);
        JoinedNext(ps, f, Many(item, n - i - 1, z.Ahead()));
        ps := ps + [f];
      }
      assert ps + [] == ps;
      r := Value(ps);
    }

    /** luaU_undump. */
    method Undump() returns (r: Loaded<Proto>)
      modifies this, z
      ensures Agrees(ReadChunk(m, check, old(nCcalls), old(z.Ahead())), r, z.Ahead())
      ensures r.Value? ==> nCcalls == old(nCcalls)
    {
      hide ReadFunction;
      var h :- LoadBlock(12);
      if h != HeaderBytes(m) { return Error(BadHeader); }
      r := LoadFunction(UNKNOWN);
    }
  }

  lemma JoinedNone<T>(r: Chunks.Read<seq<T>>)
    ensures Joined([], r) == r
  {
    if r.Got? { assert [] + r.v == r.v; }
  }

  lemma JoinedNext<T>(xs: seq<T>, x: T, r: Chunks.Read<seq<T>>)
    ensures Joined(xs, Joined([x], r)) == Joined(xs + [x], r)
  {
    if r.Got? { assert xs + ([x] + r.v) == xs + [x] + r.v; }
  }

  /** Dumping and loading again, the bytes coming in any pieces: what comes back is what is
      left of the function, if that is accepted. */
  method DumpAndLoad(m: Host, f: Proto, strip: bool, check: Proto -> bool, depth: nat, chunks: seq<seq<byte>>)
    returns (r: Loaded<Proto>)
    requires Small(m, f) && (forall i :: 0 <= i < |chunks| ==> chunks[i] != [])
          && Flat(chunks) == ChunkBytes(m, f, strip)
    ensures var g := ChunkRoundTrip.Restored(f, NoText, UNKNOWN, strip);
            if ChunkRoundTrip.Accepted(check, g, depth) then r == Value(g) else r.Error?
  {
    NoneEmpty(chunks);
    var z := new Zio(chunks);
    var s := new LoadState(m, check, z, depth);
    ChunkRoundTrip.ChunkReads(m, check, f, strip, depth, []);
    assert ChunkBytes(m, f, strip) + [] == ChunkBytes(m, f, strip);
    r := s.Undump();
  }
}
