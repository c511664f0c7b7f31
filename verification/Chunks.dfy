/** Precompiled chunks: the bytes a function is dumped to, and what bytes load as
    (src/c/lua/ldump.c, src/c/lua/lundump.c). */
module Chunks {

  type byte = b: int | 0 <= b < 256
  type word = w: int | 0 <= w < 0x1_0000_0000
  type int31 = i: int | 0 <= i < 0x8000_0000

  /** The order of bytes in a number, and the size of a size_t. */
  datatype Host = Host(little: bool, sizeT: byte)

  /** A string, or none. */
  datatype Text = NoText | Text(bytes: seq<byte>)

  /** Numbers are their eight bytes in memory. */
  datatype Constant = NilConst | BoolConst(b: bool) | NumConst(image: seq<byte>) | TextConst(s: Text)

  datatype LocVar = LocVar(name: Text, startpc: int31, endpc: int31)

  datatype Proto = Proto(source: Text, linedefined: int31, lastlinedefined: int31,
                         nups: byte, numparams: byte, isVararg: byte, maxstacksize: byte,
                         code: seq<word>, k: seq<Constant>, p: seq<Proto>,
                         lineinfo: seq<word>, locvars: seq<LocVar>, upvalues: seq<Text>)

  // ----- Numbers as bytes -----

  /** 256 to the power n. */
  function Limit(n: nat): (l: nat)
    ensures l > 0
  {
    if n == 0 then 1 else 256 * Limit(n - 1)
  }

  function Digits(x: nat, n: nat): (d: seq<byte>)
    ensures |d| == n
  {
    if n == 0 then [] else [x % 256] + Digits(x / 256, n - 1)
  }

  function Worth(d: seq<byte>): (x: nat)
    ensures x < Limit(|d|)
  {
    if d == [] then 0 else d[0] + 256 * Worth(d[1..])
  }

  lemma {:induction false} DigitsWorth(x: nat, n: nat)
    requires x < Limit(n)
    ensures Worth(Digits(x, n)) == x
    decreases n
  {
    if n > 0 {
      DigitsWorth(x / 256, n - 1);
      assert Digits(x, n)[1..] == Digits(x / 256, n - 1);
    }
  }

  function Reversed(d: seq<byte>): (r: seq<byte>)
    ensures |r| == |d| && forall i :: 0 <= i < |d| ==> r[i] == d[|d| - 1 - i]
  {
    if d == [] then [] else Reversed(d[1..]) + [d[0]]
  }

  /** A number of n bytes in memory. */
  function Field(m: Host, x: nat, n: nat): (d: seq<byte>)
    ensures |d| == n
  {
    if m.little then Digits(x, n) else Reversed(Digits(x, n))
  }

  function FieldWorth(m: Host, d: seq<byte>): (x: nat)
    ensures x < Limit(|d|)
  {
    Worth(if m.little then d else Reversed(d))
  }

  lemma FieldReads(m: Host, x: nat, n: nat)
    requires x < Limit(n)
    ensures FieldWorth(m, Field(m, x, n)) == x
  {
    DigitsWorth(x, n);
    assert Reversed(Reversed(Digits(x, n))) == Digits(x, n);
  }

  lemma FourBytes()
    ensures Limit(4) == 0x1_0000_0000
  {
    assert Limit(1) == 256 && Limit(2) == 0x1_0000 && Limit(3) == 0x100_0000;
  }

  // ----- Dumping -----

  /** Strings of bytes one after another. */
  function Flat(ss: seq<seq<byte>>): seq<byte> {
    if ss == [] then [] else ss[0] + Flat(ss[1..])
  }

  lemma {:induction false} FlatMore(ss: seq<seq<byte>>, i: nat)
    requires i < |ss|
    ensures Flat(ss[..i + 1]) == Flat(ss[..i]) + ss[i]
    decreases i
  {
    if i == 0 {
      assert ss[..1] == [ss[0]] && ss[..0] == [] && ss[..1][1..] == [];
    } else {
      FlatMore(ss[1..], i - 1);
      assert ss[..i + 1][1..] == ss[1..][..i] && ss[..i][1..] == ss[1..][..i - 1];
    }
  }

  function IntBytes(m: Host, x: word): (b: seq<byte>)
    ensures |b| == 4
  {
    Field(m, x, 4)
  }

  function WordsBytes(m: Host, ws: seq<word>): (b: seq<byte>)
    ensures |b| == 4 * |ws|
  {
    if ws == [] then [] else IntBytes(m, ws[0]) + WordsBytes(m, ws[1..])
  }

  function VectorBytes(m: Host, ws: seq<word>): seq<byte>
    requires |ws| < 0x8000_0000
  {
    IntBytes(m, |ws|) + WordsBytes(m, ws)
  }

  function TextBytes(m: Host, s: Text): seq<byte> {
    if s.NoText? then Field(m, 0, m.sizeT) else Field(m, |s.bytes| + 1, m.sizeT) + (s.bytes + [0])
  }

  function ConstantBytes(m: Host, c: Constant): seq<byte> {
    match c
    case NilConst => [0]
    case BoolConst(b) => [1] + [if b then 1 else 0]
    case NumConst(image) => [3] + image
    case TextConst(s) => [4] + TextBytes(m, s)
  }

  function LocVarBytes(m: Host, v: LocVar): seq<byte> {
    TextBytes(m, v.name) + IntBytes(m, v.startpc) + IntBytes(m, v.endpc)
  }

  function ConstantsBytes(m: Host, ks: seq<Constant>): (ss: seq<seq<byte>>)
    ensures |ss| == |ks| && forall i :: 0 <= i < |ks| ==> ss[i] == ConstantBytes(m, ks[i])
  {
    seq(|ks|, i requires 0 <= i < |ks| => ConstantBytes(m, ks[i]))
  }

  function LocVarsBytes(m: Host, vs: seq<LocVar>): (ss: seq<seq<byte>>)
    ensures |ss| == |vs| && forall i :: 0 <= i < |vs| ==> ss[i] == LocVarBytes(m, vs[i])
  {
    seq(|vs|, i requires 0 <= i < |vs| => LocVarBytes(m, vs[i]))
  }

  function TextsBytes(m: Host, ts: seq<Text>): (ss: seq<seq<byte>>)
    ensures |ss| == |ts| && forall i :: 0 <= i < |ts| ==> ss[i] == TextBytes(m, ts[i])
  {
    seq(|ts|, i requires 0 <= i < |ts| => TextBytes(m, ts[i]))
  }

  /** The vectors of a function, and all strings and functions in it, are small enough. */
  predicate Small(m: Host, f: Proto) {
    && TextFits(m, f.source) && |f.code| < 0x8000_0000 && |f.lineinfo| < 0x8000_0000
    && |f.k| < 0x8000_0000 && |f.p| < 0x8000_0000 && |f.locvars| < 0x8000_0000 && |f.upvalues| < 0x8000_0000
    && (forall i :: 0 <= i < |f.k| ==> ConstantFits(m, f.k[i]))
    && (forall i :: 0 <= i < |f.locvars| ==> TextFits(m, f.locvars[i].name))
    && (forall i :: 0 <= i < |f.upvalues| ==> TextFits(m, f.upvalues[i]))
    && (forall i :: 0 <= i < |f.p| ==> Small(m, f.p[i]))
  }

  predicate TextFits(m: Host, s: Text) {
    s.Text? ==> |s.bytes| + 1 < Limit(m.sizeT)
  }

  predicate ConstantFits(m: Host, c: Constant) {
    (c.NumConst? ==> |c.image| == 8) && (c.TextConst? ==> TextFits(m, c.s))
  }

  /** A source is left out if it is the parent's. */
  function DumpedSource(f: Proto, parent: Text, strip: bool): Text {
    if f.source == parent || strip then NoText else f.source
  }

  function DebugBytes(m: Host, f: Proto, strip: bool): seq<byte>
    requires Small(m, f)
  {
    if strip then IntBytes(m, 0) + IntBytes(m, 0) + IntBytes(m, 0)
    else VectorBytes(m, f.lineinfo) + (IntBytes(m, |f.locvars|) + Flat(LocVarsBytes(m, f.locvars)))
         + (IntBytes(m, |f.upvalues|) + Flat(TextsBytes(m, f.upvalues)))
  }

  /** The part of a function before its constants. */
  function HeadBytes(m: Host, f: Proto, parent: Text, strip: bool): seq<byte>
    requires Small(m, f)
  {
    TextBytes(m, DumpedSource(f, parent, strip)) + IntBytes(m, f.linedefined) + IntBytes(m, f.lastlinedefined)
    + [f.nups, f.numparams, f.isVararg, f.maxstacksize] + VectorBytes(m, f.code)
  }

  function FunctionBytes(m: Host, f: Proto, parent: Text, strip: bool): seq<byte>
    requires Small(m, f)
    decreases f, 1
  {
    HeadBytes(m, f, parent, strip)
    + (IntBytes(m, |f.k|) + Flat(ConstantsBytes(m, f.k)))
    + (IntBytes(m, |f.p|) + Flat(ChildrenBytes(m, f, strip)))
    + DebugBytes(m, f, strip)
  }

  function ChildrenBytes(m: Host, f: Proto, strip: bool): (ss: seq<seq<byte>>)
    requires Small(m, f)
    ensures |ss| == |f.p| && forall i :: 0 <= i < |f.p| ==> ss[i] == FunctionBytes(m, f.p[i], f.source, strip)
    decreases f, 0
  {
    seq(|f.p|, i requires 0 <= i < |f.p| => FunctionBytes(m, f.p[i], f.source, strip))
  }

  /** Signature, version 5.1, official format, byte order, sizes of int, size_t, instruction
      and number, and that numbers are not integers. */
  function HeaderBytes(m: Host): seq<byte> {
    [27, 76, 117, 97, 0x51, 0, if m.little then 1 else 0, 4, m.sizeT, 4, 8, 0]
  }

  function ChunkBytes(m: Host, f: Proto, strip: bool): seq<byte>
    requires Small(m, f)
  {
    HeaderBytes(m) + FunctionBytes(m, f, NoText, strip)
  }

  // ----- The format, byte by byte -----

  /** A number in memory has its lowest byte first on a little-endian host and last on others. */
  lemma FieldOrder(m: Host, x: nat, n: nat)
    requires n > 0
    ensures Field(m, x, n) == if m.little then [x % 256] + Field(m, x / 256, n - 1)
                              else Field(m, x / 256, n - 1) + [x % 256]
  {
    assert Digits(x, n)[1..] == Digits(x / 256, n - 1);
  }

  /** The fields of the header at their places: the signature, version 5.1 in two hexadecimal
      digits, the official format, the first byte of the int 1 in memory, and the sizes of an
      int, a size_t, an instruction and a number, which is no integer. */
  lemma HeaderFields(m: Host)
    ensures var h := HeaderBytes(m);
            && |h| == 12 && h[..4] == [0x1b, 'L' as int, 'u' as int, 'a' as int] && h[4] == 16 * 5 + 1 && h[5] == 0
            && h[6] == IntBytes(m, 1)[0] && h[7] == |IntBytes(m, 0)| && h[8] == |Field(m, 0, m.sizeT)|
            && h[9] == |WordsBytes(m, [0])| && h[10] == 8 && h[11] == 0
  {
    FieldOrder(m, 1, 4);
    if !m.little {
      FieldOrder(m, 0, 3);
      FieldOrder(m, 0, 2);
      FieldOrder(m, 0, 1);
    }
  }

  /** The tag of a constant is its Lua type: nil 0, boolean 1, number 3, string 4. */
  lemma ConstantTag(m: Host, c: Constant)
    ensures ConstantBytes(m, c)[0] == match c case NilConst => 0 case BoolConst(_) => 1 case NumConst(_) => 3
          case TextConst(_) => 4
    ensures c.BoolConst? ==> ConstantBytes(m, c)[1..] == [if c.b then 1 else 0]
  {
  }

  // ----- Loading -----

  const MAX_CCALLS := 200

  datatype Flaw = UnexpectedEnd | BadHeader | BadInteger | BadConstant | BadCode | TooDeep

  /** What was read and the bytes after it, or an error. */
  datatype Read<+T> = Got(v: T, rest: seq<byte>) | Bad(why: Flaw) {
    predicate IsFailure() {
      Bad?
    }

    function PropagateFailure<U>(): Read<U>
      requires Bad?
    {
      Bad(why)
    }

    function Extract(): (T, seq<byte>)
      requires Got?
    {
      (v, rest)
    }
  }

  function Block(s: seq<byte>, n: nat): Read<seq<byte>> {
    if |s| < n then Bad(UnexpectedEnd) else Got(s[..n], s[n..])
  }

  function Char(s: seq<byte>): Read<byte> {
    if s == [] then Bad(UnexpectedEnd) else Got(s[0], s[1..])
  }

  /** An int, which must not be negative. */
  function Int(m: Host, s: seq<byte>): Read<int31> {
    var b :- Block(s, 4);
    if FieldWorth(m, b.0) >= 0x8000_0000 then Bad(BadInteger) else Got(FieldWorth(m, b.0), b.1)
  }

  function ReadText(m: Host, s: seq<byte>): Read<Text> {
    var size :- Block(s, m.sizeT);
    var n := FieldWorth(m, size.0);
    if n == 0 then Got(NoText, size.1)
    else
      var b :- Block(size.1, n);
      Got(Text(b.0[..n - 1]), b.1)
  }

  /** Four bytes each. */
  function Words(m: Host, b: seq<byte>): (ws: seq<word>) {
    if |b| < 4 then []
    else
      FourBytes();
      [FieldWorth(m, b[..4])] + Words(m, b[4..])
  }

  function Vector(m: Host, s: seq<byte>): Read<seq<word>> {
    var n :- Int(m, s);
    var b :- Block(n.1, 4 * n.0);
    Got(Words(m, b.0), b.1)
  }

  function ReadConstant(m: Host, s: seq<byte>): Read<Constant> {
    var t :- Char(s);
    if t.0 == 0 then Got(NilConst, t.1)
    else if t.0 == 1 then
      var c :- Char(t.1);
      Got(BoolConst(c.0 != 0), c.1)
    else if t.0 == 3 then
      var b :- Block(t.1, 8);
      Got(NumConst(b.0), b.1)
    else if t.0 == 4 then
      var x :- ReadText(m, t.1);
      Got(TextConst(x.0), x.1)
    else Bad(BadConstant)
  }

  function ReadLocVar(m: Host, s: seq<byte>): Read<LocVar> {
    var name :- ReadText(m, s);
    var a :- Int(m, name.1);
    var b :- Int(m, a.1);
    Got(LocVar(name.0, a.0, b.0), b.1)
  }

  function Joined<T>(xs: seq<T>, r: Read<seq<T>>): Read<seq<T>> {
    match r
    case Got(v, rest) => Got(xs + v, rest)
    case Bad(why) => Bad(why)
  }

  /** n items, one after another. */
  function Many<T>(item: seq<byte> -> Read<T>, n: nat, s: seq<byte>): Read<seq<T>> {
    if n == 0 then Got([], s)
    else
      var x :- item(s);
      Joined([x.0], Many(item, n - 1, x.1))
  }

  function Counted<T>(m: Host, item: seq<byte> -> Read<T>, s: seq<byte>): Read<seq<T>> {
    var n :- Int(m, s);
    Many(item, n.0, n.1)
  }

  function ConstantItem(m: Host): seq<byte> -> Read<Constant> {
    s => ReadConstant(m, s)
  }

  function LocVarItem(m: Host): seq<byte> -> Read<LocVar> {
    s => ReadLocVar(m, s)
  }

  function TextItem(m: Host): seq<byte> -> Read<Text> {
    s => ReadText(m, s)
  }

  function Inherited(source: Text, parent: Text): Text {
    if source == NoText then parent else source
  }

  /** The fields before the constants, the others empty. */
  function ReadHead(m: Host, parent: Text, s: seq<byte>): Read<Proto> {
    var source :- ReadText(m, s);
    var a :- Int(m, source.1);
    var b :- Int(m, a.1);
    var c :- Block(b.1, 4);
    var code :- Vector(m, c.1);
    Got(Proto(Inherited(source.0, parent), a.0, b.0, c.0[0], c.0[1], c.0[2], c.0[3], code.0, [], [], [], [], []),
          code.1)
  }

  datatype Debug = Debug(lineinfo: seq<word>, locvars: seq<LocVar>, upvalues: seq<Text>)

  function ReadDebug(m: Host, s: seq<byte>): Read<Debug> {
    var lines :- Vector(m, s);
    var vars :- Counted(m, LocVarItem(m), lines.1);
    var ups :- Counted(m, TextItem(m), vars.1);
    Got(Debug(lines.0, vars.0, ups.0), ups.1)
  }

  function Filled(f: Proto, k: seq<Constant>, p: seq<Proto>, d: Debug): Proto {
    f.(k := k, p := p, lineinfo := d.lineinfo, locvars := d.locvars, upvalues := d.upvalues)
  }

  /** A function whose code passes the check, at most 200 deep; depth C calls are active. */
  function ReadFunction(m: Host, check: Proto -> bool, parent: Text, depth: nat, s: seq<byte>): Read<Proto>
    decreases MAX_CCALLS - depth, 1
  {
    if depth + 1 > MAX_CCALLS then Bad(TooDeep)
    else
      var h :- ReadHead(m, parent, s);
      var k :- Counted(m, ConstantItem(m), h.1);
      var p :- Counted(m, FunctionItem(m, check, h.0.source, depth + 1), k.1);
      var d :- ReadDebug(m, p.1);
      var f := Filled(h.0, k.0, p.0, d.0);
      if check(f) then Got(f, d.1) else Bad(BadCode)
  }

  function FunctionItem(m: Host, check: Proto -> bool, parent: Text, depth: nat): seq<byte> -> Read<Proto>
    decreases MAX_CCALLS - depth, 2
  {
    s => ReadFunction(m, check, parent, depth, s)
  }

  const UNKNOWN: Text := Text([61, 63])

  function ReadChunk(m: Host, check: Proto -> bool, depth: nat, s: seq<byte>): Read<Proto> {
    var h :- Block(s, 12);
    if h.0 != HeaderBytes(m) then Bad(BadHeader) else ReadFunction(m, check, UNKNOWN, depth, h.1)
  }

  /** A chunk of a host with another byte order or size of strings is refused. */
  lemma ForeignRefused(m: Host, n: Host, check: Proto -> bool, depth: nat, f: Proto, strip: bool)
    requires m != n && Small(m, f)
    ensures ReadChunk(n, check, depth, ChunkBytes(m, f, strip)) == Bad(BadHeader)
  {
    hide FunctionBytes, ReadFunction, Small;
    var h, s := HeaderBytes(m), ChunkBytes(m, f, strip);
    assert s[..12] == h;
    assert h[6] != HeaderBytes(n)[6] || h[8] != HeaderBytes(n)[8];
  }
}
