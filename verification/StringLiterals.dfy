/** What the parts of a string literal mean (section 2.1 of the Lua 5.1 manual), apart from how
    the lexer reads them. */
module StringLiterals {
  import opened Quoting

  /** A byte as it is; after a backslash the i-th control letter, a number in one to three
      digits, a line break, or any other byte. */
  datatype Part = Raw(b: byte) | Letter(i: nat) | Code(n: byte, width: nat) | Break(text: seq<byte>) | Self(b: byte)

  /** The letters of bell, backspace, form feed, newline, carriage return, horizontal tab and
      vertical tab. */
  const LETTERS := ['a', 'b', 'f', 'n', 'r', 't', 'v']
  const CONTROLS: seq<byte> := [7, 8, 12, 10, 13, 9, 11]

  function LetterByte(i: nat): byte
    requires i < 7
  {
    LETTERS[i] as int
  }

  predicate IsNumeral(b: byte) {
    '0' as int <= b <= '9' as int
  }

  predicate PartOk(x: Part, del: byte) {
    match x
    case Raw(b) => b != del && b != BACKSLASH && !IsNewline(b)
    case Letter(i) => i < 7
    case Code(n, w) => (w == 1 && n < 10) || (w == 2 && n < 100) || w == 3
    case Break(t) => t == [NEWLINE] || t == [RETURN] || t == [NEWLINE, RETURN] || t == [RETURN, NEWLINE]
    case Self(b) => !IsNewline(b) && !IsNumeral(b) && forall i :: 0 <= i < 7 ==> b != LetterByte(i)
  }

  function PartText(x: Part, del: byte): seq<byte>
    requires PartOk(x, del)
  {
    match x
    case Raw(b) => [b]
    case Letter(i) => [BACKSLASH, LetterByte(i)]
    case Code(n, w) =>
      if w == 1 then [BACKSLASH, ZERO + n]
      else if w == 2 then [BACKSLASH, ZERO + n / 10, ZERO + n % 10]
      else [BACKSLASH, ZERO + n / 100, ZERO + n / 10 % 10, ZERO + n % 10]
    case Break(t) => [BACKSLASH] + t
    case Self(b) => [BACKSLASH, b]
  }

  /** The byte a part stands for. */
  function Meaning(x: Part, del: byte): byte
    requires PartOk(x, del)
  {
    match x
    case Raw(b) => b
    case Letter(i) => CONTROLS[i]
    case Code(n, _) => n
    case Break(_) => NEWLINE
    case Self(b) => b
  }

  /** A number of fewer than three digits is not followed by a digit. */
  predicate PartsOk(xs: seq<Part>, del: byte) {
    && !IsNumeral(del) && !IsNewline(del) && del != BACKSLASH
    && (forall i :: 0 <= i < |xs| ==> PartOk(xs[i], del))
    && (forall i :: 0 <= i < |xs| - 1 && xs[i].Code? && xs[i].width < 3 ==>
          !(xs[i + 1].Raw? && IsNumeral(xs[i + 1].b)))
  }

  function LiteralText(xs: seq<Part>, del: byte): seq<byte>
    requires forall i :: 0 <= i < |xs| ==> PartOk(xs[i], del)
  {
    if xs == [] then [del] else PartText(xs[0], del) + LiteralText(xs[1..], del)
  }

  function Value(xs: seq<Part>, del: byte): seq<byte>
    requires forall i :: 0 <= i < |xs| ==> PartOk(xs[i], del)
  {
    if xs == [] then [] else [Meaning(xs[0], del)] + Value(xs[1..], del)
  }

  function Breaks(xs: seq<Part>): nat {
    if xs == [] then 0 else (if xs[0].Break? then 1 else 0) + Breaks(xs[1..])
  }

  /** The lines of the chunk, of which there may be so many. */
  ghost predicate LinesFit(xs: seq<Part>, line: int) {
    Breaks(xs) == 0 || line + Breaks(xs) < MAX_INT
  }

  lemma TextStart(xs: seq<Part>, del: byte)
    requires PartsOk(xs, del)
    ensures var t := LiteralText(xs, del);
            t != [] && !IsNewline(t[0]) && (IsNumeral(t[0]) ==> xs != [] && xs[0].Raw? && IsNumeral(xs[0].b))
  {
  }

  lemma CodeReads(n: byte, w: nat, tail: seq<byte>)
    requires PartOk(Code(n, w), 34) && tail != [] && (w < 3 ==> !IsNumeral(tail[0]))
    ensures var t := PartText(Code(n, w), 34)[1..] + tail;
            Digits(t, 3) == w && Decimal(t[..w]) == n && t[w..] == tail && t != [] && IsDigit(t[0])
  {
    var t := PartText(Code(n, w), 34)[1..] + tail;
    assert t[w..] == tail;
    if w == 1 {
      assert Digits(t[1..], 2) == 0;
      assert Decimal(t[..1]) == 10 * Decimal(t[..1][..0]) + n;
    } else if w == 2 {
      assert t[1..][1..] == t[2..];
      assert Digits(t[2..], 1) == 0 && Digits(t[1..], 2) == 1;
      assert t[..2][..1] == t[..1] && t[..1][..0] == [];
      assert Decimal(t[..1]) == n / 10;
    } else {
      assert t[1..][1..] == t[2..] && t[2..][1..] == t[3..];
      assert Digits(t[3..], 0) == 0 && Digits(t[2..], 1) == 1 && Digits(t[1..], 2) == 2;
      assert t[..3][..2] == t[..2] && t[..2][..1] == t[..1] && t[..1][..0] == [];
      assert Decimal(t[..1]) == n / 100 && Decimal(t[..2]) == n / 10;
    }
  }

  /** The letters of control characters are read as these, and no other byte is one. */
  lemma ControlMeans(b: byte)
    ensures forall i :: 0 <= i < 7 && b == LetterByte(i) ==> Control(b) == CONTROLS[i]
    ensures (forall i :: 0 <= i < 7 ==> b != LetterByte(i)) ==> Control(b) == EOZ
  {
    assert LetterByte(0) == 97 && LetterByte(1) == 98 && LetterByte(2) == 102 && LetterByte(3) == 110
        && LetterByte(4) == 114 && LetterByte(5) == 116 && LetterByte(6) == 118;
  }

  /** A byte after a backslash that stands for one byte. */
  lemma EscapeReads(b: byte, c: byte, s: seq<byte>, del: byte, tail: seq<byte>, line: int)
    requires s == [BACKSLASH, b] + tail && del != BACKSLASH
    requires (exists i :: 0 <= i < 7 && b == LetterByte(i) && c == CONTROLS[i])
          || (b == c && !IsNewline(b) && !IsNumeral(b) && forall i :: 0 <= i < 7 ==> b != LetterByte(i))
    ensures Read(s, del, line) == Prefixed([c], Read(tail, del, line))
  {
    assert s[1..] == [b] + tail && s[1..][1..] == tail;
    ControlMeans(b);
    assert Read(s, del, line) == ReadEscape(s[1..], del, line);
  }

  /** One part is read as what it means. */
  lemma PartReads(x: Part, del: byte, tail: seq<byte>, line: int)
    requires PartOk(x, del) && !IsNumeral(del) && !IsNewline(del) && del != BACKSLASH
    requires tail != [] && !IsNewline(tail[0]) && (x.Code? && x.width < 3 ==> !IsNumeral(tail[0]))
    ensures Read(PartText(x, del) + tail, del, line)
            == if x.Break? && line + 1 >= MAX_INT then Failed(TooManyLines)
               else Prefixed([Meaning(x, del)], Read(tail, del, if x.Break? then line + 1 else line))
  {
    var s := PartText(x, del) + tail;
    match x
    case Raw(b) => assert s[1..] == tail;
    case Letter(i) => EscapeReads(LetterByte(i), CONTROLS[i], s, del, tail, line);
    case Self(b) => EscapeReads(b, b, s, del, tail, line);
    case Code(n, w) =>
      CodeReads(n, w, tail);
      assert s[0] == BACKSLASH && s[1..] == PartText(x, 34)[1..] + tail;
    case Break(t) =>
      assert s[0] == BACKSLASH && s[1..] == t + tail && (t + tail)[|t|..] == tail;
  }

  lemma {:induction false} LiteralReads(xs: seq<Part>, del: byte, rest: seq<byte>, line: int)
    requires PartsOk(xs, del)
    ensures Read(LiteralText(xs, del) + rest, del, line)
            == if LinesFit(xs, line) then Literal(Value(xs, del), rest, line + Breaks(xs)) else Failed(TooManyLines)
    decreases |xs|
  {
    if xs == [] {
      assert ([del] + rest)[1..] == rest;
    } else {
      var ys := xs[1..];
      assert forall i :: 0 <= i < |ys| ==> ys[i] == xs[i + 1];
      var tail := LiteralText(ys, del) + rest;
      TextStart(ys, del);
      assert LiteralText(xs, del) + rest == PartText(xs[0], del) + tail;
      PartReads(xs[0], del, tail, line);
      LiteralReads(ys, del, rest, if xs[0].Break? then line + 1 else line);
    }
  }
}
