/** string.format("%q") and the lexer that reads its output back
    (src/c/lua/lstrlib.c, src/c/lua/llex.c). */
module Quoting {

  type byte = b: int | 0 <= b < 256

  const QUOTE: byte := 34
  const BACKSLASH: byte := 92
  const NEWLINE: byte := 10
  const RETURN: byte := 13
  const ZERO: byte := 48

  /** Not a byte: the end of the input. */
  const EOZ: int := -1

  /** The largest line number of a chunk, exclusive. */
  const MAX_INT: int := 0x7fff_ffff - 2

  // --- Writing -----------------------------------------------------------------------------

  function QuotedByte(c: byte): seq<byte> {
    if c == QUOTE || c == BACKSLASH || c == NEWLINE then [BACKSLASH, c]
    else if c == RETURN then [BACKSLASH, 114]
    else if c == 0 then [BACKSLASH, ZERO, ZERO, ZERO]
    else [c]
  }

  function QuotedBytes(s: seq<byte>): seq<byte> {
    if s == [] then [] else QuotedByte(s[0]) + QuotedBytes(s[1..])
  }

  function Quoted(s: seq<byte>): seq<byte> {
    [QUOTE] + QuotedBytes(s) + [QUOTE]
  }

  class Buffer {
    var bytes: seq<byte>

    constructor ()
      ensures bytes == []
    {
      bytes := [];
    }

    method AddChar(c: byte)
      modifies this
      ensures bytes == old(bytes) + [c]
    {
      bytes := bytes + [c];
    }

    method AddString(s: seq<byte>)
      modifies this
      ensures bytes == old(bytes) + s
    {
      bytes := bytes + s;
    }

    method AddQuoted(s: seq<byte>)
      modifies this
      ensures bytes == old(bytes) + Quoted(s)
    {
      ghost var start := bytes;
      AddChar(QUOTE);
      ghost var inside := bytes;
      var i := 0;
      while i < |s|
        invariant 0 <= i <= |s|
        invariant bytes + QuotedBytes(s[i..]) == inside + QuotedBytes(s)
      {
        ghost var before := bytes;
        AddOne(s[i]);
        i := i + 1;
        QuotedNext(s, i, before, bytes);
      }
      assert bytes == inside + QuotedBytes(s);
      AddChar(QUOTE);
      assert bytes == start + Quoted(s);
    }

    method AddOne(c: byte)
      modifies this
      ensures bytes == old(bytes) + QuotedByte(c)
    {
      if c == QUOTE || c == BACKSLASH || c == NEWLINE {
        AddChar(BACKSLASH);
        AddChar(c);
      } else if c == RETURN {
        AddString([BACKSLASH, 114]);
      } else if c == 0 {
        AddString([BACKSLASH, ZERO, ZERO, ZERO]);
      } else {
        AddChar(c);
      }
    }
  }

  lemma QuotedNext(s: seq<byte>, i: int, before: seq<byte>, after: seq<byte>)
    requires 1 <= i <= |s| && after == before + QuotedByte(s[i - 1])
    ensures after + QuotedBytes(s[i..]) == before + QuotedBytes(s[i - 1..])
  {
    assert s[i - 1..][1..] == s[i..];
  }

  // --- Reading: what a string literal means ------------------------------------------------

  datatype LexError = UnfinishedAtEnd | UnfinishedAtLine | EscapeTooLarge | TooManyLines

  /** A string literal read: its value, the input after it and the line number there. */
  datatype Reading = Literal(value: seq<byte>, rest: seq<byte>, line: int) | Failed(error: LexError)

  predicate IsNewline(c: int) {
    c == NEWLINE as int || c == RETURN as int
  }

  predicate IsDigit(c: int) {
    ZERO as int <= c <= 57
  }

  /** The length of a line break: \r\n and \n\r are one. */
  function BreakSize(s: seq<byte>): (k: nat)
    requires s != []
    ensures 1 <= k <= |s|
  {
    if |s| > 1 && IsNewline(s[1]) && s[1] != s[0] then 2 else 1
  }

  /** The letters that stand for control characters. */
  function Control(c: int): int {
    if c == 97 then 7 else if c == 98 then 8 else if c == 102 then 12 else if c == 110 then 10
    else if c == 114 then 13 else if c == 116 then 9 else if c == 118 then 11 else EOZ
  }

  /** How many of the first k bytes of s are digits, up to the first that is not. */
  function Digits(s: seq<byte>, k: nat): (n: nat)
    ensures n <= k && n <= |s|
  {
    if k == 0 || s == [] || !IsDigit(s[0]) then 0 else 1 + Digits(s[1..], k - 1)
  }

  function Decimal(s: seq<byte>): int {
    if s == [] then 0 else 10 * Decimal(s[..|s| - 1]) + (s[|s| - 1] - ZERO)
  }

  function Prefixed(p: seq<byte>, r: Reading): Reading {
    if r.Literal? then r.(value := p + r.value) else r
  }

  /** The literal that goes on with s, up to the delimiter. */
  function Read(s: seq<byte>, del: byte, line: int): Reading
    decreases |s|
  {
    if s == [] then Failed(UnfinishedAtEnd)
    else if s[0] == del then Literal([], s[1..], line)
    else if IsNewline(s[0]) then Failed(UnfinishedAtLine)
    else if s[0] != BACKSLASH then Prefixed([s[0]], Read(s[1..], del, line))
    else ReadEscape(s[1..], del, line)
  }

  /** The literal that goes on with s, after a backslash. */
  function ReadEscape(s: seq<byte>, del: byte, line: int): Reading
    decreases |s|
  {
    if s == [] then Failed(UnfinishedAtEnd)
    else if Control(s[0]) != EOZ then Prefixed([Control(s[0])], Read(s[1..], del, line))
    else if IsNewline(s[0]) then
      if line + 1 >= MAX_INT then Failed(TooManyLines)
      else Prefixed([NEWLINE], Read(s[BreakSize(s)..], del, line + 1))
    else if !IsDigit(s[0]) then Prefixed([s[0]], Read(s[1..], del, line))
    else
      var k := Digits(s, 3);
      var c := Decimal(s[..k]);
      if 0 <= c < 256 then Prefixed([c], Read(s[k..], del, line)) else Failed(EscapeTooLarge)
  }

  // --- Reading back what was written -------------------------------------------------------

  function Newlines(s: seq<byte>): nat {
    if s == [] then 0 else (if s[0] == NEWLINE then 1 else 0) + Newlines(s[1..])
  }

  /** What reading the quoted form of s followed by rest gives. */
  function ReadBack(s: seq<byte>, rest: seq<byte>, line: int): Reading {
    if Newlines(s) == 0 || line + Newlines(s) < MAX_INT then Literal(s, rest,
          line + Newlines(s)) else Failed(TooManyLines)
  }

  lemma ThreeZeros(e: seq<byte>, tail: seq<byte>)
    requires e == [ZERO, ZERO, ZERO] + tail
    ensures Digits(e, 3) == 3 && Decimal(e[..3]) == 0 && e[3..] == tail
  {
    assert Digits(e[1..][1..], 1) == 1 + Digits(e[1..][1..][1..], 0);
    assert Digits(e[1..], 2) == 1 + Digits(e[1..][1..], 1);
    assert Decimal(e[..3][..2][..1]) == 10 * Decimal(e[..3][..2][..1][..0]);
    assert Decimal(e[..3][..2]) == 10 * Decimal(e[..3][..2][..1]);
  }

  lemma ReadOne(c: byte, tail: seq<byte>, line: int)
    requires tail != [] && tail[0] != RETURN
    ensures Read(QuotedByte(c) + tail, QUOTE, line)
            == if c == NEWLINE && line + 1 >= MAX_INT then Failed(TooManyLines)
               else Prefixed([c], Read(tail, QUOTE, if c == NEWLINE then line + 1 else line))
  {
    var s := QuotedByte(c) + tail;
    if c == 0 {
      var e := s[1..];
      assert e == [ZERO, ZERO, ZERO] + tail;
      ThreeZeros(e, tail);
    } else if |QuotedByte(c)| == 2 {
      assert s[1..] == [QuotedByte(c)[1]] + tail && s[1..][1..] == tail;
    } else {
      assert s[1..] == tail;
    }
  }

  lemma QuotedStart(s: seq<byte>)
    ensures QuotedBytes(s) != [] ==> QuotedBytes(s)[0] != RETURN
  {
  }

  lemma QuotedMore(s: seq<byte>, rest: seq<byte>)
    requires s != []
    ensures QuotedBytes(s) + [QUOTE] + rest == QuotedByte(s[0]) + (QuotedBytes(s[1..]) + [QUOTE] + rest)
  {
  }

  lemma ReadBackMore(s: seq<byte>, rest: seq<byte>, line: int)
    requires s != []
    ensures ReadBack(s, rest, line)
            == if s[0] == NEWLINE && line + 1 >= MAX_INT then Failed(TooManyLines)
               else Prefixed([s[0]], ReadBack(s[1..], rest, if s[0] == NEWLINE then line + 1 else line))
  {
    assert [s[0]] + s[1..] == s;
  }

  /** The lexer gives back any string quoted, with its line breaks counted, and fails only when
      the chunk has too many lines. */
  lemma {:induction false} RoundTrip(s: seq<byte>, rest: seq<byte>, line: int)
    ensures Read(QuotedBytes(s) + [QUOTE] + rest, QUOTE, line) == ReadBack(s, rest, line)
  {
    hide ReadEscape;
    if s == [] {
      assert QuotedBytes(s) + [QUOTE] + rest == [QUOTE] + rest;
    } else {
      hide Read, ReadBack, Prefixed, QuotedBytes;
      var tail := QuotedBytes(s[1..]) + [QUOTE] + rest;
      QuotedStart(s[1..]);
      QuotedMore(s, rest);
      ReadOne(s[0], tail, line);
      ReadBackMore(s, rest, line);
      RoundTrip(s[1..], rest, if s[0] == NEWLINE then line + 1 else line);
    }
  }

  // --- Reading, as the lexer does it -------------------------------------------------------

  datatype Token = Text(value: seq<byte>) | Error(error: LexError)

  datatype Checked = Fine | Bad(error: LexError)

  /** An escape has been read as the bytes got: what remains is a plain literal. */
  ghost predicate Escaped(s: seq<byte>, del: byte, line: int, got: seq<byte>, rest: seq<byte>, line': int) {
    ReadEscape(s, del, line) == Prefixed(got, Read(rest, del, line'))
  }

  lemma PrefixedTwice(p: seq<byte>, q: seq<byte>, r: Reading)
    ensures Prefixed(p, Prefixed(q, r)) == Prefixed(p + q, r)
  {
    if r.Literal? { assert p + (q + r.value) == p + q + r.value; }
  }

  lemma FailedStays(p: seq<byte>, r: Reading)
    ensures r.Failed? ==> Prefixed(p, r) == r
  {
  }

  lemma NothingPrefixed(r: Reading)
    ensures Prefixed([], r) == r
  {
  }

  lemma LiteralPrefixed(p: seq<byte>, rest: seq<byte>, line: int)
    ensures Prefixed(p, Literal([], rest, line)) == Literal(p, rest, line)
  {
  }

  lemma ReadStops(s: seq<byte>, del: byte, line: int)
    ensures s == [] ==> Read(s, del, line) == Failed(UnfinishedAtEnd)
    ensures s != [] && s[0] == del ==> Read(s, del, line) == Literal([], s[1..], line)
    ensures s != [] && s[0] != del && IsNewline(s[0]) ==> Read(s, del, line) == Failed(UnfinishedAtLine)
  {
  }

  lemma EscapeStops(s: seq<byte>, del: byte, line: int)
    requires s != [] && s[0] == BACKSLASH && s[0] != del
    ensures Read(s, del, line) == ReadEscape(s[1..], del, line)
  {
  }

  lemma EscapeRead(s: seq<byte>, del: byte, line: int, got: seq<byte>, more: seq<byte>, rest: seq<byte>, line': int)
    requires s != [] && s[0] == BACKSLASH && s[0] != del && Escaped(s[1..], del, line, more, rest, line')
    ensures Prefixed(got, Read(s, del, line)) == Prefixed(got + more, Read(rest, del, line'))
  {
    PrefixedTwice(got, more, Read(rest, del, line'));
  }

  lemma PlainRead(s: seq<byte>, del: byte, line: int, got: seq<byte>)
    requires s != [] && s[0] != del && s[0] != BACKSLASH && !IsNewline(s[0])
    ensures Prefixed(got, Read(s, del, line)) == Prefixed(got + [s[0]], Read(s[1..], del, line))
  {
    PrefixedTwice(got, [s[0]], Read(s[1..], del, line));
  }

  lemma {:induction false} DigitsAre(s: seq<byte>, k: nat, n: nat)
    requires n <= k && n <= |s| && forall i :: 0 <= i < n ==> IsDigit(s[i])
    requires n == k || n == |s| || !IsDigit(s[n])
    ensures Digits(s, k) == n
  {
    if n > 0 {
      forall i | 0 <= i < n - 1 ensures IsDigit(s[1..][i]) { assert s[1..][i] == s[i + 1]; }
      DigitsAre(s[1..], k - 1, n - 1);
    }
  }

  lemma OneMoreDigit(s: seq<byte>, i: nat)
    requires i < |s|
    ensures Decimal(s[..i + 1]) == 10 * Decimal(s[..i]) + (s[i] - ZERO)
  {
    assert s[..i + 1][..i] == s[..i];
  }

  class LexState {
    /** The byte looked at, or EOZ. */
    var current: int
    /** The bytes still in the stream. */
    var z: seq<byte>
    var buff: seq<byte>
    var linenumber: int

    ghost predicate Valid()
      reads this
    {
      if current == EOZ then z == [] else 0 <= current < 256
    }

    ghost function Ahead(): (s: seq<byte>)
      requires Valid()
      reads this
      ensures s == [] <==> current == EOZ
      ensures s != [] ==> s[0] == current
    {
      if current == EOZ then [] else [current] + z
    }

    /** At the first byte of s, on line line. */
    constructor (s: seq<byte>, line: int)
      ensures Valid() && Ahead() == s && buff == [] && linenumber == line
    {
      current, z := if s == [] then EOZ else s[0], if s == [] then [] else s[1..];
      buff, linenumber := [], line;
    }

    method Next()
      requires Valid()
      modifies this`current, this`z
      ensures Valid() && Ahead() == if old(Ahead()) == [] then [] else old(Ahead())[1..]
    {
      if z == [] {
        current := EOZ;
      } else {
        current, z := z[0], z[1..];
      }
    }

    method Save(c: byte)
      modifies this`buff
      ensures buff == old(buff) + [c]
    {
      buff := buff + [c];
    }

    method SaveAndNext()
      requires Valid() && Ahead() != []
      modifies this`current, this`z, this`buff
      ensures Valid() && Ahead() == old(Ahead())[1..] && buff == old(buff) + [old(current)]
    {
      Save(current);
      Next();
    }

    method IncLineNumber() returns (c: Checked)
      requires Valid() && IsNewline(current)
      modifies this`current, this`z, this`linenumber
      ensures Valid() && Ahead() == old(Ahead())[BreakSize(old(Ahead()))..] && linenumber == old(linenumber) + 1
      ensures c == if linenumber >= MAX_INT then Bad(TooManyLines) else Fine
    {
      var was := current;
      Next();
      if IsNewline(current) && current != was {
        Next();
      }
      linenumber := linenumber + 1;
      c := if linenumber >= MAX_INT then Bad(TooManyLines) else Fine;
    }

    /** Up to three decimal digits. */
    method ReadDecimal() returns (c: int)
      requires Valid() && IsDigit(current)
      modifies this`current, this`z
      ensures var k := Digits(old(Ahead()), 3);
            Valid() && Ahead() == old(Ahead())[k..] && c == Decimal(old(Ahead())[..k]) && c >= 0
    {
      ghost var s := Ahead();
      var i := 0;
      c := 0;
      while true
        invariant Valid() && 0 <= i < 3 && i < |s| && Ahead() == s[i..] && IsDigit(current)
        invariant c == Decimal(s[..i]) && c >= 0 && forall j :: 0 <= j < i ==> IsDigit(s[j])
        decreases 3 - i
      {
        OneMoreDigit(s, i);
        c := 10 * c + (current - ZERO);
        Next();
        i := i + 1;
        if !(i < 3 && IsDigit(current)) {
          break;
        }
      }
      DigitsAre(s, 3, i);
    }

    /** The escape sequence after a backslash. */
    method ReadOneEscape(ghost del: byte) returns (c: Checked)
      requires Valid()
      modifies this
      ensures Valid() && |old(buff)| <= |buff| && buff[..|old(buff)|] == old(buff)
      ensures c == Fine ==> Escaped(old(Ahead()), del, old(linenumber), buff[|old(buff)|..], Ahead(), linenumber)
      ensures c == Fine && old(Ahead()) != [] ==> |Ahead()| < |old(Ahead())|
      ensures c.Bad? ==> ReadEscape(old(Ahead()), del, old(linenumber)) == Failed(c.error)
      ensures c == Fine && old(Ahead()) == [] ==> Ahead() == []
    {
      c := Fine;
      var control := Control(current);
      if control != EOZ {
        Save(control);
        Next();
      } else if IsNewline(current) {
        Save(NEWLINE);
        c := IncLineNumber();
      } else if current == EOZ {
      } else if !IsDigit(current) {
        SaveAndNext();
      } else {
        var d := ReadDecimal();
        if d > 255 {
          c := Bad(EscapeTooLarge);
        } else {
          Save(d);
        }
      }
    }

    /** What the literal will be: what is in the buffer, and then what is read. */
    ghost function Coming(del: byte): Reading
      requires Valid() && |buff| >= 1
      reads this
    {
      Prefixed(buff[1..], Read(Ahead(), del, linenumber))
    }

    /** A backslash and what comes after it. */
    method ReadBackslash(del: byte) returns (c: Checked)
      requires Valid() && |buff| >= 1 && current == BACKSLASH != del
      modifies this
      ensures Valid() && |buff| >= 1
      ensures c == Fine ==> Coming(del) == old(Coming(del)) && |Ahead()| < |old(Ahead())|
      ensures c.Bad? ==> old(Coming(del)) == Failed(c.error)
    {
      hide Prefixed, ReadEscape, Escaped, Read, Digits, Decimal, Control, BreakSize;
      ghost var s, got, line := Ahead(), buff[1..], linenumber;
      Next();
      ghost var before := buff;
      c := ReadOneEscape(del);
      EscapeStops(s, del, line);
      if c.Bad? {
        FailedStays(got, Read(s, del, line));
      } else {
        EscapeRead(s, del, line, got, buff[|before|..], Ahead(), linenumber);
        assert buff[1..] == got + buff[|before|..];
      }
    }

    /** read_string: the lexer is at the opening delimiter. */
    method ReadString(del: byte) returns (t: Token)
      requires Valid() && current == del && buff == []
      modifies this
      ensures Valid()
      ensures match Read(old(Ahead())[1..], del, old(linenumber))
              case Literal(value, rest, line) => t == Text(value) && Ahead() == rest && linenumber == line
              case Failed(error) => t == Error(error)
    {
      hide Prefixed, ReadEscape, Read, Control, BreakSize;
      SaveAndNext();
      ghost var goal := Read(Ahead(), del, linenumber);
      NothingPrefixed(goal);
      assert buff[1..] == [];
      while current != del
        invariant Valid() && |buff| >= 1 && Coming(del) == goal
        decreases |Ahead()|
      {
        ghost var s, got := Ahead(), buff[1..];
        FailedStays(got, Read(s, del, linenumber));
        ReadStops(s, del, linenumber);
        if current == EOZ {
          return Error(UnfinishedAtEnd);
        }
        if IsNewline(current) {
          return Error(UnfinishedAtLine);
        }
        if current == BACKSLASH {
          var c := ReadBackslash(del);
          if c.Bad? {
            return Error(c.error);
          }
        } else {
          PlainRead(s, del, linenumber, got);
          SaveAndNext();
          assert buff[1..] == got + [s[0]];
        }
      }
      ReadStops(Ahead(), del, linenumber);
      LiteralPrefixed(buff[1..], Ahead()[1..], linenumber);
      SaveAndNext();
      t := Text(buff[1..|buff| - 1]);
    }
  }

  /** format("%q") and then the lexer. */
  method WriteAndRead(s: seq<byte>, rest: seq<byte>, line: int) returns (t: Token, left: seq<byte>)
    ensures Newlines(s) == 0 || line + Newlines(s) < MAX_INT ==> t == Text(s) && left == rest
    ensures !(Newlines(s) == 0 || line + Newlines(s) < MAX_INT) ==> t == Error(TooManyLines)
  {
    var b := new Buffer();
    b.AddQuoted(s);
    var ls := new LexState(b.bytes + rest, line);
    assert ls.Ahead()[1..] == QuotedBytes(s) + [QUOTE] + rest;
    RoundTrip(s, rest, line);
    t := ls.ReadString(QUOTE);
    left := if ls.current == EOZ then [] else [ls.current] + ls.z;
  }
}
