/** What patterns mean to those who write them: classes, sets and repetitions by their structure,
    and the text that stands for them (sections 5.4.1 of the Lua 5.1 manual). */
module PatternSyntax {
  import opened Patterns

  /** A class of bytes: any byte; one byte, as it is or escaped; a named class or its complement;
      a set or its complement. */
  datatype Class =
    | Any
    | Plain(b: Byte)
    | Escaped(b: Byte)
    | Named(k: Byte, inside: bool)
    | Set(inside: bool, elems: seq<Element>)

  datatype Element = One(b: Byte) | Literal(b: Byte) | Range(lo: Byte, hi: Byte) | Group(k: Byte, inside: bool)

  datatype Repeat = Once | Possibly | AnyNumber | AtLeastOnce | AsFewAsPossible

  datatype Piece =
    | Bytes(cls: Class, rep: Repeat)
    | Border(inside: bool, elems: seq<Element>)
    | Begin
    | End
    | Place
    | Again(n: nat)
    | Between(open: Byte, close: Byte)
    | Finish

  // ----- Which bytes are in a class -----

  predicate InGroup(ctype: (Byte, Byte) -> bool, k: Byte, c: Byte) {
    if k == 'z' as int then c == 0 else ctype(k, c)
  }

  predicate ElementHas(ctype: (Byte, Byte) -> bool, e: Element, c: Byte) {
    match e
    case One(b) => c == b
    case Literal(b) => c == b
    case Range(lo, hi) => lo <= c <= hi
    case Group(k, inside) => InGroup(ctype, k, c) == inside
  }

  /** The bytes of a set: the union of its elements. */
  function Union(ctype: (Byte, Byte) -> bool, es: seq<Element>): set<Byte> {
    set e, c: Byte | e in es && 0 <= c < 256 && ElementHas(ctype, e, c) :: c
  }

  function Members(ctype: (Byte, Byte) -> bool, cls: Class): set<Byte> {
    var all := set c: Byte | 0 <= c < 256 && IsByte(c);
    match cls
    case Any => all
    case Plain(b) => {b}
    case Escaped(b) => {b}
    case Named(k, inside) => set c: Byte | 0 <= c < 256 && InGroup(ctype, k, c) == inside
    case Set(inside, es) => if inside then Union(ctype, es) else all - Union(ctype, es)
  }

  predicate IsByte(c: int) {
    0 <= c < 256
  }

  // ----- The text of a pattern -----

  predicate IsAlnum(b: Byte) {
    IsDigit(b) || 'a' as int <= b <= 'z' as int || 'A' as int <= b <= 'Z' as int
  }

  /** The magic characters. */
  predicate IsMagic(b: Byte) {
    b in {'^' as int, '$' as int, '(' as int, ')' as int, '%' as int, '.' as int, '[' as int, ']' as int, '*' as int,
          '+' as int, '-' as int, '?' as int}
  }

  predicate PlainOk(b: Byte) {
    b != 0 && !IsMagic(b)
  }

  predicate EscapedOk(b: Byte) {
    b != 0 && !IsAlnum(b)
  }

  predicate ElementOk(e: Element) {
    match e
    case One(b) => PlainOk(b)
    case Literal(b) => EscapedOk(b)
    case Range(lo, hi) => PlainOk(lo) && PlainOk(hi)
    case Group(k, _) => IsClassLetter(k)
  }

  predicate ElementsOk(es: seq<Element>) {
    es != [] && forall e :: e in es ==> ElementOk(e)
  }

  predicate ClassOk(cls: Class) {
    match cls
    case Any => true
    case Plain(b) => PlainOk(b)
    case Escaped(b) => EscapedOk(b)
    case Named(k, _) => IsClassLetter(k)
    case Set(_, es) => ElementsOk(es)
  }

  /** The letter of a class, or the capital of its complement. */
  function LetterOf(k: Byte, inside: bool): Byte
    requires IsClassLetter(k)
  {
    if inside then k else k - 32
  }

  function ElementText(e: Element): (t: seq<Byte>)
    requires ElementOk(e)
    ensures t != []
  {
    match e
    case One(b) => [b]
    case Literal(b) => ['%' as int, b]
    case Range(lo, hi) => [lo, '-' as int, hi]
    case Group(k, inside) => ['%' as int, LetterOf(k, inside)]
  }

  function ElementsText(es: seq<Element>): seq<Byte>
    requires forall e :: e in es ==> ElementOk(e)
  {
    if es == [] then [] else ElementText(es[0]) + ElementsText(es[1..])
  }

  function SetText(inside: bool, es: seq<Element>): seq<Byte>
    requires ElementsOk(es)
  {
    (if inside then ['[' as int] else ['[' as int, '^' as int]) + ElementsText(es) + [']' as int]
  }

  function ClassText(cls: Class): seq<Byte>
    requires ClassOk(cls)
  {
    match cls
    case Any => ['.' as int]
    case Plain(b) => [b]
    case Escaped(b) => ['%' as int, b]
    case Named(k, inside) => ['%' as int, LetterOf(k, inside)]
    case Set(inside, es) => SetText(inside, es)
  }

  function RepeatText(r: Repeat): seq<Byte> {
    match r
    case Once => []
    case Possibly => ['?' as int]
    case AnyNumber => ['*' as int]
    case AtLeastOnce => ['+' as int]
    case AsFewAsPossible => ['-' as int]
  }

  predicate PieceOk(x: Piece) {
    match x
    case Bytes(cls, _) => ClassOk(cls)
    case Border(_, es) => ElementsOk(es)
    case Again(n) => 1 <= n <= 9
    case Between(b, c) => b != 0 && c != 0
    case _ => true
  }

  function PieceText(x: Piece): seq<Byte>
    requires PieceOk(x)
  {
    match x
    case Bytes(cls, r) => ClassText(cls) + RepeatText(r)
    case Border(inside, es) => ['%' as int, 'f' as int] + SetText(inside, es)
    case Begin => ['(' as int]
    case End => [')' as int]
    case Place => ['(' as int, ')' as int]
    case Again(n) => ['%' as int, '0' as int + n]
    case Between(b, c) => ['%' as int, 'b' as int, b, c]
    case Finish => ['$' as int]
  }

  /** Pieces that can be told apart in their text: a capture is not empty, and the subject's end
      is asked for at the end only. */
  predicate PiecesOk(xs: seq<Piece>) {
    && (forall x :: x in xs ==> PieceOk(x))
    && (forall i :: 0 <= i < |xs| - 1 ==> xs[i] != Finish && !(xs[i] == Begin && xs[i + 1] == End))
  }

  function Text(xs: seq<Piece>): seq<Byte>
    requires forall x :: x in xs ==> PieceOk(x)
  {
    if xs == [] then [] else PieceText(xs[0]) + Text(xs[1..])
  }

  // ----- What pieces match -----

  ghost predicate AllIn(q: Problem, cls: Class, s: nat, e: nat) {
    e <= |q.src| && forall i :: s <= i < e ==> q.src[i] in Members(q.ctype, cls)
  }

  /** A piece takes the subject from s to e, and the captures from caps to caps'. */
  ghost predicate Takes(q: Problem, x: Piece, s: nat, caps: seq<Capture>, e: nat, caps': seq<Capture>)
    requires s <= |q.src|
  {
    match x
    case Bytes(cls, r) =>
      && caps' == caps && s <= e && AllIn(q, cls, s, e)
      && (match r
          case Once => e == s + 1
          case Possibly => e <= s + 1
          case AtLeastOnce => s < e
          case _ => true)
    case Border(inside, es) =>
      var before := if s > 0 then q.src[s - 1] else 0;
      var here := if s < |q.src| then q.src[s] else 0;
      var bytes := Members(q.ctype, Set(inside, es));
      before !in bytes && here in bytes && e == s && caps' == caps
    case Begin => Step(q, Open, s, caps, e, caps')
    case End => Step(q, Close, s, caps, e, caps')
    case Place => Step(q, PositionCapture, s, caps, e, caps')
    case Again(n) => Step(q, BackRef(n - 1), s, caps, e, caps')
    case Between(b, c) => Step(q, Balance(b, c), s, caps, e, caps')
    case Finish => e == s == |q.src| && caps' == caps
  }

  /** Pieces match one after another. */
  ghost predicate Accepts(q: Problem, xs: seq<Piece>, s: nat, caps: seq<Capture>, e: nat, caps': seq<Capture>)
    decreases |xs|
  {
    s <= |q.src|
    && if xs == [] then e == s && caps' == caps
       else exists m: nat, c: seq<Capture> :: Takes(q, xs[0], s, caps, m, c) && Accepts(q, xs[1..], m, c, e, caps')
  }

  // ----- Reading the text -----

  ghost predicate TextAt(pat: seq<Byte>, p: nat, t: seq<Byte>) {
    p + |t| <= |pat| && forall i :: 0 <= i < |t| ==> pat[p + i] == t[i]
  }

  lemma TextByte(pat: seq<Byte>, p: nat, t: seq<Byte>, i: nat)
    requires TextAt(pat, p, t) && i < |t|
    ensures At(pat, p + i) == t[i]
  {
  }

  lemma TextParts(pat: seq<Byte>, p: nat, t: seq<Byte>, u: seq<Byte>)
    requires TextAt(pat, p, t + u)
    ensures TextAt(pat, p, t) && TextAt(pat, p + |t|, u)
  {
    var v := t + u;
    forall i | 0 <= i < |t| ensures pat[p + i] == t[i] { assert v[i] == t[i]; }
    forall i | 0 <= i < |u| ensures pat[p + |t| + i] == u[i] { assert v[|t| + i] == u[i]; }
  }

  /** What a byte after the escape means: a letter of a class the class, its capital all other
      bytes, and everything else itself. */
  lemma EscapeMeans(ctype: (Byte, Byte) -> bool, c: Byte, cl: Byte)
    ensures IsClassLetter(cl) <==> exists i :: 0 <= i < 10 && cl == "acdlpsuwxz"[i] as int
    ensures IsClassLetter(cl) ==> (MatchClass(ctype, c, cl) <==> InGroup(ctype, cl, c))
    ensures IsClassLetter(cl) ==> (MatchClass(ctype, c, cl - 32) <==> !MatchClass(ctype, c, cl))
    ensures !IsClassLetter(cl) && (cl >= 224 || !IsClassLetter(cl + 32)) ==> (MatchClass(ctype, c, cl) <==> c == cl)
  {
    var all := "acdlpsuwxz";
    assert all[0] == 'a' && all[1] == 'c' && all[2] == 'd' && all[3] == 'l' && all[4] == 'p' && all[5] == 's'
        && all[6] == 'u' && all[7] == 'w' && all[8] == 'x' && all[9] == 'z';
  }

  lemma NamedIs(ctype: (Byte, Byte) -> bool, c: Byte, k: Byte, inside: bool)
    requires IsClassLetter(k)
    ensures MatchClass(ctype, c, LetterOf(k, inside)) <==> InGroup(ctype, k, c) == inside
  {
    EscapeMeans(ctype, c, k);
  }

  lemma EscapedIs(ctype: (Byte, Byte) -> bool, c: Byte, b: Byte)
    requires EscapedOk(b)
    ensures MatchClass(ctype, c, b) <==> c == b
  {
  }

  // ----- Sets -----

  ghost predicate SomeHas(ctype: (Byte, Byte) -> bool, es: seq<Element>, c: Byte) {
    exists e :: e in es && ElementHas(ctype, e, c)
  }

  lemma UnionIs(ctype: (Byte, Byte) -> bool, es: seq<Element>, c: Byte)
    ensures c in Union(ctype, es) <==> SomeHas(ctype, es, c)
  {
  }

  /** One element of a list, and the rest of it. */
  lemma ElementReads(ctype: (Byte, Byte) -> bool, pat: seq<Byte>, c: Byte, p: nat, e: Element, ec: nat)
    requires ElementOk(e) && TextAt(pat, p, ElementText(e)) && p + |ElementText(e)| <= ec
    requires At(pat, p + |ElementText(e)|) != '-' as int
    ensures InList(ctype, pat, c, p, ec)
        <==> ElementHas(ctype, e, c) || InList(ctype, pat, c, p + |ElementText(e)|, ec)
  {
    var t := ElementText(e);
    TextByte(pat, p, t, 0);
    if |t| > 1 { TextByte(pat, p, t, 1); }
    if |t| > 2 { TextByte(pat, p, t, 2); }
    match e
    case Literal(b) => EscapedIs(ctype, c, b);
    case Group(k, inside) => NamedIs(ctype, c, k, inside);
    case _ =>
  }

  /** What follows an element in its list does not make it a range. */
  lemma NoDash(pat: seq<Byte>, p: nat, es: seq<Element>)
    requires (forall e :: e in es ==> ElementOk(e)) && TextAt(pat, p, ElementsText(es) + [']' as int])
    ensures At(pat, p) != '-' as int && At(pat, p) != 0 && (es == [] <==> At(pat, p) == ']' as int)
  {
    var t := ElementsText(es) + [']' as int];
    TextByte(pat, p, t, 0);
    if es != [] {
      assert es[0] in es;
      assert t[0] == ElementText(es[0])[0];
    }
  }

  lemma ElementsSplit(pat: seq<Byte>, p: nat, es: seq<Element>)
    requires es != [] && (forall e :: e in es ==> ElementOk(e)) && TextAt(pat, p, ElementsText(es) + [']' as int])
    ensures es[0] in es && TextAt(pat, p, ElementText(es[0]))
    ensures TextAt(pat, p + |ElementText(es[0])|, ElementsText(es[1..]) + [']' as int])
    ensures |ElementsText(es)| == |ElementText(es[0])| + |ElementsText(es[1..])|
  {
    assert es[0] in es;
    var a, b := ElementText(es[0]), ElementsText(es[1..]) + [']' as int];
    assert ElementsText(es) + [']' as int] == a + b;
    TextParts(pat, p, a, b);
  }

  lemma {:induction false} ListReads(ctype: (Byte, Byte) -> bool, pat: seq<Byte>, c: Byte, p: nat, es: seq<Element>)
    requires (forall e :: e in es ==> ElementOk(e)) && TextAt(pat, p, ElementsText(es) + [']' as int])
    ensures InList(ctype, pat, c, p, p + |ElementsText(es)|) <==> SomeHas(ctype, es, c)
    decreases |es|
  {
    if es != [] {
      var n, ec := |ElementText(es[0])|, p + |ElementsText(es)|;
      ElementsSplit(pat, p, es);
      NoDash(pat, p + n, es[1..]);
      ElementReads(ctype, pat, c, p, es[0], ec);
      ListReads(ctype, pat, c, p + n, es[1..]);
      assert forall e :: e in es <==> e == es[0] || e in es[1..];
    }
  }

  /** The bracket that ends a list is found. */
  lemma {:induction false} EndReads(pat: seq<Byte>, p: nat, es: seq<Element>)
    requires ElementsOk(es) && TextAt(pat, p, ElementsText(es) + [']' as int])
    ensures SetEnd(pat, p) == p + |ElementsText(es)| + 1
    decreases |es|
  {
    var e, n := es[0], |ElementText(es[0])|;
    ElementsSplit(pat, p, es);
    NoDash(pat, p + n, es[1..]);
    TextByte(pat, p, ElementText(e), 0);
    if n > 1 { TextByte(pat, p, ElementText(e), 1); }
    if n > 2 { TextByte(pat, p, ElementText(e), 2); }
    var r := if es[1..] == [] then p + n + 1 else SetEnd(pat, p + n);
    if e.Range? {
      assert SetEnd(pat, p) == SetEnd(pat, p + 1) == SetEnd(pat, p + 2) == r;
    }
    assert SetEnd(pat, p) == r;
    if es[1..] != [] { EndReads(pat, p + n, es[1..]); }
  }

  lemma SetSplit(pat: seq<Byte>, p: nat, inside: bool, es: seq<Element>)
    requires ElementsOk(es) && TextAt(pat, p, SetText(inside, es))
    ensures var q := if inside then p + 1 else p + 2;
            && At(pat, p) == '[' as int && (At(pat, p + 1) == '^' as int <==> !inside)
            && TextAt(pat, q, ElementsText(es) + [']' as int])
            && p + |SetText(inside, es)| == q + |ElementsText(es)| + 1
  {
    var a: seq<Byte> := if inside then ['[' as int] else ['[' as int, '^' as int];
    var b := ElementsText(es) + [']' as int];
    assert SetText(inside, es) == a + b;
    TextParts(pat, p, a, b);
    TextByte(pat, p, a, 0);
    if inside {
      ElementsSplit(pat, p + 1, es);
      TextByte(pat, p + 1, ElementText(es[0]), 0);
    } else {
      TextByte(pat, p, a, 1);
    }
  }

  /** A set is read as the union of its elements, or as all bytes that are not in it. */
  lemma SetReads(ctype: (Byte, Byte) -> bool, pat: seq<Byte>, c: Byte, p: nat, inside: bool, es: seq<Element>)
    requires ElementsOk(es) && TextAt(pat, p, SetText(inside, es))
    ensures p < |pat| && ClassEnd(pat, p) == p + |SetText(inside, es)|
    ensures InSet(ctype, pat, c, p, p + |SetText(inside, es)| - 1) <==> c in Members(ctype, Set(inside, es))
  {
    hide SetText, ElementsText, InList, SetEnd, Union, SomeHas, ElementsOk;
    SetSplit(pat, p, inside, es);
    var q := if inside then p + 1 else p + 2;
    EndReads(pat, q, es);
    assert p < |pat| && pat[p] == '[' as int;
    ElementsRead(ctype, pat, c, q, es);
    UnionIs(ctype, es, c);
    assert IsByte(c);
  }

  lemma ElementsRead(ctype: (Byte, Byte) -> bool, pat: seq<Byte>, c: Byte, p: nat, es: seq<Element>)
    requires ElementsOk(es) && TextAt(pat, p, ElementsText(es) + [']' as int])
    ensures InList(ctype, pat, c, p, p + |ElementsText(es)|) <==> SomeHas(ctype, es, c)
  {
    ListReads(ctype, pat, c, p, es);
  }

  /** The text of a class is read as that class. */
  lemma ClassReads(ctype: (Byte, Byte) -> bool, pat: seq<Byte>, c: Byte, p: nat, cls: Class)
    requires ClassOk(cls) && TextAt(pat, p, ClassText(cls))
    ensures p < |pat| && ClassText(cls) != [] && ClassEnd(pat, p) == p + |ClassText(cls)|
    ensures SingleMatch(ctype, pat, c, p, p + |ClassText(cls)|) <==> c in Members(ctype, cls)
  {
    hide InSet, SetText, SetEnd, Union, MatchClass;
    var t := ClassText(cls);
    match cls
    case Set(inside, es) =>
      SetReads(ctype, pat, c, p, inside, es);
      SetSplit(pat, p, inside, es);
    case Named(k, inside) =>
      TextByte(pat, p, t, 0);
      TextByte(pat, p, t, 1);
      NamedIs(ctype, c, k, inside);
    case Escaped(b) =>
      TextByte(pat, p, t, 0);
      TextByte(pat, p, t, 1);
      EscapedIs(ctype, c, b);
    case Plain(b) =>
      TextByte(pat, p, t, 0);
    case Any =>
      TextByte(pat, p, t, 0);
      assert IsByte(c);
  }

  // ----- Whole patterns -----

  function RepeatItem(r: Repeat, from: nat, to: nat): Item {
    match r
    case Once => Single(from, to)
    case Possibly => Optional(from, to)
    case AnyNumber => Star(from, to)
    case AtLeastOnce => Plus(from, to)
    case AsFewAsPossible => Minus(from, to)
  }

  /** The item that a piece at place p is. */
  function ItemAt(x: Piece, p: nat): Item
    requires PieceOk(x)
  {
    match x
    case Bytes(cls, r) => RepeatItem(r, p, p + |ClassText(cls)|)
    case Border(inside, es) => Frontier(p + 2, p + 1 + |SetText(inside, es)|)
    case Begin => Open
    case End => Close
    case Place => PositionCapture
    case Again(n) => BackRef(n - 1)
    case Between(b, c) => Balance(b, c)
    case Finish => AtEnd
  }

  /** The bytes that repeat the class before them. */
  predicate IsSuffix(b: Byte) {
    b in {'?' as int, '*' as int, '+' as int, '-' as int}
  }

  lemma FirstOfClass(pat: seq<Byte>, p: nat, cls: Class)
    requires ClassOk(cls) && TextAt(pat, p, ClassText(cls))
    ensures At(pat, p) !in {0, '(' as int, ')' as int, '$' as int} && !IsSuffix(At(pat, p))
    ensures At(pat, p) == '%' as int ==>
              !IsDigit(At(pat, p + 1)) && At(pat, p + 1) != 'b' as int && At(pat, p + 1) != 'f' as int
  {
    hide SetText;
    var t := ClassText(cls);
    if cls.Set? {
      SetSplit(pat, p, cls.inside, cls.elems);
    } else {
      TextByte(pat, p, t, 0);
      if |t| > 1 { TextByte(pat, p, t, 1); }
    }
  }

  lemma FirstOfPiece(pat: seq<Byte>, p: nat, x: Piece)
    requires PieceOk(x) && TextAt(pat, p, PieceText(x))
    ensures !IsSuffix(At(pat, p)) && (At(pat, p) == ')' as int <==> x == End) && PieceText(x) != []
  {
    hide ClassText, SetText;
    var t := PieceText(x);
    if x.Bytes? {
      TextParts(pat, p, ClassText(x.cls), RepeatText(x.rep));
      FirstOfClass(pat, p, x.cls);
      ClassReads((a, b) => true, pat, 0, p, x.cls);
    } else {
      TextByte(pat, p, t, 0);
    }
  }

  lemma PiecesSplit(pat: seq<Byte>, p: nat, xs: seq<Piece>)
    requires xs != [] && PiecesOk(xs) && TextAt(pat, p, Text(xs)) && p + |Text(xs)| == |pat|
    ensures var n := |PieceText(xs[0])|;
            && PieceOk(xs[0]) && PiecesOk(xs[1..])
            && TextAt(pat, p, PieceText(xs[0])) && TextAt(pat, p + n, Text(xs[1..]))
            && p + n + |Text(xs[1..])| == |pat|
            && !IsSuffix(At(pat, p + n)) && (xs[0] == Begin ==> At(pat, p + n) != ')' as int)
            && (xs[0] == Finish ==> p + n == |pat|)
  {
    hide PieceText;
    var a, rest := PieceText(xs[0]), xs[1..];
    TextParts(pat, p, a, Text(rest));
    forall i | 0 <= i < |rest| - 1 ensures rest[i] != Finish && !(rest[i] == Begin && rest[i + 1] == End) {
      assert rest[i] == xs[i + 1] && rest[i + 1] == xs[i + 2];
    }
    if rest != [] {
      assert xs[1] == rest[0] && rest[0] in rest;
      TextParts(pat, p + |a|, PieceText(rest[0]), Text(rest[1..]));
      FirstOfPiece(pat, p + |a|, rest[0]);
    }
  }

  /** The text of pieces is read as those pieces. */
  lemma PieceParses(pat: seq<Byte>, p: nat, xs: seq<Piece>)
    requires xs != [] && PiecesOk(xs) && TextAt(pat, p, Text(xs)) && p + |Text(xs)| == |pat|
    ensures Parse(pat, p) == Parsed(ItemAt(xs[0], p), p + |PieceText(xs[0])|)
  {
    hide Parse, ItemAt, Text, At;
    PiecesSplit(pat, p, xs);
    PieceReads(pat, p, xs[0]);
  }

  lemma PieceReads(pat: seq<Byte>, p: nat, x: Piece)
    requires PieceOk(x) && TextAt(pat, p, PieceText(x)) && !IsSuffix(At(pat, p + |PieceText(x)|))
    requires x == Begin ==> At(pat, p + |PieceText(x)|) != ')' as int
    requires x == Finish ==> p + |PieceText(x)| == |pat|
    ensures Parse(pat, p) == Parsed(ItemAt(x, p), p + |PieceText(x)|)
  {
    hide Parse, ItemAt, At, IsSuffix, TextAt, PieceText, ClassText, SetText;
    PieceLengths(x);
    if x.Bytes? {
      BytesItem(x, p);
      BytesParse(pat, p, x.cls, x.rep);
    } else if x.Border? {
      BorderParses(pat, p, x.inside, x.elems);
    } else {
      FixedParses(pat, p, x);
    }
  }

  lemma PieceLengths(x: Piece)
    requires PieceOk(x)
    ensures x == Begin || x == Finish ==> |PieceText(x)| == 1
    ensures x.Border? ==> x == Border(x.inside, x.elems)
  {
  }

  lemma BytesItem(x: Piece, p: nat)
    requires PieceOk(x) && x.Bytes?
    ensures ItemAt(x, p) == RepeatItem(x.rep, p, p + |ClassText(x.cls)|)
    ensures PieceText(x) == ClassText(x.cls) + RepeatText(x.rep)
  {
  }

  lemma FixedParses(pat: seq<Byte>, p: nat, x: Piece)
    requires PieceOk(x) && !x.Bytes? && !x.Border? && TextAt(pat, p, PieceText(x))
    requires x == Begin ==> At(pat, p + 1) != ')' as int
    requires x == Finish ==> p + 1 == |pat|
    ensures Parse(pat, p) == Parsed(ItemAt(x, p), p + |PieceText(x)|)
  {
    hide ParseItem, ClassEnd;
    var t := PieceText(x);
    TextByte(pat, p, t, 0);
    if |t| > 1 { TextByte(pat, p, t, 1); }
    if x.Between? {
      TextByte(pat, p, t, 2);
      TextByte(pat, p, t, 3);
    }
  }

  /** A class and what repeats it. */
  lemma BytesParse(pat: seq<Byte>, p: nat, cls: Class, r: Repeat)
    requires ClassOk(cls) && TextAt(pat, p, ClassText(cls) + RepeatText(r))
    requires !IsSuffix(At(pat, p + |ClassText(cls) + RepeatText(r)|))
    ensures Parse(pat, p) == Parsed(RepeatItem(r, p, p + |ClassText(cls)|), p + |ClassText(cls) + RepeatText(r)|)
  {
    hide ClassText, ClassEnd;
    var n := |ClassText(cls)|;
    TextParts(pat, p, ClassText(cls), RepeatText(r));
    FirstOfClass(pat, p, cls);
    ClassReads((a, b) => true, pat, 0, p, cls);
    if r != Once { TextByte(pat, p + n, RepeatText(r), 0); }
    assert Parse(pat, p) == ParseItem(pat, p);
  }

  lemma BorderParses(pat: seq<Byte>, p: nat, inside: bool, es: seq<Element>)
    requires ElementsOk(es) && TextAt(pat, p, PieceText(Border(inside, es)))
    ensures Parse(pat, p) == Parsed(ItemAt(Border(inside, es), p), p + |PieceText(Border(inside, es))|)
  {
    hide SetText, ClassEnd;
    var a := ['%' as int, 'f' as int];
    TextParts(pat, p, a, SetText(inside, es));
    TextByte(pat, p, a, 0);
    TextByte(pat, p, a, 1);
    SetSplit(pat, p + 2, inside, es);
    SetReads((k, b) => true, pat, 0, p + 2, inside, es);
  }

  // ----- What a pattern matches -----

  lemma BytesFit(q: Problem, cls: Class, p: nat, i: nat)
    requires ClassOk(cls) && TextAt(q.pat, p, ClassText(cls))
    ensures q.Fits(i, p, p + |ClassText(cls)|) <==> i < |q.src| && q.src[i] in Members(q.ctype, cls)
  {
    hide ClassText, SingleMatch, Members;
    if i < |q.src| { ClassReads(q.ctype, q.pat, q.src[i], p, cls); }
  }

  lemma BytesSteps(q: Problem, cls: Class, r: Repeat, p: nat, s: nat, caps: seq<Capture>, e: nat, caps': seq<Capture>)
    requires ClassOk(cls) && TextAt(q.pat, p, ClassText(cls)) && s <= |q.src|
    ensures Step(q, RepeatItem(r, p, p + |ClassText(cls)|), s, caps, e, caps')
        <==> Takes(q, Bytes(cls, r), s, caps, e, caps')
  {
    hide Problem.Fits, ClassText, ClassOk, TextAt, Members;
    var to := p + |ClassText(cls)|;
    forall i: nat ensures q.Fits(i, p, to) <==> i < |q.src| && q.src[i] in Members(q.ctype, cls) {
      BytesFit(q, cls, p, i);
    }
    if s < e { assert q.AllFit(s, e, p, to) ==> q.Fits(e - 1, p, to); }
  }

  lemma BorderSteps(q: Problem, inside: bool, es: seq<Element>, p: nat, s: nat, caps: seq<Capture>, e: nat,
        caps': seq<Capture>)
    requires ElementsOk(es) && TextAt(q.pat, p, PieceText(Border(inside, es))) && s <= |q.src|
    ensures Step(q, ItemAt(Border(inside, es), p), s, caps, e, caps')
        <==> Takes(q, Border(inside, es), s, caps, e, caps')
  {
    hide SetText, InSet, Members;
    TextParts(q.pat, p, ['%' as int, 'f' as int], SetText(inside, es));
    SetReads(q.ctype, q.pat, if s > 0 then q.src[s - 1] else 0, p + 2, inside, es);
    SetReads(q.ctype, q.pat, At(q.src, s), p + 2, inside, es);
  }

  /** The item that a piece is read as takes what the piece takes. */
  lemma PieceSteps(q: Problem, x: Piece, p: nat, s: nat, caps: seq<Capture>, e: nat, caps': seq<Capture>)
    requires PieceOk(x) && TextAt(q.pat, p, PieceText(x)) && s <= |q.src|
    ensures Step(q, ItemAt(x, p), s, caps, e, caps') <==> Takes(q, x, s, caps, e, caps')
  {
    hide Step, Takes, TextAt, PieceText, ClassText, RepeatText, ItemAt, SetText, PieceOk;
    if x.Bytes? {
      BytesOk(x);
      BytesItem(x, p);
      TextParts(q.pat, p, ClassText(x.cls), RepeatText(x.rep));
      BytesSteps(q, x.cls, x.rep, p, s, caps, e, caps');
    } else if x.Border? {
      BorderOk(x);
      BorderSteps(q, x.inside, x.elems, p, s, caps, e, caps');
    } else {
      FixedSteps(q, x, p, s, caps, e, caps');
    }
  }

  lemma FixedSteps(q: Problem, x: Piece, p: nat, s: nat, caps: seq<Capture>, e: nat, caps': seq<Capture>)
    requires PieceOk(x) && s <= |q.src| && !x.Bytes? && !x.Border?
    ensures Step(q, ItemAt(x, p), s, caps, e, caps') <==> Takes(q, x, s, caps, e, caps')
  {
  }

  lemma BorderOk(x: Piece)
    requires PieceOk(x) && x.Border?
    ensures ElementsOk(x.elems) && x == Border(x.inside, x.elems)
  {
  }

  lemma BytesOk(x: Piece)
    requires PieceOk(x) && x.Bytes?
    ensures ClassOk(x.cls) && x == Bytes(x.cls, x.rep)
  {
  }

  lemma StepBound(q: Problem, item: Item, s: nat, caps: seq<Capture>, e: nat, caps': seq<Capture>)
    requires s <= |q.src| && Step(q, item, s, caps, e, caps')
    ensures e <= |q.src|
  {
    if s < e && (item.Star? || item.Plus? || item.Minus?) { assert q.Fits(e - 1, item.from, item.to); }
  }

  /** A pattern matches what its pieces match one after another. */
  lemma {:induction false} PatternMeans(q: Problem, p: nat, xs: seq<Piece>, s: nat, caps: seq<Capture>, e: nat,
        caps': seq<Capture>)
    requires PiecesOk(xs) && TextAt(q.pat, p, Text(xs)) && p + |Text(xs)| == |q.pat| && s <= |q.src|
    ensures Matches(q, p, s, caps, e, caps') <==> Accepts(q, xs, s, caps, e, caps')
    decreases |xs|
  {
    hide Parse, PieceText, Takes, Step, Text, ItemAt;
    if xs == [] {
      AtTheEnd(q, p, xs);
    } else {
      PiecesSplit(q.pat, p, xs);
      PieceParses(q.pat, p, xs);
      var item, next := ItemAt(xs[0], p), p + |PieceText(xs[0])|;
      forall m: nat, c: seq<Capture>
        ensures (Step(q, item, s, caps, m, c) && Matches(q, next, m, c, e, caps'))
            <==> (Takes(q, xs[0], s, caps, m, c) && Accepts(q, xs[1..], m, c, e, caps'))
      {
        PieceSteps(q, xs[0], p, s, caps, m, c);
        if Step(q, item, s, caps, m, c) {
          StepBound(q, item, s, caps, m, c);
          PatternMeans(q, next, xs[1..], m, c, e, caps');
        }
      }
    }
  }

  lemma AtTheEnd(q: Problem, p: nat, xs: seq<Piece>)
    requires xs == [] && p + |Text(xs)| == |q.pat|
    ensures Parse(q.pat, p) == EndOfPattern
  {
  }

  /** A digit after the escape refers to the capture of that number; if there is none, or it is not
      finished, that is an error. */
  lemma DigitRefers(q: Problem, p: nat, s: nat, caps: seq<Capture>, n: nat)
    requires CapsOk(q, s, caps) && At(q.pat, p) == '%' as int && n < 10 && At(q.pat, p + 1) == '0' as int + n
    ensures n == 0 || |caps| < n || caps[n - 1].Unfinished? ==> Try(q, p, s, caps) == Error
    ensures 0 < n <= |caps| && caps[n - 1].Finished? ==>
              var t := q.src[caps[n - 1].init..caps[n - 1].init + caps[n - 1].len];
              Try(q, p, s, caps) == if t <= q.src[s..] then Try(q, p + 2, s + |t|, caps) else Fail
  {
    assert Parse(q.pat, p) == Parsed(BackRef(n - 1), p + 2);
    hide Parse;
    if 0 < n <= |caps| && caps[n - 1].Finished? {
      var t := q.src[caps[n - 1].init..caps[n - 1].init + caps[n - 1].len];
      if t <= q.src[s..] {
        assert q.src[s..s + |t|] == q.src[s..][..|t|];
      } else if s + |t| <= |q.src| {
        assert q.src[s..][..|t|] == q.src[s..s + |t|];
      }
    }
  }

  /** The search on the text of a pattern finds a match of its pieces, if there is one. */
  lemma PatternTried(q: Problem, xs: seq<Piece>, s: nat)
    requires PiecesOk(xs) && q.pat == Text(xs) && s <= |q.src|
    ensures var r := Try(q, 0, s, []);
            && (r.Done? ==> Accepts(q, xs, s, [], r.end, r.caps))
            && (r.Fail? ==> forall e: nat, c: seq<Capture> :: !Accepts(q, xs, s, [], e, c))
  {
    hide Try, Matches, Accepts, Text;
    var r := Try(q, 0, s, []);
    if r.Done? {
      Sound(q, 0, s, []);
      PatternMeans(q, 0, xs, s, [], r.end, r.caps);
    } else if r.Fail? {
      FailsNone(q, 0, s, []);
      forall e: nat, c: seq<Capture> ensures !Accepts(q, xs, s, [], e, c) { PatternMeans(q, 0, xs, s, [], e, c); }
    }
  }
}
