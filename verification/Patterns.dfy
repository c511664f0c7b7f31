/** Lua patterns: what they mean, and the search order that finds a match. */
module Patterns {

  type Byte = b: int | 0 <= b < 256

  const MAX_CAPTURES := 32

  /** A capture: begun, finished with a length, or a position. */
  datatype Capture = Unfinished(init: nat) | Finished(init: nat, len: nat) | Position(init: nat)

  datatype Outcome = Fail | Done(end: nat, caps: seq<Capture>) | Error

  /** One step of a pattern. */
  datatype Item =
    | Single(from: nat, to: nat)
    | Optional(from: nat, to: nat)
    | Star(from: nat, to: nat)
    | Plus(from: nat, to: nat)
    | Minus(from: nat, to: nat)
    | Frontier(from: nat, to: nat)
    | Open
    | PositionCapture
    | Close
    | BackRef(l: int)
    | Balance(open: Byte, close: Byte)
    | AtEnd

  /** The item at a place of the pattern and the place after it. */
  datatype Parsed = Parsed(item: Item, next: nat) | EndOfPattern | Malformed

  // ----- Reading a pattern; a zero ends it -----

  function At(pat: seq<Byte>, p: nat): Byte {
    if p < |pat| then pat[p] else 0
  }

  predicate IsDigit(c: Byte) {
    '0' as int <= c <= '9' as int
  }

  /** Past the `]` that ends a set, if there is one: the first byte after p is
      in the set whatever it is. */
  function SetEnd(pat: seq<Byte>, p: nat): (r: int)
    ensures r == -1 || p + 2 <= r <= |pat|
    decreases |pat| - p
  {
    if At(pat, p) == 0 then -1 else
      var q := if At(pat, p) == '%' as int && At(pat, p + 1) != 0 then p + 2 else p + 1;
      if At(pat, q) == ']' as int then q + 1 else SetEnd(pat, q)
  }

  /** Past the single-character class at p, or -1 if it is malformed. */
  function ClassEnd(pat: seq<Byte>, p: nat): (r: int)
    requires p < |pat|
    ensures r == -1 || p + 1 <= r <= |pat|
  {
    if pat[p] == '%' as int then
      if At(pat, p + 1) == 0 then -1 else p + 2
    else if pat[p] == '[' as int then
      SetEnd(pat, if At(pat, p + 1) == '^' as int then p + 2 else p + 1)
    else
      p + 1
  }

  function ParseItem(pat: seq<Byte>, p: nat): Parsed
    requires p < |pat|
  {
    var ep := ClassEnd(pat, p);
    if ep == -1 then Malformed
    else if At(pat, ep) == '?' as int then Parsed(Optional(p, ep), ep + 1)
    else if At(pat, ep) == '*' as int then Parsed(Star(p, ep), ep + 1)
    else if At(pat, ep) == '+' as int then Parsed(Plus(p, ep), ep + 1)
    else if At(pat, ep) == '-' as int then Parsed(Minus(p, ep), ep + 1)
    else Parsed(Single(p, ep), ep)
  }

  function Parse(pat: seq<Byte>, p: nat): (r: Parsed)
    ensures r.Parsed? ==> p < r.next <= |pat|
    ensures r.EndOfPattern? <==> At(pat, p) == 0
  {
    var c := At(pat, p);
    if c == 0 then EndOfPattern
    else if c == '(' as int then
      if At(pat, p + 1) == ')' as int then Parsed(PositionCapture, p + 2) else Parsed(Open, p + 1)
    else if c == ')' as int then Parsed(Close, p + 1)
    else if c == '%' as int && At(pat, p + 1) == 'b' as int then
      if At(pat, p + 2) == 0 || At(pat, p + 3) == 0 then Malformed
      else Parsed(Balance(At(pat, p + 2), At(pat, p + 3)), p + 4)
    else if c == '%' as int && At(pat, p + 1) == 'f' as int then
      if At(pat, p + 2) != '[' as int then Malformed
      else
        var ep := ClassEnd(pat, p + 2);
        if ep == -1 then Malformed else Parsed(Frontier(p + 2, ep - 1), ep)
    else if c == '%' as int && IsDigit(At(pat, p + 1)) then Parsed(BackRef(At(pat, p + 1) - '1' as int), p + 2)
    else if c == '$' as int && At(pat, p + 1) == 0 then Parsed(AtEnd, p + 1)
    else ParseItem(pat, p)
  }

  // ----- Character classes -----

  function ToLower(c: Byte): Byte {
    if 'A' as int <= c <= 'Z' as int then c + 32 else c
  }

  predicate IsLower(c: Byte) {
    'a' as int <= c <= 'z' as int
  }

  /** The letters that name classes. */
  predicate IsClassLetter(c: Byte) {
    c in {'a' as int, 'c' as int, 'd' as int, 'l' as int, 'p' as int, 's' as int, 'u' as int, 'w' as int, 'x' as int,
          'z' as int}
  }

  /** The class that an escaped byte names; ctype says what is in one. */
  predicate MatchClass(ctype: (Byte, Byte) -> bool, c: Byte, cl: Byte) {
    var k := ToLower(cl);
    if !IsClassLetter(k) then cl == c
    else
      var res := if k == 'z' as int then c == 0 else ctype(k, c);
      if IsLower(cl) then res else !res
  }

  /** Byte c is in the list of single bytes, ranges and classes from p up to the `]` at ec. */
  predicate InList(ctype: (Byte, Byte) -> bool, pat: seq<Byte>, c: Byte, p: nat, ec: nat)
    decreases ec - p
  {
    if ec <= p then false
    else if At(pat, p) == '%' as int then
      MatchClass(ctype, c, At(pat, p + 1)) || InList(ctype, pat, c, p + 2, ec)
    else if At(pat, p + 1) == '-' as int && p + 2 < ec then
      At(pat, p) <= c <= At(pat, p + 2) || InList(ctype, pat, c, p + 3, ec)
    else
      At(pat, p) == c || InList(ctype, pat, c, p + 1, ec)
  }

  /** The set from the `[` at p to the `]` at ec. */
  predicate InSet(ctype: (Byte, Byte) -> bool, pat: seq<Byte>, c: Byte, p: nat, ec: nat) {
    if At(pat, p + 1) == '^' as int then !InList(ctype, pat, c, p + 2, ec) else InList(ctype, pat, c, p + 1, ec)
  }

  /** The class at p, which ends before ep. */
  predicate SingleMatch(ctype: (Byte, Byte) -> bool, pat: seq<Byte>, c: Byte, p: nat, ep: nat)
    requires 0 < ep
  {
    if At(pat, p) == '.' as int then true
    else if At(pat, p) == '%' as int then MatchClass(ctype, c, At(pat, p + 1))
    else if At(pat, p) == '[' as int then InSet(ctype, pat, c, p, ep - 1)
    else At(pat, p) == c
  }

  /** Subject, pattern and classes of a match. */
  datatype Problem = Problem(src: seq<Byte>, pat: seq<Byte>, ctype: (Byte, Byte) -> bool) {
    /** The byte at place s of the subject is there and in the class. */
    predicate Fits(s: nat, from: nat, to: nat) {
      s < |src| && 0 < to && SingleMatch(ctype, pat, src[s], from, to)
    }

    /** All bytes from s to e are. */
    ghost predicate AllFit(s: nat, e: nat, from: nat, to: nat) {
      forall i :: s <= i < e ==> Fits(i, from, to)
    }

    /** How often the class fits from s on. */
    function Run(s: nat, from: nat, to: nat): (n: nat)
      ensures s <= |src| ==> s + n <= |src|
      ensures forall i :: s <= i < s + n ==> Fits(i, from, to)
      ensures !Fits(s + n, from, to)
      decreases |src| - s
    {
      if Fits(s, from, to) then 1 + Run(s + 1, from, to) else 0
    }
  }

  // ----- Balanced strings -----

  /** How deep in brackets one is after byte k, starting with depth d at byte j. A
      closing bracket is looked for first. */
  function Depth(src: seq<Byte>, b: Byte, e: Byte, d: int, j: nat, k: nat): int
    requires j <= k <= |src|
    decreases k - j
  {
    if j == k then d
    else Depth(src, b, e, if src[j] == e then d - 1 else if src[j] == b then d + 1 else d, j + 1, k)
  }

  /** From j, at depth d, one is still in brackets after byte k. */
  ghost predicate Inside(src: seq<Byte>, b: Byte, c: Byte, d: int, j: nat, k: nat) {
    j <= k <= |src| && 0 < Depth(src, b, c, d, j, k)
  }

  /** From j, at depth d, e is the first place at which the depth is zero. */
  ghost predicate Closes(src: seq<Byte>, b: Byte, c: Byte, d: int, j: nat, e: nat) {
    j < e <= |src| && Depth(src, b, c, d, j, e) == 0 && forall k :: j <= k < e ==> Inside(src, b, c, d, j, k)
  }

  /** From s to e is a balanced string. */
  ghost predicate Balanced(src: seq<Byte>, b: Byte, c: Byte, s: nat, e: nat) {
    s < |src| && src[s] == b && Closes(src, b, c, 1, s + 1, e)
  }

  // ----- What a pattern means -----

  /** The last capture begun and not finished, or -1. */
  function LastOpen(caps: seq<Capture>): (l: int)
    ensures -1 <= l < |caps|
    ensures 0 <= l ==> caps[l].Unfinished? && forall i :: l < i < |caps| ==> !caps[i].Unfinished?
    ensures l == -1 ==> forall i :: 0 <= i < |caps| ==> !caps[i].Unfinished?
  {
    if caps == [] then -1
    else if caps[|caps| - 1].Unfinished? then |caps| - 1
    else LastOpen(caps[..|caps| - 1])
  }

  /** The part of the subject that a back reference stands for is found at s. */
  predicate SameText(src: seq<Byte>, init: nat, len: nat, s: nat) {
    init + len <= |src| && s + len <= |src| && src[init..init + len] == src[s..s + len]
  }

  /** The byte before s is not in the set and the byte at s is; there are zeros
      before and after the subject. */
  predicate AtFrontier(q: Problem, s: nat, p: nat, ec: nat) {
    !InSet(q.ctype, q.pat, if 0 < s <= |q.src| then q.src[s - 1] else 0, p, ec)
          && InSet(q.ctype, q.pat, At(q.src, s), p, ec)
  }

  /** An item takes the match from s to e, and the captures from caps to caps'. */
  ghost predicate Step(q: Problem, item: Item, s: nat, caps: seq<Capture>, e: nat, caps': seq<Capture>) {
    match item
    case Single(p, ep) => q.Fits(s, p, ep) && e == s + 1 && caps' == caps
    case Optional(p, ep) => (e == s || (q.Fits(s, p, ep) && e == s + 1)) && caps' == caps
    case Star(p, ep) => s <= e && q.AllFit(s, e, p, ep) && caps' == caps
    case Plus(p, ep) => s < e && q.AllFit(s, e, p, ep) && caps' == caps
    case Minus(p, ep) => s <= e && q.AllFit(s, e, p, ep) && caps' == caps
    case Frontier(p, ep) =>
      AtFrontier(q, s, p, ep) && e == s && caps' == caps
    case Open => |caps| < MAX_CAPTURES && e == s && caps' == caps + [Unfinished(s)]
    case PositionCapture => |caps| < MAX_CAPTURES && e == s && caps' == caps + [Position(s)]
    case Close =>
      var l := LastOpen(caps);
      0 <= l && e == s && caps[l].init <= s && caps' == caps[l := Finished(caps[l].init, s - caps[l].init)]
    case BackRef(l) =>
      0 <= l < |caps| && caps[l].Finished? && SameText(q.src, caps[l].init, caps[l].len, s) && e == s + caps[l].len
            && caps' == caps
    case Balance(b, c) => Balanced(q.src, b, c, s, e) && caps' == caps
    case AtEnd => s == |q.src| && e == s && caps' == caps
  }

  /** The pattern from p on matches the subject from s to e: its items match one
      after another. */
  ghost predicate Matches(q: Problem, p: nat, s: nat, caps: seq<Capture>, e: nat, caps': seq<Capture>)
    decreases |q.pat| - p
  {
    match Parse(q.pat, p)
    case EndOfPattern => e == s && caps' == caps
    case Malformed => false
    case Parsed(item, next) => exists m: nat, c: seq<Capture> ::
          Step(q, item, s, caps, m, c) && Matches(q, next, m, c, e, caps')
  }

  // ----- How a match is looked for -----

  /** Captures lie before the place the match has come to. */
  ghost predicate CapsOk(q: Problem, s: nat, caps: seq<Capture>) {
    s <= |q.src| && forall i :: 0 <= i < |caps| ==>
          caps[i].init <= s && (caps[i].Finished? ==> caps[i].init + caps[i].len <= s)
  }

  lemma FurtherOn(q: Problem, s: nat, e: nat, caps: seq<Capture>)
    requires CapsOk(q, s, caps) && s <= e <= |q.src|
    ensures CapsOk(q, e, caps)
  {
  }

  /** The end of the balanced string at j, at depth d, or -1. */
  function BalanceEnd(src: seq<Byte>, b: Byte, c: Byte, d: int, j: nat): (r: int)
    requires j <= |src|
    ensures r == -1 || j < r <= |src|
    decreases |src| - j
  {
    if j == |src| then -1
    else if src[j] == c then (if d - 1 == 0 then j + 1 else BalanceEnd(src, b, c, d - 1, j + 1))
    else BalanceEnd(src, b, c, if src[j] == b then d + 1 else d, j + 1)
  }

  function MatchBalance(src: seq<Byte>, b: Byte, c: Byte, s: nat): (r: int)
    requires s <= |src|
    ensures r == -1 || s < r <= |src|
  {
    if At(src, s) != b || s == |src| then -1 else BalanceEnd(src, b, c, 1, s + 1)
  }

  /** The outcome for the pattern from p on at place s of the subject. */
  function Try(q: Problem, p: nat, s: nat, caps: seq<Capture>): (r: Outcome)
    requires CapsOk(q, s, caps)
    decreases |q.pat| - p, 0, 0
  {
    match Parse(q.pat, p)
    case EndOfPattern => Done(s, caps)
    case Malformed => Error
    case Parsed(item, next) =>
      match item
      case Single(a, b) => if q.Fits(s, a, b) then Try(q, next, s + 1, caps) else Fail
      case Optional(a, b) =>
        var res := if q.Fits(s, a, b) then Try(q, next, s + 1, caps) else Fail;
        if res != Fail then res else Try(q, next, s, caps)
      case Star(a, b) => MaxExpand(q, next, s, q.Run(s, a, b), caps)
      case Plus(a, b) => if q.Fits(s, a, b) then MaxExpand(q, next, s + 1, q.Run(s + 1, a, b), caps) else Fail
      case Minus(a, b) => MinExpand(q, next, s, a, b, caps)
      case Frontier(a, b) => if AtFrontier(q, s, a, b) then Try(q, next, s, caps) else Fail
      case Open => if |caps| >= MAX_CAPTURES then Error else Try(q, next, s, caps + [Unfinished(s)])
      case PositionCapture => if |caps| >= MAX_CAPTURES then Error else Try(q, next, s, caps + [Position(s)])
      case Close =>
        var l := LastOpen(caps);
        if l < 0 then Error else Try(q, next, s, caps[l := Finished(caps[l].init, s - caps[l].init)])
      case BackRef(l) =>
        if l < 0 || |caps| <= l || caps[l].Unfinished? then Error
        else if caps[l].Finished?
              && SameText(q.src, caps[l].init, caps[l].len, s) then Try(q, next, s + caps[l].len, caps)
        else Fail
      case Balance(b, c) =>
        var e := MatchBalance(q.src, b, c, s);
        if e == -1 then Fail else Try(q, next, e, caps)
      case AtEnd => if s == |q.src| then Try(q, next, s, caps) else Fail
  }

  /** The rest of the pattern, after as many as n repetitions, or fewer. */
  function MaxExpand(q: Problem, next: nat, s: nat, n: nat, caps: seq<Capture>): (r: Outcome)
    requires CapsOk(q, s, caps) && s + n <= |q.src|
    decreases |q.pat| - next, 1, n
  {
    var res := Try(q, next, s + n, caps);
    if res != Fail then res else if n == 0 then Fail else MaxExpand(q, next, s, n - 1, caps)
  }

  /** The rest of the pattern, after no repetition, or more. */
  function MinExpand(q: Problem, next: nat, s: nat, a: nat, b: nat, caps: seq<Capture>): (r: Outcome)
    requires CapsOk(q, s, caps)
    decreases |q.pat| - next, 1, |q.src| - s
  {
    var res := Try(q, next, s, caps);
    if res != Fail then res else if q.Fits(s, a, b) then MinExpand(q, next, s + 1, a, b, caps) else Fail
  }

  // ----- It finds what the pattern means -----

  /** Repetitions that fit end within the run. */
  lemma {:induction false} RunFits(q: Problem, s: nat, a: nat, b: nat, e: nat)
    requires s <= e
    ensures q.AllFit(s, e, a, b) <==> e <= s + q.Run(s, a, b)
  {
    if s + q.Run(s, a, b) < e { assert !q.Fits(s + q.Run(s, a, b), a, b); }
  }

  lemma {:induction false} BalanceFound(src: seq<Byte>, b: Byte, c: Byte, d: int, j: nat, e: nat)
    requires j <= |src| && 0 < d
    ensures BalanceEnd(src, b, c, d, j) == e <==> Closes(src, b, c, d, j, e)
    decreases |src| - j
  {
    if j < |src| {
      var d', j' := if src[j] == c then d - 1 else if src[j] == b then d + 1 else d, j + 1;
      forall k | j' <= k <= |src| ensures Depth(src, b, c, d, j, k) == Depth(src, b, c, d', j', k) { }
      if 0 < d' {
        BalanceFound(src, b, c, d', j', e);
        if Closes(src, b, c, d, j, e) {
          forall k | j' <= k < e ensures Inside(src, b, c, d', j', k) { assert Inside(src, b, c, d, j, k); }
        }
        if Closes(src, b, c, d', j', e) {
          forall k | j <= k < e
                ensures Inside(src, b, c, d, j, k) { if j' <= k { assert Inside(src, b, c, d', j', k); } }
        }
      } else if Closes(src, b, c, d, j, e) {
        assert j' < e ==> Inside(src, b, c, d, j, j');
      }
    }
  }

  /** The balanced string at s, if there is one, is found. */
  lemma MatchBalanced(src: seq<Byte>, b: Byte, c: Byte, s: nat, e: nat)
    requires s <= |src| && b != 0
    ensures MatchBalance(src, b, c, s) == e <==> Balanced(src, b, c, s, e)
  {
    if s < |src| { BalanceFound(src, b, c, 1, s + 1, e); }
  }

  // ----- Sound and complete -----

  /** What one item hands on to the rest of the pattern. */
  lemma StepCaps(q: Problem, item: Item, s: nat, caps: seq<Capture>, e: nat, caps': seq<Capture>)
    requires Step(q, item, s, caps, e, caps') && CapsOk(q, s, caps)
    ensures s <= e && CapsOk(q, e, caps')
  {
    match item
    case Star(a, b) => RunFits(q, s, a, b, e);
    case Plus(a, b) => RunFits(q, s, a, b, e);
    case Minus(a, b) => RunFits(q, s, a, b, e);
    case _ =>
  }

  ghost predicate Fails(q: Problem, next: nat, s: nat, caps: seq<Capture>) {
    CapsOk(q, s, caps) && Try(q, next, s, caps) == Fail
  }

  /** The rest of the pattern is tried at e, and at no place after that one, up to
      n repetitions, can it be matched. */
  lemma {:induction false} MaxFinds(q: Problem, next: nat, s: nat, n: nat, caps: seq<Capture>) returns (e: nat)
    requires CapsOk(q, s, caps) && s + n <= |q.src|
    ensures s <= e <= s + n && MaxExpand(q, next, s, n, caps) == Try(q, next, e, caps)
    ensures forall k: nat :: e < k <= s + n ==> Fails(q, next, k, caps)
    ensures Try(q, next, e, caps) == Fail ==> e == s
    decreases n
  {
    hide Try;
    if Try(q, next, s + n, caps) != Fail || n == 0 {
      e := s + n;
    } else {
      e := MaxFinds(q, next, s, n - 1, caps);
    }
  }

  /** The rest of the pattern is tried at e, and at no place before that one can it
      be matched. */
  lemma {:induction false} MinFinds(q: Problem, next: nat, s: nat, a: nat, b: nat, caps: seq<Capture>) returns (e: nat)
    requires CapsOk(q, s, caps)
    ensures s <= e <= s + q.Run(s, a, b) && e <= |q.src| && MinExpand(q, next, s, a, b, caps) == Try(q, next, e, caps)
    ensures forall k: nat :: s <= k < e ==> Fails(q, next, k, caps)
    ensures Try(q, next, e, caps) == Fail ==> e == s + q.Run(s, a, b)
    decreases |q.src| - s
  {
    hide Try;
    if Try(q, next, s, caps) != Fail || !q.Fits(s, a, b) {
      e := s;
    } else {
      e := MinFinds(q, next, s + 1, a, b, caps);
    }
  }

  lemma ParsedBalance(pat: seq<Byte>, p: nat)
    requires Parse(pat, p).Parsed?
    ensures Parse(pat, p).item.Balance? ==> Parse(pat, p).item.open != 0
  {
  }

  predicate Repeats(item: Item) {
    item.Star? || item.Plus? || item.Minus?
  }

  /** For a repetition, the place where the rest of the pattern is matched; when it
      cannot be matched there, it cannot after any number of repetitions. */
  lemma RunPlace(q: Problem, p: nat, s: nat, caps: seq<Capture>) returns (m: nat)
    requires CapsOk(q, s, caps) && Parse(q.pat, p).Parsed? && Repeats(Parse(q.pat, p).item)
    requires Parse(q.pat, p).item.Plus? ==> q.Fits(s, Parse(q.pat, p).item.from, Parse(q.pat, p).item.to)
    ensures Step(q, Parse(q.pat, p).item, s, caps, m, caps) && CapsOk(q, m, caps)
    ensures Try(q, Parse(q.pat, p).next, m, caps) == Try(q, p, s, caps)
    ensures Try(q, p, s, caps) == Fail ==>
              forall k: nat :: Step(q, Parse(q.pat, p).item, s, caps, k, caps)
                    ==> Fails(q, Parse(q.pat, p).next, k, caps)
  {
    hide Parse, SingleMatch;
    var item, next := Parse(q.pat, p).item, Parse(q.pat, p).next;
    if item.Star? {
      m := MaxFinds(q, next, s, q.Run(s, item.from, item.to), caps);
    } else if item.Plus? {
      m := MaxFinds(q, next, s + 1, q.Run(s + 1, item.from, item.to), caps);
    } else {
      m := MinFinds(q, next, s, item.from, item.to, caps);
    }
    RunFits(q, s, item.from, item.to, m);
    forall k: nat | Try(q, p, s, caps) == Fail && Step(q, item, s, caps, k, caps) ensures Fails(q, next, k, caps) {
      RunFits(q, s, item.from, item.to, k);
    }
  }

  /** The outcome for one item, in terms of a place and captures it hands on; d is
      the outcome of the rest of the pattern there. */
  lemma Chosen(q: Problem, p: nat, s: nat, caps: seq<Capture>) returns (m: nat, c: seq<Capture>)
    requires CapsOk(q, s, caps) && Parse(q.pat, p).Parsed? && Try(q, p, s, caps).Done?
    ensures Step(q, Parse(q.pat, p).item, s, caps, m, c) && CapsOk(q, m, c)
    ensures Try(q, Parse(q.pat, p).next, m, c) == Try(q, p, s, caps)
  {
    ParsedBalance(q.pat, p);
    hide Parse, AtFrontier, Balanced, SingleMatch, MatchBalance;
    var item, next := Parse(q.pat, p).item, Parse(q.pat, p).next;
    m, c := s, caps;
    if Repeats(item) {
      m := RunPlace(q, p, s, caps);
      return;
    }
    match item {
      case Single(a, b) => m := s + 1;
      case Optional(a, b) => if q.Fits(s, a, b) && Try(q, next, s + 1, caps) != Fail { m := s + 1; }
      case Open => c := caps + [Unfinished(s)];
      case PositionCapture => c := caps + [Position(s)];
      case Close =>
        var l := LastOpen(caps);
        c := caps[l := Finished(caps[l].init, s - caps[l].init)];
      case BackRef(l) => m := s + caps[l].len;
      case Balance(b, e) =>
        m := MatchBalance(q.src, b, e, s);
        MatchBalanced(q.src, b, e, s, m);
      case _ =>
    }
  }

  /** What is found is a match. */
  lemma {:induction false} Sound(q: Problem, p: nat, s: nat, caps: seq<Capture>)
    requires CapsOk(q, s, caps) && Try(q, p, s, caps).Done?
    ensures var r := Try(q, p, s, caps); Matches(q, p, s, caps, r.end, r.caps)
    decreases |q.pat| - p
  {
    match Parse(q.pat, p)
    case EndOfPattern =>
    case Parsed(item, next) =>
      var m, c := Chosen(q, p, s, caps);
      Sound(q, next, m, c);
  }

  /** If an item can hand on to a place where the rest of the pattern can be
      matched, the whole does not fail. */
  lemma StepTried(q: Problem, p: nat, s: nat, caps: seq<Capture>, m: nat, c: seq<Capture>)
    requires CapsOk(q, s, caps) && Parse(q.pat, p).Parsed? && Step(q, Parse(q.pat, p).item, s, caps, m, c)
    requires CapsOk(q, m, c) && Try(q, Parse(q.pat, p).next, m, c) != Fail
    ensures Try(q, p, s, caps) != Fail
  {
    ParsedBalance(q.pat, p);
    hide Parse, AtFrontier, Balanced, SingleMatch, MatchBalance;
    var item, next := Parse(q.pat, p).item, Parse(q.pat, p).next;
    if Repeats(item) {
      var k := RunPlace(q, p, s, caps);
      assert !Fails(q, next, m, caps);
      return;
    }
    match item {
      case Balance(b, e) => MatchBalanced(q.src, b, e, s, m);
      case _ =>
    }
  }

  /** Whatever the pattern matches, the search does not fail. */
  lemma {:induction false} Complete(q: Problem, p: nat, s: nat, caps: seq<Capture>, e: nat, c: seq<Capture>)
    requires CapsOk(q, s, caps) && Matches(q, p, s, caps, e, c)
    ensures Try(q, p, s, caps) != Fail
    decreases |q.pat| - p
  {
    match Parse(q.pat, p)
    case EndOfPattern =>
    case Parsed(item, next) =>
      var m: nat, d: seq<Capture> :| Step(q, item, s, caps, m, d) && Matches(q, next, m, d, e, c);
      StepCaps(q, item, s, caps, m, d);
      Complete(q, next, m, d, e, c);
      StepTried(q, p, s, caps, m, d);
  }

  // ----- Preference -----

  /** The pattern from p on matches nothing at s. */
  ghost predicate NoMatch(q: Problem, p: nat, s: nat, caps: seq<Capture>) {
    forall e: nat, c: seq<Capture> :: !Matches(q, p, s, caps, e, c)
  }

  lemma FailsNone(q: Problem, p: nat, s: nat, caps: seq<Capture>)
    requires CapsOk(q, s, caps)
    ensures Try(q, p, s, caps) == Fail ==> NoMatch(q, p, s, caps)
  {
    hide Try, Matches;
    if Try(q, p, s, caps) == Fail {
      forall e: nat, c: seq<Capture> ensures !Matches(q, p, s, caps, e, c) {
        if Matches(q, p, s, caps, e, c) { Complete(q, p, s, caps, e, c); }
      }
    }
  }

  /** With `*`, the rest of the pattern is matched after the most repetitions
      after which it can be; with `+` too, after one at least. */
  lemma PrefersLongest(q: Problem, p: nat, s: nat, caps: seq<Capture>) returns (m: nat)
    requires CapsOk(q, s, caps) && Parse(q.pat, p).Parsed? && Try(q, p, s, caps).Done?
    requires Parse(q.pat, p).item.Star? || Parse(q.pat, p).item.Plus?
    ensures var it, next := Parse(q.pat, p).item, Parse(q.pat, p).next;
      && Step(q, it, s, caps, m, caps) && m <= |q.src| && Try(q, p, s, caps) == Try(q, next, m, caps)
      && forall k: nat :: m < k && q.AllFit(s, k, it.from, it.to) ==> NoMatch(q, next, k, caps)
  {
    hide Parse;
    var item, next := Parse(q.pat, p).item, Parse(q.pat, p).next;
    if item.Star? {
      m := MaxFinds(q, next, s, q.Run(s, item.from, item.to), caps);
    } else {
      m := MaxFinds(q, next, s + 1, q.Run(s + 1, item.from, item.to), caps);
    }
    RunFits(q, s, item.from, item.to, m);
    hide Try, Matches;
    forall k: nat | m < k && q.AllFit(s, k, item.from, item.to) ensures NoMatch(q, next, k, caps) {
      RunFits(q, s, item.from, item.to, k);
      assert Fails(q, next, k, caps);
      FailsNone(q, next, k, caps);
    }
  }

  /** With `-`, after the fewest. */
  lemma PrefersShortest(q: Problem, p: nat, s: nat, caps: seq<Capture>) returns (m: nat)
    requires CapsOk(q, s, caps) && Parse(q.pat, p).Parsed? && Parse(q.pat, p).item.Minus? && Try(q, p, s, caps).Done?
    ensures var it, next := Parse(q.pat, p).item, Parse(q.pat, p).next;
      && Step(q, it, s, caps, m, caps) && m <= |q.src| && Try(q, p, s, caps) == Try(q, next, m, caps)
      && forall k: nat :: s <= k < m ==> NoMatch(q, next, k, caps)
  {
    hide Parse;
    var item, next := Parse(q.pat, p).item, Parse(q.pat, p).next;
    m := MinFinds(q, next, s, item.from, item.to, caps);
    RunFits(q, s, item.from, item.to, m);
    hide Try, Matches;
    forall k: nat | s <= k < m ensures NoMatch(q, next, k, caps) {
      assert Fails(q, next, k, caps);
      FailsNone(q, next, k, caps);
    }
  }

  /** With `?`, after one if that can be. */
  lemma PrefersOne(q: Problem, p: nat, s: nat, caps: seq<Capture>, e: nat, c: seq<Capture>)
    requires CapsOk(q, s, caps) && Parse(q.pat, p).Parsed? && Parse(q.pat, p).item.Optional?
    requires var it := Parse(q.pat, p).item;
          q.Fits(s, it.from, it.to) && Matches(q, Parse(q.pat, p).next, s + 1, caps, e, c)
    ensures Try(q, p, s, caps) == Try(q, Parse(q.pat, p).next, s + 1, caps)
  {
    Complete(q, Parse(q.pat, p).next, s + 1, caps, e, c);
  }

  // ----- Well-formed patterns -----

  /** No item from p on is malformed, closes or refers to a capture that is not
      there, or begins one too many, after captures like caps. */
  predicate WellFormed(pat: seq<Byte>, p: nat, caps: seq<Capture>)
    decreases |pat| - p
  {
    match Parse(pat, p)
    case EndOfPattern => true
    case Malformed => false
    case Parsed(item, next) =>
      match item
      case Open => |caps| < MAX_CAPTURES && WellFormed(pat, next, caps + [Unfinished(0)])
      case PositionCapture => |caps| < MAX_CAPTURES && WellFormed(pat, next, caps + [Position(0)])
      case Close => 0 <= LastOpen(caps) && WellFormed(pat, next, caps[LastOpen(caps) := Finished(0, 0)])
      case BackRef(l) => 0 <= l < |caps| && !caps[l].Unfinished? && WellFormed(pat, next, caps)
      case _ => WellFormed(pat, next, caps)
  }

  /** Captures of the same kinds. */
  ghost predicate Alike(a: seq<Capture>, b: seq<Capture>) {
    |a| == |b| && forall i :: 0 <= i < |a| ==> a[i].Unfinished? == b[i].Unfinished? && a[i].Finished? == b[i].Finished?
  }

  lemma AlikeOpen(a: seq<Capture>, b: seq<Capture>)
    requires Alike(a, b)
    ensures LastOpen(a) == LastOpen(b)
  {
  }

  /** A well-formed pattern raises no error on any subject. */
  lemma {:induction false} NoError(q: Problem, p: nat, s: nat, caps: seq<Capture>, shape: seq<Capture>)
    requires CapsOk(q, s, caps) && Alike(caps, shape) && WellFormed(q.pat, p, shape)
    ensures Try(q, p, s, caps) != Error
    decreases |q.pat| - p
  {
    match Parse(q.pat, p)
    case EndOfPattern =>
    case Parsed(item, next) =>
      AlikeOpen(caps, shape);
      match item {
        case Open => NoError(q, next, s, caps + [Unfinished(s)], shape + [Unfinished(0)]);
        case PositionCapture => NoError(q, next, s, caps + [Position(s)], shape + [Position(0)]);
        case Close =>
          var l := LastOpen(caps);
          NoError(q, next, s, caps[l := Finished(caps[l].init, s - caps[l].init)], shape[l := Finished(0, 0)]);
        case _ =>
          assert WellFormed(q.pat, next, shape);
          forall m: nat | CapsOk(q, m, caps)
                ensures Try(q, next, m, caps) != Error { NoError(q, next, m, caps, shape); }
          NoErrorItem(q, p, s, caps);
      }
  }

  /** One that is not matches nothing: the search ends in failure or in an error. */
  lemma {:induction false} MatchedWell(q: Problem, p: nat, s: nat, caps: seq<Capture>, e: nat, c: seq<Capture>,
        shape: seq<Capture>)
    requires Matches(q, p, s, caps, e, c) && Alike(caps, shape)
    ensures WellFormed(q.pat, p, shape)
    decreases |q.pat| - p
  {
    hide Parse;
    match Parse(q.pat, p)
    case EndOfPattern =>
    case Parsed(item, next) =>
      AlikeOpen(caps, shape);
      var m: nat, d: seq<Capture> :| Step(q, item, s, caps, m, d) && Matches(q, next, m, d, e, c);
      NextBound(q.pat, p);
      match item {
        case Open => MatchedWell(q, next, m, d, e, c, shape + [Unfinished(0)]);
        case PositionCapture => MatchedWell(q, next, m, d, e, c, shape + [Position(0)]);
        case Close => MatchedWell(q, next, m, d, e, c, shape[LastOpen(caps) := Finished(0, 0)]);
        case _ => MatchedWell(q, next, m, d, e, c, shape);
      }
  }

  lemma NextBound(pat: seq<Byte>, p: nat)
    ensures Parse(pat, p).Parsed? ==> p < Parse(pat, p).next <= |pat|
  {
  }

  lemma NoErrorItem(q: Problem, p: nat, s: nat, caps: seq<Capture>)
    requires CapsOk(q, s, caps) && Parse(q.pat, p).Parsed?
          && (forall m: nat :: CapsOk(q, m, caps) ==> Try(q, Parse(q.pat, p).next, m, caps) != Error)
    requires var item := Parse(q.pat, p).item;
             !item.Open? && !item.PositionCapture? && !item.Close?
                   && (item.BackRef? ==> 0 <= item.l < |caps| && !caps[item.l].Unfinished?)
    ensures Try(q, p, s, caps) != Error
  {
    ParsedBalance(q.pat, p);
    hide Parse, AtFrontier, Balanced, SingleMatch, MatchBalance;
    var item, next := Parse(q.pat, p).item, Parse(q.pat, p).next;
    if Repeats(item) && (item.Plus? ==> q.Fits(s, item.from, item.to)) {
      var k := RunPlace(q, p, s, caps);
    }
  }
}
