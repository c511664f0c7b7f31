/** The pattern matcher: a search with backtracking over one set of captures,
    updated in place and put back when a way fails. */
module Matcher {
  import opened Patterns

  datatype Result = NoMatch | MatchEnd(end: nat) | PatternError

  /** A result, or a jump to another place of the subject and of the pattern. */
  datatype Move = Return(r: Result) | Goto(s: nat, p: nat)

  class MatchState {
    const src: seq<Byte>
    const pat: seq<Byte>
    /** What byte is in what class of characters. */
    const ctype: (Byte, Byte) -> bool
    var level: nat
    const capture: array<Capture>

    ghost predicate Valid()
      reads this, capture
    {
      capture.Length == MAX_CAPTURES && level <= MAX_CAPTURES
    }

    ghost function Q(): Problem {
      Problem(src, pat, ctype)
    }

    ghost function Caps(): seq<Capture>
      reads this, capture
      requires Valid()
    {
      capture[..level]
    }

    constructor (src: seq<Byte>, pat: seq<Byte>, ctype: (Byte, Byte) -> bool)
      ensures Valid() && Caps() == [] && this.src == src && this.pat == pat && this.ctype == ctype && fresh(capture)
    {
      this.src, this.pat, this.ctype := src, pat, ctype;
      level := 0;
      capture := new Capture[MAX_CAPTURES](i => Position(0));
    }

    // ----- Classes -----

    method ClassEndAt(p: nat) returns (ep: int)
      requires p < |pat|
      ensures ep == ClassEnd(pat, p)
    {
      var q := p + 1;
      if pat[p] == '%' as int {
        if At(pat, q) == 0 { return -1; }
        return q + 1;
      } else if pat[p] == '[' as int {
        if At(pat, q) == '^' as int { q := q + 1; }
        while true
          invariant p < q && SetEnd(pat, q) == ClassEnd(pat, p)
          decreases |pat| - q
        {
          if At(pat, q) == 0 { return -1; }
          q := q + 1;
          if At(pat, q - 1) == '%' as int && At(pat, q) != 0 { q := q + 1; }
          if At(pat, q) == ']' as int { return q + 1; }
        }
      } else {
        return q;
      }
    }

    /** Whether c is in the set that begins at p0 and ends with the `]` at ec. */
    method MatchBracketClass(c: Byte, p0: nat, ec: nat) returns (r: bool)
      ensures r == InSet(ctype, pat, c, p0, ec)
    {
      var sig, p := true, p0;
      if At(pat, p + 1) == '^' as int {
        sig := false;
        p := p + 1;
      }
      p := p + 1;
      while p < ec
        invariant InSet(ctype, pat, c, p0, ec) == (InList(ctype, pat, c, p, ec) == sig)
        decreases ec - p
      {
        if At(pat, p) == '%' as int {
          p := p + 1;
          if MatchClass(ctype, c, At(pat, p)) { return sig; }
        } else if At(pat, p + 1) == '-' as int && p + 2 < ec {
          p := p + 2;
          if At(pat, p - 2) <= c <= At(pat, p) { return sig; }
        } else if At(pat, p) == c {
          return sig;
        }
        p := p + 1;
      }
      return !sig;
    }

    method SingleMatchAt(c: Byte, p: nat, ep: nat) returns (r: bool)
      requires 0 < ep
      ensures r == SingleMatch(ctype, pat, c, p, ep)
    {
      if At(pat, p) == '.' as int { return true; }
      if At(pat, p) == '%' as int { return MatchClass(ctype, c, At(pat, p + 1)); }
      if At(pat, p) == '[' as int {
        r := MatchBracketClass(c, p, ep - 1);
      } else {
        r := At(pat, p) == c;
      }
    }

    method FitsAt(s: nat, p: nat, ep: nat) returns (m: bool)
      requires 0 < ep
      ensures m == Q().Fits(s, p, ep)
    {
      m := false;
      if s < |src| { m := SingleMatchAt(src[s], p, ep); }
    }

    method BalanceAt(s: nat, b: Byte, e: Byte) returns (r: int)
      requires s <= |src|
      ensures r == MatchBalance(src, b, e, s)
    {
      if At(src, s) != b || s == |src| { return -1; }
      var cont, j := 1, s + 1;
      while j < |src|
        invariant s < j <= |src| && BalanceEnd(src, b, e, cont, j) == MatchBalance(src, b, e, s)
      {
        if src[j] == e {
          cont := cont - 1;
          if cont == 0 { return j + 1; }
        } else if src[j] == b {
          cont := cont + 1;
        }
        j := j + 1;
      }
      return -1;
    }

    // ----- Captures -----

    method CaptureToClose() returns (l: int)
      requires Valid()
      ensures l == LastOpen(Caps())
    {
      l := level - 1;
      while l >= 0
        invariant -1 <= l < level && LastOpen(capture[..l + 1]) == LastOpen(capture[..level])
      {
        if capture[l].Unfinished? { return; }
        assert capture[..l + 1][..l] == capture[..l];
        l := l - 1;
      }
    }

    /** Begins a capture, and ends it again if the rest does not match. */
    method StartCapture(s: nat, p: nat, c: Capture) returns (r: Result)
      requires Valid() && CapsOk(Q(), s, Caps()) && c.init == s && !c.Finished? && p <= |pat|
      modifies this`level, capture
      ensures r != PatternError ==> Valid()
      ensures Refines(old(Caps()), if |old(Caps())| >= MAX_CAPTURES then Error else Try(Q(), p, s, old(Caps()) + [c]),
            r)
      decreases |pat| - p, 4
    {
      if level >= MAX_CAPTURES { return PatternError; }
      ghost var caps := Caps();
      capture[level] := c;
      level := level + 1;
      assert Caps() == caps + [c];
      r := Match(s, p);
      if r == NoMatch {
        level := level - 1;
        assert Caps() == (caps + [c])[..level];
      }
    }

    /** Finishes a capture, and opens it again if the rest does not match. */
    method EndCapture(s: nat, p: nat) returns (r: Result)
      requires Valid() && CapsOk(Q(), s, Caps()) && p <= |pat|
      modifies this`level, capture
      ensures r != PatternError ==> Valid()
      ensures var l := LastOpen(old(Caps()));
              Refines(old(Caps()),
                    if l < 0 then Error else Try(Q(), p, s,
                          old(Caps())[l := Finished(old(Caps())[l].init, s - old(Caps())[l].init)]), r)
      decreases |pat| - p, 4
    {
      var l := CaptureToClose();
      if l < 0 { return PatternError; }
      ghost var caps := Caps();
      var init := capture[l].init;
      capture[l] := Finished(init, s - init);
      assert Caps() == caps[l := Finished(init, s - init)];
      r := Match(s, p);
      if r == NoMatch {
        capture[l] := Unfinished(init);
        assert Caps() == caps;
      }
    }

    /** Place after the text of capture l, found again at s; -1 if it is not there
        and -2 if there is no such capture. */
    method MatchCapture(s: nat, l: int) returns (e: int)
      requires Valid() && CapsOk(Q(), s, Caps())
      ensures e == if l < 0 || level <= l || Caps()[l].Unfinished? then -2
                   else if Caps()[l].Finished?
                         && SameText(src, Caps()[l].init, Caps()[l].len, s) then s + Caps()[l].len else -1
    {
      if l < 0 || l >= level || capture[l].Unfinished? { return -2; }
      if capture[l].Position? { return -1; }
      var len, init := capture[l].len, capture[l].init;
      assert capture[l] == Caps()[l];
      if |src| - s >= len && src[init..init + len] == src[s..s + len] { return s + len; }
      return -1;
    }

    // ----- Matching -----

    /** The outcome r is as it should be, and the captures are as they were after
        a failure. */
    ghost predicate Refines(was: seq<Capture>, o: Outcome, r: Result)
      reads this, capture
    {
      match o
      case Fail => r == NoMatch && Valid() && Caps() == was
      case Done(e, c) => r == MatchEnd(e) && Valid() && Caps() == c
      case Error => r == PatternError
    }

    method MaxExpandAt(s: nat, p: nat, ep: nat, next: nat) returns (r: Result)
      requires Valid() && CapsOk(Q(), s, Caps()) && 0 < ep && next <= |pat|
      modifies this`level, capture
      ensures r != PatternError ==> Valid()
      ensures Refines(old(Caps()), MaxExpand(Q(), next, s, Q().Run(s, p, ep), old(Caps())), r)
      decreases |pat| - next, 4
    {
      ghost var caps, n := Caps(), Q().Run(s, p, ep);
      var i: int := CountRun(s, p, ep);
      hide Try, CapsOk;
      while i >= 0
        invariant -1 <= i <= n && Valid() && Caps() == caps
        invariant MaxExpand(Q(), next, s, n, caps) == if i >= 0 then MaxExpand(Q(), next, s, i, caps) else Fail
        decreases i
      {
        FurtherOn(Q(), s, s + i, caps);
        r := Match(s + i, next);
        if r != NoMatch { return; }
        i := i - 1;
      }
      r := NoMatch;
    }

    /** Counts how often the class fits. */
    method CountRun(s: nat, p: nat, ep: nat) returns (i: nat)
      requires s <= |src| && 0 < ep
      ensures i == Q().Run(s, p, ep)
    {
      i := 0;
      var m := FitsAt(s, p, ep);
      while m
        invariant s + i <= |src| && m == Q().Fits(s + i, p, ep) && i + Q().Run(s + i, p, ep) == Q().Run(s, p, ep)
        decreases |src| - (s + i)
      {
        i := i + 1;
        m := FitsAt(s + i, p, ep);
      }
    }

    method MinExpandAt(s0: nat, p: nat, ep: nat, next: nat) returns (r: Result)
      requires Valid() && CapsOk(Q(), s0, Caps()) && 0 < ep && next <= |pat|
      modifies this`level, capture
      ensures r != PatternError ==> Valid()
      ensures Refines(old(Caps()), MinExpand(Q(), next, s0, p, ep, old(Caps())), r)
      decreases |pat| - next, 4
    {
      ghost var caps := Caps();
      var s: nat := s0;
      while true
        invariant s0 <= s <= |src| && Valid() && Caps() == caps && CapsOk(Q(), s, caps)
        invariant MinExpand(Q(), next, s0, p, ep, caps) == MinExpand(Q(), next, s, p, ep, caps)
        decreases |src| - s
      {
        r := Match(s, next);
        if r != NoMatch { return; }
        var m := FitsAt(s, p, ep);
        if !m { return NoMatch; }
        s := s + 1;
      }
    }

    /** The same is to be found after a jump as before it. */
    ghost predicate Follows(p: nat, s: nat, was: seq<Capture>, m: Move)
      requires CapsOk(Q(), s, was)
      reads this, capture
    {
      match m
      case Return(r) => Refines(was, Try(Q(), p, s, was), r)
      case Goto(s', p') =>
        p < p' <= |pat| && Valid() && Caps() == was && CapsOk(Q(), s', was)
              && Try(Q(), p', s', was) == Try(Q(), p, s, was)
    }

    /** A balanced string, a frontier or a back reference. */
    method EscapeItem(s: nat, p: nat) returns (m: Move)
      requires Valid() && CapsOk(Q(), s, Caps()) && At(pat, p) == '%' as int
      requires At(pat, p + 1) in {'b' as int, 'f' as int} || IsDigit(At(pat, p + 1))
      ensures Follows(p, s, Caps(), m)
    {
      hide InSet, InList, BalanceEnd, MatchBalance, SetEnd, ClassEnd, SingleMatch, ParseItem;
      var k := At(pat, p + 1);
      if k == 'b' as int {
        if At(pat, p + 2) == 0 || At(pat, p + 3) == 0 { return Return(PatternError); }
        var e := BalanceAt(s, At(pat, p + 2), At(pat, p + 3));
        if e == -1 { return Return(NoMatch); }
        return Goto(e, p + 4);
      } else if k == 'f' as int {
        if At(pat, p + 2) != '[' as int { return Return(PatternError); }
        var ep := ClassEndAt(p + 2);
        if ep == -1 { return Return(PatternError); }
        var before := MatchBracketClass(if s == 0 then 0 else src[s - 1], p + 2, ep - 1);
        if before { return Return(NoMatch); }
        var here := MatchBracketClass(At(src, s), p + 2, ep - 1);
        if !here { return Return(NoMatch); }
        return Goto(s, ep);
      } else {
        var e := MatchCapture(s, k - '1' as int);
        if e == -2 { return Return(PatternError); }
        if e == -1 { return Return(NoMatch); }
        return Goto(e, p + 2);
      }
    }

    /** A single-character class, with or without a repetition. */
    method ClassItem(s: nat, p: nat) returns (m: Move)
      requires Valid() && CapsOk(Q(), s, Caps()) && p < |pat| && Parse(pat, p) == ParseItem(pat, p)
      modifies this`level, capture
      ensures m != Return(PatternError) ==> Valid()
      ensures Follows(p, s, old(Caps()), m)
      decreases |pat| - p, 1
    {
      ghost var caps := Caps();
      var ep := ClassEndAt(p);
      if ep == -1 { return Return(PatternError); }
      var fits := FitsAt(s, p, ep);
      hide Parse, ClassEnd, SingleMatch;
      var r;
      if At(pat, ep) == '?' as int {
        if fits {
          r := Match(s + 1, ep + 1);
          if r != NoMatch { return Return(r); }
        }
        return Goto(s, ep + 1);
      } else if At(pat, ep) == '*' as int {
        r := MaxExpandAt(s, p, ep, ep + 1);
        return Return(r);
      } else if At(pat, ep) == '+' as int {
        if !fits { return Return(NoMatch); }
        r := MaxExpandAt(s + 1, p, ep, ep + 1);
        return Return(r);
      } else if At(pat, ep) == '-' as int {
        r := MinExpandAt(s, p, ep, ep + 1);
        return Return(r);
      } else {
        if !fits { return Return(NoMatch); }
        return Goto(s + 1, ep);
      }
    }

    method StepAt(s: nat, p: nat) returns (m: Move)
      requires Valid() && CapsOk(Q(), s, Caps()) && p <= |pat|
      modifies this`level, capture
      ensures m != Return(PatternError) ==> Valid()
      ensures Follows(p, s, old(Caps()), m)
      decreases |pat| - p, 2
    {
      var c, r := At(pat, p), NoMatch;
      if c == 0 { return Return(MatchEnd(s)); }
      if c == '(' as int {
        if At(pat, p + 1) == ')' as int {
          r := StartCapture(s, p + 2, Position(s));
        } else {
          r := StartCapture(s, p + 1, Unfinished(s));
        }
        return Return(r);
      } else if c == ')' as int {
        r := EndCapture(s, p + 1);
        return Return(r);
      } else if c == '%' as int && (At(pat, p + 1) in {'b' as int, 'f' as int} || IsDigit(At(pat, p + 1))) {
        m := EscapeItem(s, p);
      } else if c == '$' as int && At(pat, p + 1) == 0 {
        assert Try(Q(), p + 1, s, Caps()) == Done(s, Caps());
        return Return(if s == |src| then MatchEnd(s) else NoMatch);
      } else {
        m := ClassItem(s, p);
      }
    }

    /** Matches the pattern from p0 on against the subject from s0 on. */
    method Match(s0: nat, p0: nat) returns (r: Result)
      requires Valid() && CapsOk(Q(), s0, Caps()) && p0 <= |pat|
      modifies this`level, capture
      ensures r != PatternError ==> Valid()
      ensures Refines(old(Caps()), Try(Q(), p0, s0, old(Caps())), r)
      decreases |pat| - p0, 3
    {
      hide Try, CapsOk;
      ghost var caps := Caps();
      var s: nat, p: nat := s0, p0;
      while true
        invariant p0 <= p <= |pat| && Valid() && Caps() == caps && CapsOk(Q(), s, caps)
        invariant Try(Q(), p, s, caps) == Try(Q(), p0, s0, caps)
        decreases |pat| - p
      {
        var m := StepAt(s, p);
        match m {
          case Return(res) => return res;
          case Goto(s', p') =>
            s, p := s', p';
        }
      }
    }

    /** The first place from init on where the pattern matches, or only init if
        the pattern is anchored. */
    method Find(init: nat, p: nat, anchor: bool) returns (r: Result, from: nat)
      requires Valid() && init <= |src| && p <= |pat|
      modifies this`level, capture
      ensures r.MatchEnd? ==> Valid() && init <= from <= |src| && Matches(Q(), p, from, [], r.end, Caps())
                              && Try(Q(), p, from, []) == Done(r.end, Caps())
      ensures r.MatchEnd? ==> forall k :: init <= k < from ==> Patterns.NoMatch(Q(), p, k, [])
      ensures r.NoMatch? ==> forall k :: init <= k <= (if anchor then init else |src|) ==>
            Patterns.NoMatch(Q(), p, k, [])
      ensures WellFormed(pat, p, []) ==> !r.PatternError?
    {
      hide Try, Matches, WellFormed;
      from := init;
      while true
        invariant init <= from <= |src| && capture.Length == MAX_CAPTURES && (anchor ==> from == init)
        invariant forall k :: init <= k < from ==> Patterns.NoMatch(Q(), p, k, [])
        decreases |src| - from
      {
        level := 0;
        assert Caps() == [];
        r := Match(from, p);
        if WellFormed(pat, p, []) { NoError(Q(), p, from, [], []); }
        if r.NoMatch? { FailsNone(Q(), p, from, []); }
        if r.MatchEnd? { Sound(Q(), p, from, []); }
        if r != NoMatch || from == |src| || anchor { return; }
        from := from + 1;
      }
    }
  }
}
