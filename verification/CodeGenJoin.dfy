/** Code of one operand followed by code of the next. */
module CodeGenJoin {
  import opened LuaMachine
  import opened CodeGen
  import opened CodeGenExec
  import opened CodeGenProof
  import opened CodeGenClose
  import opened CodeGenOps

  lemma GrownTrans(f0: Fun, f1: Fun, f3: Fun)
    requires CodeOk(f0) && Grown(f0, f1) && Grown(f1, f3) && f0.freereg <= f1.freereg
    ensures Grown(f0, f3)
  {
    forall i | 0 <= i < |f0.code| ensures OldAt(f0, f3, i) {
      assert OldAt(f0, f1, i) && OldAt(f1, f3, i);
    }
  }

  lemma ListTrans(f0: Fun, f1: Fun, f3: Fun, first: seq<int>, second: seq<int>)
    requires Grown(f0, f1) && Grown(f1, f3) && ListOk(f0, f1.code, first) && ListOk(f1, f3.code, second)
    ensures ListOk(f0, f3.code, second + first) && (forall j :: j in second ==> j !in first)
  {
    forall j | j in first ensures f3.code[j] == Jmp(Open) { assert OldAt(f1, f3, j); }
  }

  // ----- The first operand's code after the second was compiled -----

  /** The first operand's code in f3, except that a LOADNIL at its end still
      covers only the registers it covered in f1. */
  ghost function Middle(f1: Fun, f3: Fun): Code
    requires |f1.code| <= |f3.code|
  {
    var n := |f1.code|;
    if 0 < n && f1.code[n - 1].LoadNil? then f3.code[..n][n - 1 := f1.code[n - 1]] else f3.code[..n]
  }

  lemma MiddleAt(f1: Fun, f3: Fun, i: int)
    requires CodeOk(f1) && Grown(f1, f3) && 0 <= i < |f1.code|
    ensures var x, y := f1.code[i], Middle(f1, f3)[i];
            y == x || (x.TestSet? && x.a == NO_REG && i + 1 in f1.jpc && y == Test(x.b, x.c))
  {
    assert OldAt(f1, f3, i);
  }

  lemma MiddleExec(f1: Fun, f3: Fun, m: Machine, pc: int, regs: Regs)
    requires CodeOk(f1) && Grown(f1, f3) && Start(f1.code, pc) && Proper(f1.code, Exec(f1.code, m, pc, regs))
    ensures var o := Exec(f1.code, m, pc, regs); Exec(Middle(f1, f3), m, pc, regs) == o && Proper(Middle(f1, f3), o)
  {
    hide Shape, OldAt;
    var c, d := f1.code, Middle(f1, f3);
    var o := Exec(c, m, pc, regs);
    forall i | 0 <= i < |c| ensures SimAt(c, d, i) { MiddleAt(f1, f3, i); }
    SimExec(c, d, m, pc, regs);
    if o.pc < |c| {
      MiddleAt(f1, f3, o.pc);
      assert Unsettled(c, o.pc);
      if 1 <= o.pc { MiddleAt(f1, f3, o.pc - 1); }
      StillOpen(c, d, m, o);
    }
  }

  lemma MiddleWidened(f1: Fun, f3: Fun)
    requires CodeOk(f1) && Grown(f1, f3) && f1.lasttarget < |f1.code| && 0 < |f1.code|
    requires f1.code[|f1.code| - 1].LoadNil? && f1.code[|f1.code| - 1].a <= f1.code[|f1.code| - 1].b + 1
    ensures Widened(Middle(f1, f3), f3.code[..|f1.code|])
  {
    var n, c, d := |f1.code|, Middle(f1, f3), f3.code[..|f1.code|];
    forall i | 0 <= i < n ensures IsTest(c[i]) == IsTest(f1.code[i])
          && (!c[i].Test? ==> c[i] == f1.code[i]) { MiddleAt(f1, f3, i); }
    assert OldAt(f1, f3, n - 1);
  }

  /** The operand still runs as it did; registers above its own may have become
      nil, and control comes out as the next operand's code expects it. */
  lemma OldExec(f0: Fun, f1: Fun, f3: Fun, m: Machine, regs: Regs)
    requires CodeOk(f0) && CodeOk(f1) && Grown(f0, f1) && Grown(f1, f3) && Entry(f0, f3.code, regs)
    requires Proper(f1.code, Exec(f1.code, m, |f0.code|, regs))
    ensures var o, p := Exec(f1.code, m, |f0.code|, regs), Exec(f3.code[..|f1.code|], m, |f0.code|, regs);
            && p.pc == o.pc
            && (o.pc < |f1.code| ==> p.regs == o.regs)
            && (o.pc == |f1.code| ==> Same(f1.freereg, o.regs, p.regs) && Entry(f1, f3.code, p.regs))
  {
    var n, s := |f1.code|, |f0.code|;
    ShapeStart(f0, f1);
    MiddleExec(f1, f3, m, s, regs);
    if 0 < n { assert OldAt(f1, f3, n - 1); }
    if s < n && f1.lasttarget < n && f1.code[n - 1].LoadNil? && f1.code[n - 1].a <= f1.code[n - 1].b + 1 {
      MiddleWidened(f1, f3);
      MiddleStart(f1, f3, s);
      WidenExec(Middle(f1, f3), f3.code[..n], m, s, regs);
    } else if s < n {
      assert Middle(f1, f3) == f3.code[..n];
    }
  }

  lemma MiddleStart(f1: Fun, f3: Fun, s: int)
    requires CodeOk(f1) && Grown(f1, f3) && Start(f1.code, s)
    ensures Start(Middle(f1, f3), s)
  {
    if 0 < s { MiddleAt(f1, f3, s - 1); }
  }

  // ----- Both operands -----

  /** All of the code: the first operand, then the second if control gets there. */
  lemma JoinExec(f0: Fun, f1: Fun, f3: Fun, d: Code, m: Machine, regs: Regs)
    requires CodeOk(f0) && CodeOk(f1) && CodeOk(f3) && Grown(f0, f1) && Grown(f1, f3) && Entry(f0, f3.code, regs)
    requires |f1.code| <= |d| <= |f3.code| && d == f3.code[..|d|]
    requires Proper(f1.code, Exec(f1.code, m, |f0.code|, regs))
    ensures var o, p := Exec(f1.code, m, |f0.code|, regs), Exec(f3.code[..|f1.code|], m, |f0.code|, regs);
            Exec(d, m, |f0.code|, regs) == if o.pc < |f1.code| then o else Exec(d, m, |f1.code|, p.regs)
  {
    hide Entry, Shape, Start;
    var n := |f1.code|;
    var c := f3.code[..n];
    var o, p := Exec(f1.code, m, |f0.code|, regs), Exec(c, m, |f0.code|, regs);
    OldExec(f0, f1, f3, m, regs);
    assert c == d[..n];
    assert Sim(c, d);
    JoinStart(f0, f1, f3);
    SimProper(f1, f3, o, p);
    SimExec(c, d, m, |f0.code|, regs);
    if o.pc < n { OldStays(f1, f3, d, m, p); }
  }

  lemma SimProper(f1: Fun, f3: Fun, o: Outcome, p: Outcome)
    requires CodeOk(f3) && Grown(f1, f3) && Proper(f1.code, o) && p.pc == o.pc
    ensures Proper(f3.code[..|f1.code|], p)
  {
    if o.pc < |f1.code| { OldOpen(f1, f3, o.pc); }
  }

  lemma OldStays(f1: Fun, f3: Fun, d: Code, m: Machine, p: Outcome)
    requires CodeOk(f3) && Grown(f1, f3) && |f1.code| <= |d| <= |f3.code| && d == f3.code[..|d|]
    requires 0 <= p.pc < |f1.code| && f1.code[p.pc] == Jmp(Open) && Proper(f3.code[..|f1.code|], p)
          && Sim(f3.code[..|f1.code|], d)
    ensures Continue(f3.code[..|f1.code|], d, m, p) == p
  {
    OldOpen(f1, f3, p.pc);
    hide CodeOk, Grown;
    assert d[p.pc] == f3.code[p.pc];
    assert 1 <= p.pc ==> d[p.pc - 1] == f3.code[p.pc - 1];
  }

  lemma OldOpen(f1: Fun, f3: Fun, i: int)
    requires CodeOk(f3) && Grown(f1, f3) && 0 <= i < |f1.code| && f1.code[i] == Jmp(Open)
    ensures f3.code[i] == Jmp(Open) && Unsettled(f3.code, i)
  {
    assert OldAt(f1, f3, i);
  }

  lemma JoinStart(f0: Fun, f1: Fun, f3: Fun)
    requires CodeOk(f0) && CodeOk(f1) && Grown(f0, f1) && Grown(f1, f3)
    ensures Start(f3.code[..|f1.code|], |f0.code|)
  {
    ShapeStart(f0, f1);
    if 0 < |f0.code| { assert OldAt(f1, f3, |f0.code| - 1); }
  }

  lemma EntryFirst(f0: Fun, f1: Fun, f3: Fun, regs: Regs)
    requires Grown(f0, f1) && Grown(f1, f3) && Entry(f0, f3.code, regs)
    ensures Entry(f0, f1.code, regs)
  {
    if 0 < |f0.code| { assert OldAt(f1, f3, |f0.code| - 1); }
    EntryBack(f0, f1.code, f3.code, regs);
  }

  /** Jumps out of the first operand leave with its value whatever follows. */
  lemma OldLeaves(f1: Fun, f3: Fun, d: Code, t: seq<int>, f: seq<int>, o: Outcome, v: Value)
    requires CodeOk(f1) && Grown(f1, f3) && |f1.code| <= |d| <= |f3.code| && d == f3.code[..|d|]
    requires 0 <= o.pc < |f1.code| && f1.code[o.pc] == Jmp(Open) && Leaves(f1.code, t, f, o, v)
    ensures d[o.pc] == Jmp(Open) && Leaves(d, t, f, o, v)
  {
    assert OldAt(f1, f3, o.pc);
    if 1 <= o.pc { assert OldAt(f1, f3, o.pc - 1); }
  }
}
