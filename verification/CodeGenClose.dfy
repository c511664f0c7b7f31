/** Ending an expression: its jumps meet where its value is in a register. */
module CodeGenClose {
  import opened LuaMachine
  import opened CodeGen
  import opened CodeGenExec
  import opened CodeGenProof

  /** Instruction i of the finished code d: jumps with a value, and jumps that
      were to come to the end anyway, go to the end; the others go to the
      LOADBOOL of false at pf or of true after it. */
  ghost function ClosedAt(c: Code, t: seq<int>, f: seq<int>, jpc: seq<int>, reg: int, pf: int, end: int,
        i: int): Instr<Dest>
    requires 0 <= i < |c|
  {
    if i in t || i in f || i in jpc then
      Jmp(To(if i in jpc || HasValue(c, i) then end else if i in f then pf else pf + 1))
    else if c[i].TestSet? && (i + 1 in t || i + 1 in f) then Settle(c[i], reg)
    else c[i]
  }

  /** d finishes c. If control can fall off c with the value in reg it jumps over
      the LOADBOOLs (`over`); otherwise the value is then false. */
  ghost predicate Closed(c: Code, d: Code, t: seq<int>, f: seq<int>, jpc: seq<int>, reg: int, over: bool) {
    var need := NeedValue(c, t) || NeedValue(c, f);
    var pf := if over then |c| + 1 else |c|;
    && |d| == (if need then pf + 2 else |c|)
    && (forall i :: 0 <= i < |c| ==> d[i] == ClosedAt(c, t, f, jpc, reg, pf, |d|, i))
    && (need ==> d[pf] == LoadBool(reg, false, true) && d[pf + 1] == LoadBool(reg, true, false))
    && (need && over ==> d[|c|] == Jmp(To(|d|)))
    && (!over ==> need && jpc == [])
  }

  ghost predicate Lists(fs: Fun, t: seq<int>, f: seq<int>) {
    && (forall j :: j in t || j in f ==> 0 <= j < |fs.code| && fs.code[j] == Jmp(Open))
    && (forall j :: j in t ==> j !in f)
  }

  lemma CloseShape(fs: Fun, e: Exp, reg: int)
    requires CodeOk(fs) && Lists(fs, e.t, e.f)
    requires e.k.VJmp? ==> fs.jpc == [] && (NeedValue(fs.code, e.t) || NeedValue(fs.code, e.f))
    ensures var g := CloseJumps(fs, e, reg);
            && Closed(fs.code, g.code, e.t, e.f, fs.jpc, reg, !e.k.VJmp?)
            && g.lasttarget == |g.code| && g.freereg == fs.freereg && g.nactvar == fs.nactvar && g.ks == fs.ks
            && (forall j :: j in g.jpc ==> j in fs.jpc || (!e.k.VJmp? && j == |fs.code| < |g.code|))
  {
    if NeedValue(fs.code, e.t) || NeedValue(fs.code, e.f) { CloseShapeLong(fs, e, reg); }
    else { CloseShapeShort(fs, e, reg); }
  }

  lemma CloseShapeShort(fs: Fun, e: Exp, reg: int)
    requires CodeOk(fs) && Lists(fs, e.t, e.f) && !e.k.VJmp?
    requires !(NeedValue(fs.code, e.t) || NeedValue(fs.code, e.f))
    ensures Closed(fs.code, CloseJumps(fs, e, reg).code, e.t, e.f, fs.jpc, reg, true)
  {
    var c, d, end := fs.code, CloseJumps(fs, e, reg).code, To(|fs.code|);
    forall i | 0 <= i < |c| ensures d[i] == ClosedAt(c, e.t, e.f, fs.jpc, reg, |c| + 1, |c|, i) {
      var p := Patch(c, e.f, end, reg, Open);
      assert d[i] == PatchAt(p, e.t, end, reg, Open, i) && p[i] == PatchAt(c, e.f, end, reg, Open, i);
      assert 1 <= i ==> p[i - 1] == PatchAt(c, e.f, end, reg, Open, i - 1);
    }
  }

  lemma CloseShapeLong(fs: Fun, e: Exp, reg: int)
    requires CodeOk(fs) && Lists(fs, e.t, e.f) && (e.k.VJmp? ==> fs.jpc == [])
    requires NeedValue(fs.code, e.t) || NeedValue(fs.code, e.f)
    ensures var g := CloseJumps(fs, e, reg);
            && Closed(fs.code, g.code, e.t, e.f, fs.jpc, reg, !e.k.VJmp?)
            && g.lasttarget == |g.code| && g.freereg == fs.freereg && g.nactvar == fs.nactvar && g.ks == fs.ks
            && g.jpc == if e.k.VJmp? then [] else [|fs.code|] + fs.jpc
  {
    hide Shape, Unsettled, PatchAt, ClosedAt, CloseJumps, WithLoads, Patch, NeedValue;
    var q := WithLoads(fs, e, reg);
    var c, pf := fs.code, |q.code| - 2;
    WithLoadsShape(fs, e, reg);
    CloseJumpsIs(fs, e, reg);
    JoinShape(c, q, e, fs.jpc, reg, pf);
  }

  lemma CloseJumpsIs(fs: Fun, e: Exp, reg: int)
    requires NeedValue(fs.code, e.t) || NeedValue(fs.code, e.f)
    ensures var pf := if e.k.VJmp? then |fs.code| else |fs.code| + 1;
            CloseJumps(fs, e, reg) == JoinJumps(WithLoads(fs, e, reg), e, reg, To(pf), To(pf + 1))
  {
    hide Emit, Label, PatchToHere, Patch;
  }

  /** The state in which CloseJumps joins the jumps. */
  ghost function WithLoads(fs: Fun, e: Exp, reg: int): Fun {
    var (fs1, fj) := if e.k.VJmp? then (fs, []) else Jump(fs);
    AfterLoads(fs1, fj, reg)
  }

  ghost function AfterLoads(fs: Fun, fj: seq<int>, reg: int): Fun {
    var fs2 := Emit(Label(fs), LoadBool(reg, false, true));
    var fs3 := Emit(Label(fs2), LoadBool(reg, true, false));
    Label(PatchToHere(fs3, fj))
  }

  lemma WithLoadsShape(fs: Fun, e: Exp, reg: int)
    requires CodeOk(fs) && (e.k.VJmp? ==> fs.jpc == [])
    ensures var q, c := WithLoads(fs, e, reg), fs.code;
            var pf := if e.k.VJmp? then |c| else |c| + 1;
            && |q.code| == pf + 2 && q.code[pf] == LoadBool(reg, false, true)
                  && q.code[pf + 1] == LoadBool(reg, true, false)
            && (!e.k.VJmp? ==> q.code[|c|] == Jmp(To(pf + 2)))
            && (forall i :: 0 <= i < |c| ==> q.code[i] == if i in fs.jpc then Jmp(To(pf + 2)) else c[i])
            && q.lasttarget == |q.code| && q.freereg == fs.freereg && q.nactvar == fs.nactvar && q.ks == fs.ks
            && q.jpc == if e.k.VJmp? then [] else [|fs.code|] + fs.jpc
  {
    var (fs1, fj) := if e.k.VJmp? then (fs, []) else Jump(fs);
    NoList(fs1.code);
    NoList(Emit(Label(fs1), LoadBool(reg, false, true)).code);
  }

  lemma JoinShape(c: Code, q: Fun, e: Exp, jpc: seq<int>, reg: int, pf: int)
    requires |c| <= pf <= |q.code|
    requires forall j :: j in e.t || j in e.f ==> 0 <= j < |c| && c[j] == Jmp(Open)
    requires forall j :: j in e.t ==> j !in e.f
    requires forall j :: j in jpc ==> 0 <= j < |c| && c[j].Jmp? && c[j] != Jmp(Open)
    requires forall i :: 0 <= i < |c| ==> q.code[i] == if i in jpc then Jmp(To(|q.code|)) else c[i]
    requires pf == |c| || (|c| < |q.code| && q.code[|c|].Jmp?)
    ensures var d := JoinJumps(q, e, reg, To(pf), To(pf + 1)).code;
            && |d| == |q.code|
            && (forall i :: 0 <= i < |c| ==> d[i] == ClosedAt(c, e.t, e.f, jpc, reg, pf, |d|, i))
            && (forall i :: |c| <= i < |d| ==> d[i] == q.code[i])
  {
    var end := To(|q.code|);
    var p := Patch(q.code, e.f, end, reg, To(pf));
    var d := Patch(p, e.t, end, reg, To(pf + 1));
    forall i | 0 <= i < |d| ensures d[i] == if i < |c| then ClosedAt(c, e.t, e.f, jpc, reg, pf, |d|, i) else q.code[i] {
      assert d[i] == PatchAt(p, e.t, end, reg, To(pf + 1), i) && p[i] == PatchAt(q.code, e.f, end, reg, To(pf), i);
      assert 1 <= i ==> p[i - 1] == PatchAt(q.code, e.f, end, reg, To(pf), i - 1);
    }
  }

  lemma NoList(c: Code)
    ensures Patch(c, [], To(|c|), NO_REG, To(|c|)) == c
  {
  }

  // ----- What the finished code does -----

  ghost predicate Closing(fs: Fun, d: Code, t: seq<int>, f: seq<int>, reg: int, over: bool) {
    CodeOk(fs) && Lists(fs, t, f) && Closed(fs.code, d, t, f, fs.jpc, reg, over)
  }

  lemma ClosedSim(fs: Fun, d: Code, t: seq<int>, f: seq<int>, reg: int, over: bool)
    requires Closing(fs, d, t, f, reg, over)
    ensures Sim(Aim(fs.code, fs.jpc, Open), d)
  {
    var c, h := fs.code, Aim(fs.code, fs.jpc, Open);
    forall i | 0 <= i < |c| ensures SimAt(h, d, i) {
      assert d[i] == ClosedAt(c, t, f, fs.jpc, reg, if over then |c| + 1 else |c|, |d|, i);
      if c[i].TestSet? && (i + 1 in t || i + 1 in f) { assert Unsettled(c, i + 1); }
    }
  }

  /** d, at the jump at o.pc, goes to the end with v in reg and nothing else changed. */
  ghost predicate EndsWith(d: Code, m: Machine, o: Outcome, reg: int, v: Value) {
    0 <= o.pc < |d| && d[o.pc].Jmp? &&
    var q := Follow(d, m, o.pc, AtJump(d, o.pc, o.regs));
    q.pc == |d| && Get(q.regs, reg) == v && forall i :: i != reg ==> Get(q.regs, i) == Get(o.regs, i)
  }

  /** From the open jump at o.pc, where the code was left with v, d puts v in reg. */
  lemma FromJump(fs: Fun, d: Code, t: seq<int>, f: seq<int>, reg: int, over: bool, m: Machine, o: Outcome, v: Value)
    requires Closing(fs, d, t, f, reg, over) && reg != NO_REG
    requires Leaves(fs.code, t, f, o, v) && 0 <= o.pc < |fs.code|
    ensures EndsWith(d, m, o, reg, v)
  {
    if HasValue(fs.code, o.pc) { JumpWithValue(fs, d, t, f, reg, over, m, o, v); }
    else { JumpWithout(fs, d, t, f, reg, over, m, o, v); }
  }

  lemma JumpWithValue(fs: Fun, d: Code, t: seq<int>, f: seq<int>, reg: int, over: bool, m: Machine, o: Outcome,
        v: Value)
    requires Closing(fs, d, t, f, reg, over) && reg != NO_REG && 0 <= o.pc < |fs.code|
    requires (o.pc in t || o.pc in f) && HasValue(fs.code, o.pc) && v == Get(o.regs, fs.code[o.pc - 1].b)
    ensures EndsWith(d, m, o, reg, v)
  {
    var c, j := fs.code, o.pc;
    var pf := if over then |c| + 1 else |c|;
    assert d[j] == ClosedAt(c, t, f, fs.jpc, reg, pf, |d|, j);
    assert d[j - 1] == ClosedAt(c, t, f, fs.jpc, reg, pf, |d|, j - 1);
    DoneAtEnd(fs, d, t, f, reg, over);
    assert Exec(d, m, |d|, AtJump(d, j, o.regs)) == Outcome(|d|, AtJump(d, j, o.regs));
  }

  lemma JumpWithout(fs: Fun, d: Code, t: seq<int>, f: seq<int>, reg: int, over: bool, m: Machine, o: Outcome, v: Value)
    requires Closing(fs, d, t, f, reg, over) && reg != NO_REG && 0 <= o.pc < |fs.code|
    requires o.pc in t || o.pc in f
    requires !HasValue(fs.code, o.pc) && v == Bool(o.pc in t)
    ensures EndsWith(d, m, o, reg, v)
  {
    var x := if o.pc in t then |d| - 1 else |d| - 2;
    ToLoad(fs, d, t, f, reg, over, o);
    LoadsRun(fs, d, t, f, reg, over, m, o.regs, o.pc);
    assert Follow(d, m, o.pc, o.regs) == Exec(d, m, x, o.regs);
  }

  lemma ToLoad(fs: Fun, d: Code, t: seq<int>, f: seq<int>, reg: int, over: bool, o: Outcome)
    requires Closing(fs, d, t, f, reg, over) && 0 <= o.pc < |fs.code|
    requires (o.pc in t || o.pc in f) && !HasValue(fs.code, o.pc)
    ensures |fs.code| < |d| && d[o.pc] == Jmp(To(if o.pc in t then |d| - 1 else |d| - 2))
    ensures AtJump(d, o.pc, o.regs) == o.regs
  {
    var c, j := fs.code, o.pc;
    var pf := if over then |c| + 1 else |c|;
    assert NeedValue(c, t) || NeedValue(c, f);
    assert d[j] == ClosedAt(c, t, f, fs.jpc, reg, pf, |d|, j);
    assert 1 <= j ==> d[j - 1] == ClosedAt(c, t, f, fs.jpc, reg, pf, |d|, j - 1);
  }

  lemma DoneAtEnd(fs: Fun, d: Code, t: seq<int>, f: seq<int>, reg: int, over: bool)
    requires Closing(fs, d, t, f, reg, over) && 0 < |fs.code|
    ensures 0 < |d| && !IsTest(d[|d| - 1])
  {
    var c, i := fs.code, |fs.code| - 1;
    assert d[i] == ClosedAt(c, t, f, fs.jpc, reg, if over then |c| + 1 else |c|, |d|, i);
  }

  lemma LoadsRun(fs: Fun, d: Code, t: seq<int>, f: seq<int>, reg: int, over: bool, m: Machine, regs: Regs, j: int)
    requires Closing(fs, d, t, f, reg, over) && |fs.code| < |d|
    ensures var pf := |d| - 2;
            && Exec(d, m, pf, regs) == Outcome(|d|, Set(regs, reg, Bool(false)))
            && Exec(d, m, pf + 1, regs) == Outcome(|d|, Set(regs, reg, Bool(true)))
            && (0 <= j < |fs.code| ==> Lands(d, j, pf) && Lands(d, j, pf + 1))
  {
    var c, pf := fs.code, |d| - 2;
    assert d[pf] == LoadBool(reg, false, true) && d[pf + 1] == LoadBool(reg, true, false);
    if 0 <= j < |c| {
      if !over { assert d[|c| - 1] == ClosedAt(c, t, f, fs.jpc, reg, |c|, |d|, |c| - 1); }
      assert !IsTest(d[pf - 1]) && !IsTest(d[pf]);
    }
  }

  /** Control that falls off the code has v in reg, or is false if a comparison
      ended the code. */
  ghost predicate FallsWith(over: bool, reg: int, r: Regs, v: Value) {
    if over then Get(r, reg) == v else v == Bool(false)
  }

  /** However control gets through the code, the finished code ends with v in
      reg, the other registers as they were left. */
  lemma ClosedExec(f0: Fun, fs: Fun, d: Code, t: seq<int>, f: seq<int>, over: bool, m: Machine, regs: Regs, v: Value)
    requires CodeOk(f0) && Grown(f0, fs) && Closing(fs, d, t, f, f0.freereg, over)
    requires Runs(f0, fs.code, t, f, m, regs, v)
    requires var o := Exec(fs.code, m, |f0.code|, regs);
             o.pc == |fs.code| ==> FallsWith(over, f0.freereg, o.regs, v)
    ensures var q := Exec(d, m, |f0.code|, regs);
            q.pc == |d| && Get(q.regs, f0.freereg) == v && Same(f0.freereg, regs, q.regs)
  {
    var c, s := fs.code, |f0.code|;
    var h := Aim(c, fs.jpc, Open);
    var o, p := Exec(c, m, s, regs), Exec(h, m, s, regs);
    ShapeStart(f0, fs);
    HoldExec(c, fs.jpc, m, s, regs);
    ClosedSim(fs, d, t, f, f0.freereg, over);
    SimExec(h, d, m, s, regs);
    if o.pc < |c| {
      FromJump(fs, d, t, f, f0.freereg, over, m, o, v);
    } else {
      FromEnd(fs, d, t, f, f0.freereg, over, m, p, v);
    }
  }

  /** From the end of the code, or a jump that was on hold to come there. */
  lemma FromEnd(fs: Fun, d: Code, t: seq<int>, f: seq<int>, reg: int, over: bool, m: Machine, p: Outcome, v: Value)
    requires Closing(fs, d, t, f, reg, over) && Sim(Aim(fs.code, fs.jpc, Open), d) && reg != NO_REG
    requires p.pc == |fs.code| || p.pc in fs.jpc
    requires FallsWith(over, reg, p.regs, v)
    ensures var q := Continue(Aim(fs.code, fs.jpc, Open), d, m, p);
            q.pc == |d| && Get(q.regs, reg) == v && forall i :: i != reg ==> Get(q.regs, i) == Get(p.regs, i)
  {
    var c := fs.code;
    if p.pc < |c| {
      HeldJump(fs, d, t, f, reg, over, m, p);
    } else if |c| < |d| {
      LoadsRun(fs, d, t, f, reg, over, m, p.regs, 0);
      if over {
        assert d[|c|] == Jmp(To(|d|)) && Lands(d, |c|, |d|);
        assert Exec(d, m, |d|, p.regs) == Outcome(|d|, p.regs);
        assert Follow(d, m, |c|, p.regs) == Outcome(|d|, p.regs);
      }
    }
  }

  lemma HeldJump(fs: Fun, d: Code, t: seq<int>, f: seq<int>, reg: int, over: bool, m: Machine, p: Outcome)
    requires Closing(fs, d, t, f, reg, over) && p.pc in fs.jpc
    ensures d[p.pc].Jmp? && Follow(d, m, p.pc, AtJump(d, p.pc, p.regs)) == Outcome(|d|, p.regs)
  {
    var c, j := fs.code, p.pc;
    var pf := if over then |c| + 1 else |c|;
    assert Unsettled(c, j);
    assert d[j] == ClosedAt(c, t, f, fs.jpc, reg, pf, |d|, j);
    assert 1 <= j ==> d[j - 1] == ClosedAt(c, t, f, fs.jpc, reg, pf, |d|, j - 1);
    assert AtJump(d, j, p.regs) == p.regs;
    DoneAtEnd(fs, d, t, f, reg, over);
    assert Exec(d, m, |d|, p.regs) == Outcome(|d|, p.regs);
  }

  // ----- exp2reg -----

  lemma ClosedGrown(f0: Fun, fs: Fun, g: Fun, t: seq<int>, f: seq<int>, over: bool)
    requires CodeOk(f0) && Grown(f0, fs) && Closing(fs, g.code, t, f, f0.freereg, over)
    requires ListOk(f0, fs.code, t) && ListOk(f0, fs.code, f) && (t != [] || f != [])
    requires fs.ks <= g.ks && g.nactvar == fs.nactvar && g.lasttarget == |g.code|
    requires forall j :: j in g.jpc ==> j in fs.jpc || (over && j == |fs.code| < |g.code|)
    ensures Grown(f0, g)
  {
    var j := if t != [] then t[0] else f[0];
    assert j in t || j in f;
    assert |f0.code| <= j < |fs.code|;
    var pf := if over then |fs.code| + 1 else |fs.code|;
    forall i | 0 <= i < |f0.code| ensures OldAt(f0, g, i) {
      assert g.code[i] == ClosedAt(fs.code, t, f, fs.jpc, f0.freereg, pf, |g.code|, i);
      assert OldAt(f0, fs, i);
    }
  }

  lemma ClosedOk(fs: Fun, g: Fun, t: seq<int>, f: seq<int>, reg: int, over: bool)
    requires Closing(fs, g.code, t, f, reg, over)
    requires g.lasttarget == |g.code| && 0 <= g.nactvar <= g.freereg
    requires forall j :: j in g.jpc ==> j in fs.jpc || (over && j == |fs.code| < |g.code|)
    ensures CodeOk(g)
  {
    var c, d := fs.code, g.code;
    var pf := if over then |c| + 1 else |c|;
    ClosedShape(fs, g, t, f, reg, over);
    forall j | 0 <= j < |d| && (d[j] == Jmp(Open) || j in g.jpc) ensures Unsettled(d, j) {
      if j < |c| {
        assert d[j] == ClosedAt(c, t, f, fs.jpc, reg, pf, |d|, j);
        assert 1 <= j ==> d[j - 1] == ClosedAt(c, t, f, fs.jpc, reg, pf, |d|, j - 1);
        assert Unsettled(c, j);
      } else if 1 <= j == |c| {
        assert d[j - 1] == ClosedAt(c, t, f, fs.jpc, reg, pf, |d|, j - 1);
      }
    }
    forall j | 0 <= j < |d| && d[j].Jmp? && d[j].to.To? ensures d[j].to.pc <= |d| {
      if j < |c| { assert d[j] == ClosedAt(c, t, f, fs.jpc, reg, pf, |d|, j); }
    }
    forall j | j in g.jpc ensures 0 <= j < |d| && d[j] == Jmp(To(|d|)) {
      if j < |c| { assert d[j] == ClosedAt(c, t, f, fs.jpc, reg, pf, |d|, j); }
    }
  }

  lemma ClosedShape(fs: Fun, g: Fun, t: seq<int>, f: seq<int>, reg: int, over: bool)
    requires Closing(fs, g.code, t, f, reg, over)
    ensures Shape(g.code)
  {
    var c, d := fs.code, g.code;
    var pf := if over then |c| + 1 else |c|;
    assert |c| < |d| ==> d[pf] == LoadBool(reg, false, true) && d[pf + 1] == LoadBool(reg, true, false);
    assert |c| < |d| && over ==> d[|c|].Jmp?;
    forall i | 0 <= i < |d| && IsTest(d[i]) ensures i + 1 < |d| && d[i + 1].Jmp? {
      assert i < |c|;
      assert d[i] == ClosedAt(c, t, f, fs.jpc, reg, pf, |d|, i);
      assert d[i + 1] == ClosedAt(c, t, f, fs.jpc, reg, pf, |d|, i + 1);
    }
    forall i | 0 <= i < |d| && d[i].LoadBool? && d[i].skip ensures i + 1 < |d| && d[i + 1].LoadBool? {
      if i < |c| {
        assert d[i] == ClosedAt(c, t, f, fs.jpc, reg, pf, |d|, i);
        assert d[i + 1] == ClosedAt(c, t, f, fs.jpc, reg, pf, |d|, i + 1);
      }
    }
  }

  /** A comparison's own jump joins the true list. */
  ghost function WithOwnJump(e: Exp): Exp {
    if e.k.VJmp? then e.(t := e.t + [e.k.pc]) else e
  }

  lemma CloseOk(f0: Fun, fs: Fun, e: Exp)
    requires CodeOk(f0) && CodeOk(fs) && Grown(f0, fs) && ExpOk(f0, fs, e) && fs.freereg == f0.freereg + 1
    requires e.k.VJmp? || e.k == VNonReloc(f0.freereg)
    ensures var x := WithOwnJump(e);
            Inv(f0, if x.HasJumps() then CloseJumps(fs, x, f0.freereg) else fs, Exp(VNonReloc(f0.freereg), [], []))
  {
    var x := WithOwnJump(e);
    if x.HasJumps() {
      OwnJump(f0, fs, e);
      JumpsOk(f0, fs, x);
    }
  }

  lemma JumpsOk(f0: Fun, fs: Fun, x: Exp)
    requires CodeOk(f0) && CodeOk(fs) && Grown(f0, fs) && fs.freereg == f0.freereg + 1 && x.HasJumps()
    requires Lists(fs, x.t, x.f) && ListOk(f0, fs.code, x.t) && ListOk(f0, fs.code, x.f)
    requires x.k.VJmp? ==> fs.jpc == [] && NeedValue(fs.code, x.t)
    ensures var g := CloseJumps(fs, x, f0.freereg);
            CodeOk(g) && Grown(f0, g) && g.freereg == fs.freereg
                  && Closing(fs, g.code, x.t, x.f, f0.freereg, !x.k.VJmp?)
  {
    CloseShape(fs, x, f0.freereg);
    var g := CloseJumps(fs, x, f0.freereg);
    ClosedOk(fs, g, x.t, x.f, f0.freereg, !x.k.VJmp?);
    ClosedGrown(f0, fs, g, x.t, x.f, !x.k.VJmp?);
  }

  lemma OwnJump(f0: Fun, fs: Fun, e: Exp)
    requires CodeOk(fs) && ExpOk(f0, fs, e)
    ensures var x := WithOwnJump(e);
            && Lists(fs, x.t, x.f) && ListOk(f0, fs.code, x.t) && ListOk(f0, fs.code, x.f)
            && (e.k.VJmp? ==> fs.jpc == [] && NeedValue(fs.code, x.t))
  {
    if e.k.VJmp? {
      var p, x := e.k.pc, WithOwnJump(e);
      assert x.t[|e.t|] == p && !HasValue(fs.code, p);
      assert forall j :: j in x.t ==> j in e.t || j == p;
    }
  }

  lemma Exp2RegOk(f0: Fun, fs: Fun, e: Exp)
    requires CodeOk(f0) && CodeOk(fs) && Grown(f0, fs) && ExpOk(f0, fs, e) && !e.k.VUpval? && !e.k.VLocal?
    requires fs.freereg == f0.freereg + 1
    ensures var (g, x) := Exp2Reg(fs, e, f0.freereg); Inv(f0, g, x) && x == Exp(VNonReloc(f0.freereg), [], [])
  {
    Discharge2RegOk(f0, fs, e);
    var (g, x) := Discharge2Reg(fs, e, f0.freereg);
    CloseOk(f0, g, x);
  }

  /** The state before a comparison and its jump were emitted. */
  lemma BeforeJmp(f0: Fun, fs: Fun, e: Exp)
    requires CodeOk(f0) && CodeOk(fs) && Grown(f0, fs) && ExpOk(f0, fs, e) && e.k.VJmp?
    ensures var b := fs.(code := fs.code[..e.k.pc - 1]);
            && CodeOk(b) && Grown(f0, b)
            && CondJump(b, fs.code[e.k.pc - 1]).0.code == fs.code
  {
    var b := fs.(code := fs.code[..e.k.pc - 1]);
    forall k | 0 <= k < |f0.code| ensures OldAt(f0, b, k) { assert OldAt(f0, fs, k); }
    NoList(b.code);
    assert Aim(Emit(b, fs.code[e.k.pc - 1]).code, [], Open) == Emit(b, fs.code[e.k.pc - 1]).code;
  }

  /** Code that starts with b is left by the open jumps of b as b is. */
  lemma PrefixLeaves(b: Code, c: Code, t: seq<int>, f: seq<int>, s: seq<int>, o: Outcome, v: Value)
    requires b <= c && 0 <= o.pc < |b| && Leaves(b, t, f, o, v)
    ensures Leaves(c, t + s, f, o, v)
  {
    assert 1 <= o.pc ==> b[o.pc - 1] == c[o.pc - 1];
  }

  /** With its own jump among those taken when it is true, a comparison falls
      through when it is false. */
  lemma JmpRuns(f0: Fun, fs: Fun, e: Exp, m: Machine, regs: Regs, v: Value)
    requires CodeOk(f0) && CodeOk(fs) && Grown(f0, fs) && ExpOk(f0, fs, e) && e.k.VJmp?
    requires Delivers(f0, fs, e, m, regs, v)
    ensures Runs(f0, fs.code, e.t + [e.k.pc], e.f, m, regs, v)
    ensures Exec(fs.code, m, |f0.code|, regs).pc == |fs.code| ==> v == Bool(false)
  {
    hide CodeOk, Grown, ListOk, Shape, Leaves, Exec, CondJump;
    var b := fs.(code := fs.code[..e.k.pc - 1]);
    BeforeJmp(f0, fs, e);
    assert Body(fs, e.k) == b.code && b.code <= fs.code && |b.code| == e.k.pc - 1;
    JmpRunsFrom(f0, b, fs.code, e.t, e.f, m, regs, v);
  }

  lemma JmpRunsFrom(f0: Fun, b: Fun, c: Code, t: seq<int>, f: seq<int>, m: Machine, regs: Regs, v: Value)
    requires CodeOk(f0) && CodeOk(b) && Grown(f0, b) && |b.code| < |c| && c[|b.code|].Cmp?
    requires CondJump(b, c[|b.code|]).0.code == c && b.code <= c
    requires Runs(f0, b.code, t, f, m, regs, v)
    requires var o := Exec(b.code, m, |f0.code|, regs);
             o.pc == |b.code| ==> v == Bool(Taken(c[o.pc], m, o.regs))
    ensures Runs(f0, c, t + [|b.code| + 1], f, m, regs, v)
    ensures Exec(c, m, |f0.code|, regs).pc == |c| ==> v == Bool(false)
  {
    var o := Exec(b.code, m, |f0.code|, regs);
    ShapeStart(f0, b);
    CondJumpExec(b, c[|b.code|], m, |f0.code|, regs);
    if o.pc < |b.code| {
      PrefixLeaves(b.code, c, t, f, [|b.code| + 1], o, v);
      assert c[o.pc] == b.code[o.pc];
    } else {
      assert (t + [|b.code| + 1])[|t|] == |b.code| + 1;
      assert !HasValue(c, |b.code| + 1) && c[|b.code| + 1] == Jmp(Open);
    }
  }

  lemma CloseEntry(f0: Fun, fs: Fun, d: Code, t: seq<int>, f: seq<int>, over: bool, regs: Regs)
    requires CodeOk(f0) && Grown(f0, fs) && Closing(fs, d, t, f, f0.freereg, over) && Entry(f0, d, regs)
    ensures Entry(f0, fs.code, regs)
  {
    if 0 < |f0.code| {
      var i := |f0.code| - 1;
      assert d[i] == ClosedAt(fs.code, t, f, fs.jpc, f0.freereg, if over then |fs.code| + 1 else |fs.code|, |d|, i);
    }
    EntryBack(f0, fs.code, d, regs);
  }

  lemma CloseGood(f0: Fun, fs: Fun, e: Exp, m: Machine, regs: Regs, v: Value)
    requires CodeOk(f0) && CodeOk(fs) && Grown(f0, fs) && ExpOk(f0, fs, e) && fs.freereg == f0.freereg + 1
    requires e.k.VJmp? || e.k == VNonReloc(f0.freereg)
    requires Good(f0, fs, e, m, regs, v)
    ensures var x := WithOwnJump(e);
            Good(f0, if x.HasJumps() then CloseJumps(fs, x, f0.freereg) else fs, Exp(VNonReloc(f0.freereg), [], []), m,
                  regs, v)
  {
    var x := WithOwnJump(e);
    if x.HasJumps() {
      var g := CloseJumps(fs, x, f0.freereg);
        OwnJump(f0, fs, e);
      JumpsOk(f0, fs, x);
      if Entry(f0, g.code, regs) {
        CloseEntry(f0, fs, g.code, x.t, x.f, !e.k.VJmp?, regs);
        if e.k.VJmp? { JmpRuns(f0, fs, e, m, regs, v); }
        CloseDelivers(f0, fs, g, x, m, regs, v);
      }
    }
  }

  lemma CloseDelivers(f0: Fun, fs: Fun, g: Fun, x: Exp, m: Machine, regs: Regs, v: Value)
    requires CodeOk(f0) && Grown(f0, fs) && Closing(fs, g.code, x.t, x.f, f0.freereg, !x.k.VJmp?)
    requires Runs(f0, fs.code, x.t, x.f, m, regs, v)
    requires var o := Exec(fs.code, m, |f0.code|, regs);
             o.pc == |fs.code| ==> FallsWith(!x.k.VJmp?, f0.freereg, o.regs, v)
    ensures Delivers(f0, g, Exp(VNonReloc(f0.freereg), [], []), m, regs, v)
  {
    ClosedExec(f0, fs, g.code, x.t, x.f, !x.k.VJmp?, m, regs, v);
  }

  lemma Exp2RegGood(f0: Fun, fs: Fun, e: Exp, m: Machine, regs: Regs, v: Value)
    requires CodeOk(f0) && CodeOk(fs) && Grown(f0, fs) && ExpOk(f0, fs, e) && !e.k.VUpval? && !e.k.VLocal?
    requires fs.freereg == f0.freereg + 1
    requires Good(f0, fs, e, m, regs, v) && Exp2Reg(fs, e, f0.freereg).0.ks <= m.ks
    ensures var (g, x) := Exp2Reg(fs, e, f0.freereg); Good(f0, g, x, m, regs, v)
  {
    Discharge2RegOk(f0, fs, e);
    var (g, x) := Discharge2Reg(fs, e, f0.freereg);
    Discharge2RegGood(f0, fs, e, m, regs, v);
    CloseGood(f0, g, x, m, regs, v);
  }
}
