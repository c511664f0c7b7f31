/** Each operation of the code generator keeps the descriptor truthful. */
module CodeGenOps {
  import opened LuaMachine
  import opened CodeGen
  import opened CodeGenExec
  import opened CodeGenProof
  import opened CodeGenClose

  // ----- Into the next register, any register, or an operand -----

  /** Taking or freeing a register leaves everything else as it is. */
  lemma OtherRegs(f0: Fun, fs: Fun, g: Fun, e: Exp)
    requires CodeOk(fs) && Grown(f0, fs) && ExpOk(f0, fs, e)
    requires g == fs.(freereg := g.freereg) && g.nactvar <= g.freereg
    ensures CodeOk(g) && Grown(f0, g) && ExpOk(f0, g, e)
  {
    forall i | 0 <= i < |f0.code| ensures OldAt(f0, g, i) { assert OldAt(f0, fs, i); }
  }

  lemma OtherRegsGood(f0: Fun, fs: Fun, g: Fun, e: Exp, m: Machine, regs: Regs, v: Value)
    requires g == fs.(freereg := g.freereg) && Good(f0, fs, e, m, regs, v)
    ensures Good(f0, g, e, m, regs, v)
  {
  }

  lemma Exp2NextRegOk(f0: Fun, fs: Fun, e: Exp)
    requires Inv(f0, fs, e)
    ensures var (g, x) := Exp2NextReg(fs, e); Inv(f0, g, x) && x == Exp(VNonReloc(f0.freereg), [], [])
  {
    hide Grown, ListOk, Shape, OldAt, Unsettled, ExpOk, Exp2Reg;
    DischargeVarsOk(f0, fs, e);
    var (g, x) := DischargeVars(fs, e);
    var h := Reserve(FreeExp(g, x), 1);
    OtherRegs(f0, g, h, x);
    Exp2RegOk(f0, h, x);
  }

  lemma Exp2NextRegGood(f0: Fun, fs: Fun, e: Exp, m: Machine, regs: Regs, v: Value)
    requires Inv(f0, fs, e) && Good(f0, fs, e, m, regs, v) && Exp2NextReg(fs, e).0.ks <= m.ks
    ensures var (g, x) := Exp2NextReg(fs, e); Good(f0, g, x, m, regs, v)
  {
    hide Grown, ListOk, Shape, Delivers, Exp2Reg;
    DischargeVarsOk(f0, fs, e);
    DischargeVarsGood(f0, fs, e, m, regs, v);
    var (g, x) := DischargeVars(fs, e);
    var h := Reserve(FreeExp(g, x), 1);
    OtherRegs(f0, g, h, x);
    OtherRegsGood(f0, g, h, x, m, regs, v);
    assert Exp2NextReg(fs, e) == Exp2Reg(h, x, f0.freereg);
    Exp2RegGood(f0, h, x, m, regs, v);
  }

  lemma Exp2AnyRegOk(f0: Fun, fs: Fun, e: Exp)
    requires Inv(f0, fs, e)
    ensures var (g, x) := Exp2AnyReg(fs, e); Inv(f0, g, x) && x.k.VNonReloc? && !x.HasJumps()
  {
    DischargeVarsOk(f0, fs, e);
    var (g, x) := DischargeVars(fs, e);
    if x.k.VNonReloc? && x.HasJumps() && g.nactvar <= x.k.r {
      Exp2RegOk(f0, g, x);
    } else if !(x.k.VNonReloc? && !x.HasJumps()) {
      Exp2NextRegOk(f0, g, x);
    }
  }

  lemma Exp2AnyRegGood(f0: Fun, fs: Fun, e: Exp, m: Machine, regs: Regs, v: Value)
    requires Inv(f0, fs, e) && Good(f0, fs, e, m, regs, v) && Exp2AnyReg(fs, e).0.ks <= m.ks
    ensures var (g, x) := Exp2AnyReg(fs, e); Good(f0, g, x, m, regs, v)
  {
    DischargeVarsOk(f0, fs, e);
    DischargeVarsGood(f0, fs, e, m, regs, v);
    var (g, x) := DischargeVars(fs, e);
    if x.k.VNonReloc? && x.HasJumps() && g.nactvar <= x.k.r {
      Exp2RegGood(f0, g, x, m, regs, v);
    } else if !(x.k.VNonReloc? && !x.HasJumps()) {
      Exp2NextRegGood(f0, g, x, m, regs, v);
    }
  }

  lemma Exp2ValOk(f0: Fun, fs: Fun, e: Exp)
    requires Inv(f0, fs, e)
    ensures var (g, x) := Exp2Val(fs, e); Inv(f0, g, x) && !x.HasJumps()
  {
    if e.HasJumps() { Exp2AnyRegOk(f0, fs, e); } else { DischargeVarsOk(f0, fs, e); }
  }

  /** An operand of a comparison: a constant or a register, without jumps. */
  ghost predicate OperandOk(f0: Fun, fs: Fun, x: Exp) {
    && CodeOk(f0) && CodeOk(fs) && Grown(f0, fs) && RegsOk(f0, fs, x.k) && !x.HasJumps()
    && (if x.k.VK? then 0 <= x.k.k < |fs.ks| && x.k.k <= MAXINDEXRK else x.k.VNonReloc? && KindOk(f0, fs, x.k))
  }

  lemma ConstantOk(f0: Fun, fs: Fun, e: Exp)
    requires Inv(f0, fs, e) && !e.HasJumps() && NewConstant(e.k) != [] && |fs.ks| <= MAXINDEXRK
    ensures var (g, k) := AddK(fs, NewConstant(e.k)[0]); OperandOk(f0, g, e.(k := VK(k)))
  {
    var g := AddK(fs, NewConstant(e.k)[0]).0;
    forall i | 0 <= i < |f0.code| ensures OldAt(f0, g, i) { assert OldAt(f0, fs, i); }
  }

  lemma Exp2RKOk(f0: Fun, fs: Fun, e: Exp)
    requires Inv(f0, fs, e)
    ensures var (g, x) := Exp2RK(fs, e); OperandOk(f0, g, x)
  {
    Exp2ValOk(f0, fs, e);
    var (g, x) := Exp2Val(fs, e);
    if NewConstant(x.k) != [] && |g.ks| <= MAXINDEXRK { ConstantOk(f0, g, x); }
    else if !(x.k.VK? && x.k.k <= MAXINDEXRK) { Exp2AnyRegOk(f0, g, x); }
  }

  /** An operand is left as it is when it is asked for again. */
  lemma Exp2RKAgain(fs: Fun, x: Exp)
    requires !x.HasJumps() && ((x.k.VK? && x.k.k <= MAXINDEXRK) || x.k.VNonReloc?)
    ensures Exp2RK(fs, x) == (fs, x)
  {
  }

  lemma Exp2RKGood(f0: Fun, fs: Fun, e: Exp, m: Machine, regs: Regs, v: Value)
    requires Inv(f0, fs, e) && Good(f0, fs, e, m, regs, v) && Exp2RK(fs, e).0.ks <= m.ks
    ensures var (g, x) := Exp2RK(fs, e); Good(f0, g, x, m, regs, v)
  {
    var (g, x) := Exp2Val(fs, e);
    Exp2ValOk(f0, fs, e);
    Exp2ValGood(f0, fs, e, m, regs, v);
    if NewConstant(x.k) != [] && |g.ks| <= MAXINDEXRK { ConstantGood(f0, g, x, m, regs, v); }
    else if !(x.k.VK? && x.k.k <= MAXINDEXRK) { Exp2AnyRegGood(f0, g, x, m, regs, v); }
  }

  lemma Exp2ValGood(f0: Fun, fs: Fun, e: Exp, m: Machine, regs: Regs, v: Value)
    requires Inv(f0, fs, e) && Good(f0, fs, e, m, regs, v) && Exp2Val(fs, e).0.ks <= m.ks
    ensures var (g, x) := Exp2Val(fs, e); Good(f0, g, x, m, regs, v)
  {
    if e.HasJumps() { Exp2AnyRegGood(f0, fs, e, m, regs, v); } else { DischargeVarsGood(f0, fs, e, m, regs, v); }
  }

  lemma ConstantGood(f0: Fun, fs: Fun, e: Exp, m: Machine, regs: Regs, v: Value)
    requires Good(f0, fs, e, m, regs, v) && NewConstant(e.k) != []
    requires AddK(fs, NewConstant(e.k)[0]).0.ks <= m.ks
    ensures var (g, k) := AddK(fs, NewConstant(e.k)[0]); Good(f0, g, e.(k := VK(k)), m, regs, v)
  {
  }

  // ----- Conditions -----

  lemma CondJumpIs(fs: Fun, test: Instr<Dest>)
    requires CodeOk(fs)
    ensures var (g, out) := CondJump(fs, test);
            && out == [|fs.code| + 1] && g == Emit(fs, test).(code := Emit(fs, test).code + [Jmp(Open)]) && g.jpc == []
  {
    var h := Emit(fs, test);
    assert h.jpc == [] && Aim(h.code, [], Open) == h.code;
  }

  lemma CondJumpShape(fs: Fun, test: Instr<Dest>)
    requires CodeOk(fs)
    ensures var g := CondJump(fs, test).0.code;
            && |g| == |fs.code| + 2 && g[|fs.code|] == test && Shape(g[..|fs.code|])
            && (IsTest(test) ==> Shape(g))
  {
    var g := CondJump(fs, test).0.code;
    CondJumpIs(fs, test);
    assert forall k :: 0 <= k < |fs.code| && IsTest(g[k]) ==> IsTest(fs.code[k]);
  }

  lemma CondJumpCodeOk(fs: Fun, test: Instr<Dest>)
    requires CodeOk(fs) && IsTest(test) && (test.TestSet? ==> test.a == NO_REG)
    ensures var g := CondJump(fs, test).0;
            CodeOk(g) && g.jpc == [] && g.freereg == fs.freereg && g.lasttarget == fs.lasttarget
  {
    var g := CondJump(fs, test).0;
    CondJumpIs(fs, test);
    CondJumpShape(fs, test);
    forall j | 0 <= j < |g.code| && g.code[j] == Jmp(Open) ensures Unsettled(g.code, j) {
      if j < |fs.code| {
        assert fs.code[j] == Jmp(Open) && Unsettled(fs.code, j);
        assert 1 <= j ==> g.code[j - 1] == PatchAt(fs.code, fs.jpc, To(|fs.code|), NO_REG, To(|fs.code|), j - 1);
      }
    }
  }

  lemma CondJumpOk(f0: Fun, fs: Fun, test: Instr<Dest>, t: seq<int>, f: seq<int>)
    requires CodeOk(f0) && CodeOk(fs) && Grown(f0, fs) && ListOk(f0, fs.code, t) && ListOk(f0, fs.code, f)
    requires IsTest(test) && (test.TestSet? ==> test.a == NO_REG)
    ensures var (g, out) := CondJump(fs, test);
            out == [|fs.code| + 1] && Grown(f0, g) && ListOk(f0, g.code, t + out) && ListOk(f0, g.code, f + out)
  {
    var (g, out) := CondJump(fs, test);
    CondJumpIs(fs, test);
    EmitGrown(f0, fs, test);
    forall i | 0 <= i < |f0.code| ensures OldAt(f0, g, i) { assert OldAt(f0, Emit(fs, test), i); }
  }

  /** The code runs through when the value's truth is not cond; when it is, the
      jump at j leaves with it. */
  ghost predicate Tests(f0: Fun, c: Code, t: seq<int>, f: seq<int>, cond: bool, m: Machine, regs: Regs, v: Value) {
    var o := Exec(c, m, |f0.code|, regs);
    Runs(f0, c, t, f, m, regs, v) && (o.pc == |c| ==> Falsy(v) == cond)
  }

  /** The lists with one more jump, taken when the truth is cond. */
  ghost function WithJump(e: Exp, cond: bool, out: seq<int>): Exp {
    if cond then e.(t := e.t + out) else e.(f := e.f + out)
  }

  /** A test of v after code that runs well. */
  lemma CondJumpTests(f0: Fun, fs: Fun, e: Exp, test: Instr<Dest>, cond: bool, m: Machine, regs: Regs, v: Value)
    requires CodeOk(f0) && CodeOk(fs) && Grown(f0, fs) && IsTest(test) && (test.TestSet? ==> test.a == NO_REG)
    requires Runs(f0, fs.code, e.t, e.f, m, regs, v)
    requires var o := Exec(fs.code, m, |f0.code|, regs);
             o.pc == |fs.code| ==>
               && (Taken(test, m, o.regs) <==> Falsy(v) == !cond)
               && (if test.TestSet? then v == Get(o.regs, test.b) else v == Bool(!Falsy(v)))
    ensures var (g, out) := CondJump(fs, test);
            var x := WithJump(e, cond, out);
            Tests(f0, g.code, x.t, x.f, cond, m, regs, v)
  {
    hide ListOk, Shape, OldAt, CodeOk, Grown, Leaves, CondJump;
    var o := Exec(fs.code, m, |f0.code|, regs);
    ShapeStart(f0, fs);
    CondJumpExec(fs, test, m, |f0.code|, regs);
    if o.pc < |fs.code| {
      CondJumpLeaves(fs, e, test, cond, o, v);
    } else {
      CondJumpEnds(fs, e, test, cond, m, o, v);
    }
  }

  lemma CondJumpEnds(fs: Fun, e: Exp, test: Instr<Dest>, cond: bool, m: Machine, o: Outcome, v: Value)
    requires CodeOk(fs) && o.pc == |fs.code| && IsTest(test) && (test.TestSet? ==> test.a == NO_REG)
    requires Taken(test, m, o.regs) <==> Falsy(v) == !cond
    requires if test.TestSet? then v == Get(o.regs, test.b) else v == Bool(!Falsy(v))
    ensures var (g, out) := CondJump(fs, test);
            var x := WithJump(e, cond, out);
            var p := if Taken(test, m, o.regs) then Outcome(o.pc + 1, Effect(test, m, o.regs)) else Outcome(o.pc + 2,
                  o.regs);
            && Proper(g.code, p) && p.regs == o.regs
            && (if p.pc == |g.code| then Falsy(v) == cond else Leaves(g.code, x.t, x.f, p, v))
  {
    var (g, out) := CondJump(fs, test);
    CondJumpShape(fs, test);
    CondJumpIs(fs, test);
    if Taken(test, m, o.regs) {
      assert (e.t + out)[|e.t|] == out[0] && (e.f + out)[|e.f|] == out[0];
      OutLeaves(g.code, test, WithJump(e, cond, out), cond, m, o, v);
    }
  }

  lemma CondJumpLeaves(fs: Fun, e: Exp, test: Instr<Dest>, cond: bool, o: Outcome, v: Value)
    requires CodeOk(fs) && 0 <= o.pc < |fs.code| && fs.code[o.pc] == Jmp(Open) && Leaves(fs.code, e.t, e.f, o, v)
    ensures var (g, out) := CondJump(fs, test);
            var x := WithJump(e, cond, out);
            o.pc < |fs.code| + 2 == |g.code| && g.code[o.pc] == Jmp(Open) && Leaves(g.code, x.t, x.f, o, v)
  {
    var (g, out) := CondJump(fs, test);
    CondJumpIs(fs, test);
    EmitLeaves(fs, e.t, e.f, test, o, v);
    MoreLeaves(Emit(fs, test).code, g.code, e, WithJump(e, cond, out), o, v);
    assert Emit(fs, test).code[o.pc] == fs.code[o.pc];
  }

  lemma MoreLeaves(b: Code, c: Code, e: Exp, x: Exp, o: Outcome, v: Value)
    requires b <= c && 0 <= o.pc < |b| && Leaves(b, e.t, e.f, o, v) && e.t <= x.t && e.f <= x.f
    ensures Leaves(c, x.t, x.f, o, v)
  {
    assert 1 <= o.pc ==> b[o.pc - 1] == c[o.pc - 1];
    assert o.pc in e.t ==> o.pc in x.t;
    assert o.pc in e.f ==> o.pc in x.f;
  }

  lemma OutLeaves(c: Code, test: Instr<Dest>, x: Exp, cond: bool, m: Machine, o: Outcome, v: Value)
    requires IsTest(test) && (test.TestSet? ==> test.a == NO_REG)
    requires 0 <= o.pc && o.pc + 2 == |c| && c[o.pc] == test && (o.pc + 1 in if cond then x.t else x.f)
    requires Falsy(v) == !cond && (if test.TestSet? then v == Get(o.regs, test.b) else v == Bool(cond))
    ensures Leaves(c, x.t, x.f, Outcome(o.pc + 1, Effect(test, m, o.regs)), v)
  {
  }

  /** A state between the operands of `and` or `or`: the value has been tested. */
  ghost predicate TestedOk(f0: Fun, fs: Fun, t: seq<int>, f: seq<int>) {
    && CodeOk(f0) && CodeOk(fs) && Grown(f0, fs) && fs.freereg == f0.freereg
    && ListOk(f0, fs.code, t) && ListOk(f0, fs.code, f) && (forall j :: j in t ==> j !in f)
  }

  ghost predicate Tested(f0: Fun, fs: Fun, t: seq<int>, f: seq<int>, cond: bool, m: Machine, regs: Regs, v: Value) {
    fs.ks <= m.ks && (Entry(f0, fs.code, regs) ==> Tests(f0, fs.code, t, f, cond, m, regs, v))
  }

  lemma CondJumpTestedOk(f0: Fun, fs: Fun, e: Exp, test: Instr<Dest>, cond: bool)
    requires TestedOk(f0, fs, e.t, e.f)
    requires IsTest(test) && (test.TestSet? ==> test.a == NO_REG)
    ensures var (g, out) := CondJump(fs, test);
            var x := WithJump(e, cond, out);
            TestedOk(f0, g, x.t, x.f)
  {
    CondJumpOk(f0, fs, test, e.t, e.f);
    CondJumpOk(f0, fs, test, e.t, []);
    CondJumpOk(f0, fs, test, [], e.f);
    CondJumpCodeOk(fs, test);
    CondJumpShape(fs, test);
  }

  lemma CondJumpTested(f0: Fun, fs: Fun, e: Exp, test: Instr<Dest>, cond: bool, m: Machine, regs: Regs, v: Value)
    requires CodeOk(f0) && CodeOk(fs) && Grown(f0, fs) && IsTest(test) && (test.TestSet? ==> test.a == NO_REG)
    requires fs.ks <= m.ks
    requires Entry(f0, fs.code, regs) ==>
               && Runs(f0, fs.code, e.t, e.f, m, regs, v)
               && var o := Exec(fs.code, m, |f0.code|, regs);
                  o.pc == |fs.code| ==>
                    && (Taken(test, m, o.regs) <==> Falsy(v) == !cond)
                    && (if test.TestSet? then v == Get(o.regs, test.b) else v == Bool(!Falsy(v)))
    ensures var (g, out) := CondJump(fs, test);
            var x := WithJump(e, cond, out);
            Tested(f0, g, x.t, x.f, cond, m, regs, v)
  {
    var (g, out) := CondJump(fs, test);
    CondJumpIs(fs, test);
    if Entry(f0, g.code, regs) {
      EntryBack(f0, fs.code, g.code, regs);
      CondJumpTests(f0, fs, e, test, cond, m, regs, v);
    }
  }

  ghost predicate Testable(k: Kind) {
    !k.VJmp? && !k.VUpval? && !k.VLocal?
  }

  lemma Discharge2AnyRegOk(f0: Fun, fs: Fun, e: Exp)
    requires Inv(f0, fs, e) && Testable(e.k)
    ensures var (g, x) := Discharge2AnyReg(fs, e);
            Inv(f0, g, x) && x.k.VNonReloc? && x.t == e.t && x.f == e.f
  {
    hide Shape, OldAt, Unsettled;
    if !e.k.VNonReloc? {
      OtherRegs(f0, fs, Reserve(fs, 1), e);
      Discharge2RegOk(f0, Reserve(fs, 1), e);
    }
  }

  /** Freeing the register of a value that has been read. */
  lemma FreeOk(f0: Fun, fs: Fun, e: Exp)
    requires Inv(f0, fs, e) && !e.k.VJmp?
    ensures TestedOk(f0, FreeExp(fs, e), e.t, e.f)
  {
    OtherRegs(f0, fs, FreeExp(fs, e), e);
  }

  lemma Discharge2AnyRegGood(f0: Fun, fs: Fun, e: Exp, m: Machine, regs: Regs, v: Value)
    requires Inv(f0, fs, e) && Testable(e.k) && Good(f0, fs, e, m, regs, v) && Discharge2AnyReg(fs, e).0.ks <= m.ks
    ensures var (g, x) := Discharge2AnyReg(fs, e); Good(f0, g, x, m, regs, v)
  {
    if !e.k.VNonReloc? {
      OtherRegs(f0, fs, Reserve(fs, 1), e);
      OtherRegsGood(f0, fs, Reserve(fs, 1), e, m, regs, v);
      Discharge2RegGood(f0, Reserve(fs, 1), e, m, regs, v);
    }
  }

  ghost predicate EndsInNot(fs: Fun, k: Kind) {
    k.VReloc? && 0 <= k.pc == |fs.code| - 1 && fs.code[k.pc].Not?
  }

  lemma JumpOnCondOk(f0: Fun, fs: Fun, e: Exp, cond: bool)
    requires Inv(f0, fs, e) && Testable(e.k)
    ensures var (g, out) := JumpOnCond(fs, e, cond);
            var x := WithJump(e, cond, out);
            TestedOk(f0, g, x.t, x.f)
  {
    if EndsInNot(fs, e.k) {
      BeforeReloc(f0, fs, e);
      CondJumpTestedOk(f0, fs.(code := fs.code[..e.k.pc]), e, Test(fs.code[e.k.pc].b, !cond), cond);
    } else {
      Discharge2AnyRegOk(f0, fs, e);
      var (g, x) := Discharge2AnyReg(fs, e);
      FreeOk(f0, g, x);
      CondJumpTestedOk(f0, FreeExp(g, x), e, TestSet(NO_REG, x.k.r, cond), cond);
    }
  }

  lemma JumpOnCondGood(f0: Fun, fs: Fun, e: Exp, cond: bool, m: Machine, regs: Regs, v: Value)
    requires Inv(f0, fs, e) && Testable(e.k) && Good(f0, fs, e, m, regs, v) && JumpOnCond(fs, e, cond).0.ks <= m.ks
    ensures var (g, out) := JumpOnCond(fs, e, cond);
            var x := WithJump(e, cond, out);
            Tested(f0, g, x.t, x.f, cond, m, regs, v)
  {
    if EndsInNot(fs, e.k) {
      NotTested(f0, fs, e, cond, m, regs, v);
    } else {
      Discharge2AnyRegOk(f0, fs, e);
      Discharge2AnyRegGood(f0, fs, e, m, regs, v);
      var (g, x) := Discharge2AnyReg(fs, e);
      ValueTested(f0, g, x, cond, m, regs, v);
    }
  }

  lemma NotTested(f0: Fun, fs: Fun, e: Exp, cond: bool, m: Machine, regs: Regs, v: Value)
    requires Inv(f0, fs, e) && EndsInNot(fs, e.k) && Good(f0, fs, e, m, regs, v)
    ensures var (g, out) := JumpOnCond(fs, e, cond);
            var x := WithJump(e, cond, out);
            Tested(f0, g, x.t, x.f, cond, m, regs, v)
  {
    var b := fs.(code := fs.code[..e.k.pc]);
    BeforeReloc(f0, fs, e);
    if Entry(f0, b.code, regs) { EntryBack(f0, fs.code, b.code, regs); }
    CondJumpTested(f0, b, e, Test(fs.code[e.k.pc].b, !cond), cond, m, regs, v);
  }

  lemma ValueTested(f0: Fun, g: Fun, x: Exp, cond: bool, m: Machine, regs: Regs, v: Value)
    requires Inv(f0, g, x) && x.k.VNonReloc? && Good(f0, g, x, m, regs, v)
    ensures var (h, out) := CondJump(FreeExp(g, x), TestSet(NO_REG, x.k.r, cond));
            var y := WithJump(x, cond, out);
            Tested(f0, h, y.t, y.f, cond, m, regs, v)
  {
    FreeOk(f0, g, x);
    CondJumpTested(f0, FreeExp(g, x), x, TestSet(NO_REG, x.k.r, cond), cond, m, regs, v);
  }

  // ----- Between the operands of `and` and `or` -----

  /** A comparison, turned round unless cond. */
  ghost function Turned(fs: Fun, e: Exp, cond: bool): Fun
    requires e.k.VJmp?
  {
    if cond then fs else InvertJump(fs, e.k.pc)
  }

  lemma TurnedIs(f0: Fun, fs: Fun, e: Exp, cond: bool)
    requires Inv(f0, fs, e) && e.k.VJmp?
    ensures var b, p := fs.(code := fs.code[..e.k.pc - 1]), e.k.pc;
            var g := Turned(fs, e, cond);
            && CodeOk(b) && Grown(f0, b) && TestedOk(f0, b, e.t, e.f)
            && |g.code| == |fs.code| && g.code[p - 1].Cmp? && CondJump(b, g.code[p - 1]) == (g, [p])
            && fs.code[p - 1].Cmp? && var i := fs.code[p - 1];
               g.code[p - 1] == if cond then i else Cmp(i.op, !i.cond, i.x, i.y)
  {
    var b, p := fs.(code := fs.code[..e.k.pc - 1]), e.k.pc;
    var g := Turned(fs, e, cond);
    var test := g.code[p - 1];
    BeforeJmp(f0, fs, e);
    CondJumpIs(b, test);
    NoList(b.code);
    assert g.code == b.code + [test] + [Jmp(Open)];
  }

  lemma TurnedOk(f0: Fun, fs: Fun, e: Exp, cond: bool)
    requires Inv(f0, fs, e) && e.k.VJmp?
    ensures var x := WithJump(e, cond, [e.k.pc]); TestedOk(f0, Turned(fs, e, cond), x.t, x.f)
  {
    TurnedIs(f0, fs, e, cond);
    CondJumpTestedOk(f0, fs.(code := fs.code[..e.k.pc - 1]), e, Turned(fs, e, cond).code[e.k.pc - 1], cond);
  }

  lemma TurnedTested(f0: Fun, fs: Fun, e: Exp, cond: bool, m: Machine, regs: Regs, v: Value)
    requires Inv(f0, fs, e) && e.k.VJmp? && Good(f0, fs, e, m, regs, v)
    ensures var x := WithJump(e, cond, [e.k.pc]); Tested(f0, Turned(fs, e, cond), x.t, x.f, cond, m, regs, v)
  {
    var b := fs.(code := fs.code[..e.k.pc - 1]);
    TurnedIs(f0, fs, e, cond);
    if Entry(f0, b.code, regs) {
      EntryBack(f0, fs.code, b.code, regs);
      TurnedTaken(f0, fs, e, cond, m, regs, v);
    }
    CondJumpTested(f0, b, e, Turned(fs, e, cond).code[e.k.pc - 1], cond, m, regs, v);
  }

  lemma TurnedTaken(f0: Fun, fs: Fun, e: Exp, cond: bool, m: Machine, regs: Regs, v: Value)
    requires Inv(f0, fs, e) && e.k.VJmp? && Delivers(f0, fs, e, m, regs, v)
    ensures var b := fs.code[..e.k.pc - 1];
            var test := Turned(fs, e, cond).code[e.k.pc - 1];
            && Runs(f0, b, e.t, e.f, m, regs, v)
            && var o := Exec(b, m, |f0.code|, regs);
               o.pc == |b| ==> test.Cmp? && (Taken(test, m, o.regs) <==> Falsy(v) == !cond) && v == Bool(!Falsy(v))
  {
  }

  lemma AimOk(f0: Fun, fs: Fun, here: seq<int>, rest: seq<int>)
    requires TestedOk(f0, fs, here, rest) || TestedOk(f0, fs, rest, here)
    ensures var g := PatchToHere(fs, here);
          TestedOk(f0, g, [], rest) && TestedOk(f0, g, rest, []) && g.lasttarget == |g.code|
  {
    var g := PatchToHere(fs, here);
    forall i | 0 <= i < |f0.code| ensures OldAt(f0, g, i) { assert OldAt(f0, fs, i); }
    forall j | 0 <= j < |g.code| && (g.code[j] == Jmp(Open) || j in g.jpc) ensures Unsettled(g.code, j) {
      assert Unsettled(fs.code, j);
    }
  }

  lemma AimTested(f0: Fun, fs: Fun, t: seq<int>, f: seq<int>, cond: bool, m: Machine, regs: Regs, v: Value)
    requires TestedOk(f0, fs, t, f) && Tested(f0, fs, t, f, cond, m, regs, v)
    ensures var here := if cond then f else t;
            Tested(f0, PatchToHere(fs, here), if cond then t else [], if cond then [] else f, cond, m, regs, v)
  {
    var here := if cond then f else t;
    var g := PatchToHere(fs, here);
    if Entry(f0, g.code, regs) {
      EntryBack(f0, fs.code, g.code, regs);
      ShapeStart(f0, fs);
      AimExec(fs, here, m, |f0.code|, regs);
      AimLeaves(fs, t, f, cond, Exec(fs.code, m, |f0.code|, regs), v);
    }
  }

  lemma AimLeaves(fs: Fun, t: seq<int>, f: seq<int>, cond: bool, o: Outcome, v: Value)
    requires Proper(fs.code, o) && Lists(fs, t, f)
    requires if o.pc == |fs.code| then Falsy(v) == cond else Leaves(fs.code, t, f, o, v)
    ensures var here := if cond then f else t;
            var c := PatchToHere(fs, here).code;
            if o.pc == |fs.code| || o.pc in here then Falsy(v) == cond
            else Proper(c, o) && Leaves(c, if cond then t else [], if cond then [] else f, o, v)
  {
    var c := PatchToHere(fs, if cond then f else t).code;
    assert 1 <= o.pc < |fs.code|
          ==> (c[o.pc - 1].TestSet? || fs.code[o.pc - 1].TestSet? ==> c[o.pc - 1] == fs.code[o.pc - 1]);
  }

  ghost function GoIf(fs: Fun, e: Exp, cond: bool): (Fun, Exp) {
    if cond then GoIfFalse(fs, e) else GoIfTrue(fs, e)
  }

  /** Constants whose truth is known to be the opposite of cond. */
  ghost predicate Known(k: Kind, cond: bool) {
    if cond then k.VNil? || k.VFalse? else k.VK? || k.VKNum? || k.VTrue?
  }

  /** The test GoIf makes of a value, and its jump. */
  ghost function TestOf(fs: Fun, e: Exp, cond: bool): (Fun, seq<int>) {
    if Known(e.k, cond) then (fs, [])
    else if e.k.VJmp? then (Turned(fs, e, cond), [e.k.pc])
    else JumpOnCond(fs, e, cond)
  }

  lemma GoIfIs(fs: Fun, e: Exp, cond: bool)
    ensures var (g, x) := DischargeVars(fs, e);
            var (h, out) := TestOf(g, x, cond);
            var y := WithJump(x, cond, out);
            var here := if cond then x.f else x.t;
            GoIf(fs, e, cond) == (PatchToHere(h, here), if cond then y.(f := []) else y.(t := []))
  {
    var (g, x) := DischargeVars(fs, e);
    assert x.t + [] == x.t && x.f + [] == x.f;
  }

  lemma TestOfOk(f0: Fun, fs: Fun, e: Exp, cond: bool)
    requires Inv(f0, fs, e) && !e.k.VUpval? && !e.k.VLocal?
    ensures var (g, out) := TestOf(fs, e, cond);
            var x := WithJump(e, cond, out);
            TestedOk(f0, g, x.t, x.f)
  {
    if Known(e.k, cond) { assert e.t + [] == e.t && e.f + [] == e.f; }
    else if e.k.VJmp? { TurnedOk(f0, fs, e, cond); }
    else { JumpOnCondOk(f0, fs, e, cond); }
  }

  lemma TestOfTested(f0: Fun, fs: Fun, e: Exp, cond: bool, m: Machine, regs: Regs, v: Value)
    requires Inv(f0, fs, e) && !e.k.VUpval? && !e.k.VLocal?
    requires Good(f0, fs, e, m, regs, v) && TestOf(fs, e, cond).0.ks <= m.ks
    ensures var (g, out) := TestOf(fs, e, cond);
            var x := WithJump(e, cond, out);
            Tested(f0, g, x.t, x.f, cond, m, regs, v)
  {
    if Known(e.k, cond) { assert e.t + [] == e.t && e.f + [] == e.f; }
    else if e.k.VJmp? { TurnedTested(f0, fs, e, cond, m, regs, v); }
    else { JumpOnCondGood(f0, fs, e, cond, m, regs, v); }
  }

  /** The new jump is in neither list yet. */
  lemma TestOfFresh(f0: Fun, fs: Fun, e: Exp, cond: bool)
    requires Inv(f0, fs, e) && !e.k.VUpval? && !e.k.VLocal?
    ensures forall j :: j in TestOf(fs, e, cond).1 ==> j !in e.t && j !in e.f
  {
    if !Known(e.k, cond) && !e.k.VJmp? {
      if EndsInNot(fs, e.k) {
        BeforeReloc(f0, fs, e);
        CondJumpIs(fs.(code := fs.code[..e.k.pc]), Test(fs.code[e.k.pc].b, !cond));
      } else {
        Discharge2AnyRegOk(f0, fs, e);
        var (g, x) := Discharge2AnyReg(fs, e);
        FreeOk(f0, g, x);
        CondJumpIs(FreeExp(g, x), TestSet(NO_REG, x.k.r, cond));
      }
    }
  }

  lemma GoIfOk(f0: Fun, fs: Fun, e: Exp, cond: bool)
    requires Inv(f0, fs, e)
    ensures var (g, x) := GoIf(fs, e, cond);
            TestedOk(f0, g, x.t, x.f) && g.lasttarget == |g.code| && (if cond then x.f == [] else x.t == [])
  {
    GoIfIs(fs, e, cond);
    DischargeVarsOk(f0, fs, e);
    var (g, x) := DischargeVars(fs, e);
    TestOfOk(f0, g, x, cond);
    var (h, out) := TestOf(g, x, cond);
    var y := WithJump(x, cond, out);
    if cond { AimOk(f0, h, y.f, y.t); } else { AimOk(f0, h, y.t, y.f); }
  }

  lemma GoIfGood(f0: Fun, fs: Fun, e: Exp, cond: bool, m: Machine, regs: Regs, v: Value)
    requires Inv(f0, fs, e) && Good(f0, fs, e, m, regs, v) && GoIf(fs, e, cond).0.ks <= m.ks
    ensures var (g, x) := GoIf(fs, e, cond); Tested(f0, g, x.t, x.f, cond, m, regs, v)
  {
    GoIfIs(fs, e, cond);
    DischargeVarsOk(f0, fs, e);
    DischargeVarsGood(f0, fs, e, m, regs, v);
    var (g, x) := DischargeVars(fs, e);
    TestOfOk(f0, g, x, cond);
    TestOfTested(f0, g, x, cond, m, regs, v);
    var (h, out) := TestOf(g, x, cond);
    var y := WithJump(x, cond, out);
    AimTested(f0, h, y.t, y.f, cond, m, regs, v);
  }
}
