/** Compiling an expression: the main theorem of the code generator. */
module CodeGenCorrect {
  import opened LuaMachine
  import opened CodeGen
  import opened CodeGenExec
  import opened CodeGenProof
  import opened CodeGenClose
  import opened CodeGenOps
  import opened CodeGenNot
  import opened CodeGenJoin

  // ----- and, or -----

  /** The second operand's descriptor with the jumps of the first. */
  ghost function Joined(e: Exp, t: seq<int>, f: seq<int>): Exp {
    e.(t := e.t + t, f := e.f + f)
  }

  lemma JoinOk(f0: Fun, f1: Fun, f3: Fun, e: Exp, t: seq<int>, f: seq<int>)
    requires TestedOk(f0, f1, t, f) && f1.lasttarget == |f1.code| && (t == [] || f == []) && Inv(f1, f3, e)
    ensures Inv(f0, f3, Joined(e, t, f))
  {
    GrownTrans(f0, f1, f3);
    ListTrans(f0, f1, f3, t, e.t);
    ListTrans(f0, f1, f3, f, e.f);
    ListTrans(f0, f1, f3, t, e.f);
    ListTrans(f0, f1, f3, f, e.t);
    JoinKind(f0, f1, f3, e.k);
    assert forall j :: j in Joined(e, t, f).t ==> j in e.t || j in t;
    assert forall j :: j in Joined(e, t, f).f ==> j in e.f || j in f;
  }

  lemma JoinKind(f0: Fun, f1: Fun, f3: Fun, k: Kind)
    requires CodeOk(f3) && Grown(f1, f3) && |f0.code| <= |f1.code| && f1.freereg == f0.freereg
    requires f1.lasttarget == |f1.code| && KindOk(f1, f3, k)
    ensures KindOk(f0, f3, k)
  {
  }

  /** What `and` (cond false) and `or` (cond true) make of a and b. */
  ghost function Choose(cond: bool, a: Value, b: Value): Value {
    if Falsy(a) == cond then b else a
  }

  lemma BodyPrefix(f1: Fun, f3: Fun, k: Kind)
    requires |f1.code| <= |f3.code| && KindOk(f1, f3, k)
    ensures var d := Body(f3, k); |f1.code| <= |d| <= |f3.code| && d == f3.code[..|d|]
  {
  }

  lemma JoinDelivers(f0: Fun, f1: Fun, f3: Fun, e: Exp, t: seq<int>, f: seq<int>, cond: bool, m: Machine, regs: Regs,
        a: Value, b: Value)
    requires TestedOk(f0, f1, t, f) && Inv(f1, f3, e) && (if cond then f == [] else t == [])
    requires Entry(f0, f3.code, regs) && Tests(f0, f1.code, t, f, cond, m, regs, a)
    requires var p := Exec(f3.code[..|f1.code|], m, |f0.code|, regs);
             Falsy(a) == cond && Same(f0.freereg, regs, p.regs) && Entry(f1, f3.code, p.regs) ==>
                   Delivers(f1, f3, e, m, p.regs, b)
    ensures Delivers(f0, f3, Joined(e, t, f), m, regs, Choose(cond, a, b))
  {
    hide ListOk, Shape, OldAt, Leaves, Entry;
    var d := Body(f3, e.k);
    var o := Exec(f1.code, m, |f0.code|, regs);
    BodyPrefix(f1, f3, e.k);
    OldExec(f0, f1, f3, m, regs);
    JoinExec(f0, f1, f3, d, m, regs);
    if o.pc < |f1.code| {
      OldLeaves(f1, f3, d, t, f, o, a);
      FirstLeaves(f3, e, t, f, cond, d, o, a, b);
    } else {
      var q := Exec(d, m, |f1.code|, Exec(f3.code[..|f1.code|], m, |f0.code|, regs).regs);
      if q.pc < |d| { SecondLeaves(d, e, t, f, q, b); }
    }
  }

  lemma FirstLeaves(f3: Fun, e: Exp, t: seq<int>, f: seq<int>, cond: bool, d: Code, o: Outcome, a: Value, b: Value)
    requires (if cond then f == [] else t == []) && Leaves(d, t, f, o, a)
    ensures var x := Joined(e, t, f); Leaves(d, x.t, x.f, o, Choose(cond, a, b))
  {
  }

  lemma SecondLeaves(d: Code, e: Exp, t: seq<int>, f: seq<int>, o: Outcome, v: Value)
    requires Leaves(d, e.t, e.f, o, v)
    ensures var x := Joined(e, t, f); Leaves(d, x.t, x.f, o, v)
  {
  }

  // ----- Comparisons -----

  ghost function CompTest(op: BinOp, a: RK, b: RK): Instr<Dest> {
    if op.Gt? || op.Ge? then Cmp(CmpOf(op), true, b, a) else Cmp(CmpOf(op), !op.Ne?, a, b)
  }

  /** Both operands are where the comparison finds them. */
  ghost function Operands(f3: Fun, x1: Exp, e2: Exp): Fun {
    var (f4, x2) := Exp2RK(f3, e2);
    FreeExp(FreeExp(f4, x2), x1)
  }

  lemma CompIs(f0: Fun, f1: Fun, f3: Fun, op: BinOp, x1: Exp, e2: Exp)
    requires OperandOk(f0, f1, x1) && !op.And? && !op.Or?
    ensures var test := CompTest(op, Operand(x1), Operand(Exp2RK(f3, e2).1));
            var (g, out) := CondJump(Operands(f3, x1, e2), test);
            CodeComp(f3, op, x1, e2) == (g, Exp(VJmp(out[0]), [], []))
  {
    Exp2RKAgain(f3, x1);
  }

  lemma OperandsOk(f0: Fun, f1: Fun, f3: Fun, x1: Exp, e2: Exp)
    requires OperandOk(f0, f1, x1) && Inv(f1, f3, e2)
    ensures var (f4, x2) := Exp2RK(f3, e2);
            var f5 := Operands(f3, x1, e2);
            && OperandOk(f1, f4, x2) && f5 == f4.(freereg := f0.freereg) && CodeOk(f5) && Grown(f0, f5) && Grown(f1, f4)
  {
    var (f4, x2) := Exp2RK(f3, e2);
    Exp2RKOk(f1, f3, e2);
    GrownTrans(f0, f1, f4);
    var f5 := Operands(f3, x1, e2);
    forall i | 0 <= i < |f0.code| ensures OldAt(f0, f5, i) { assert OldAt(f0, f4, i); }
  }

  lemma CompOk(f0: Fun, f1: Fun, f3: Fun, op: BinOp, x1: Exp, e2: Exp)
    requires OperandOk(f0, f1, x1) && Inv(f1, f3, e2) && !op.And? && !op.Or?
    ensures var (g, x) := CodeComp(f3, op, x1, e2); Inv(f0, g, x)
  {
    hide CodeComp, Operands, Exp2RK, OldAt;
    CompIs(f0, f1, f3, op, x1, e2);
    OperandsOk(f0, f1, f3, x1, e2);
    var f5, test := Operands(f3, x1, e2), CompTest(op, Operand(x1), Operand(Exp2RK(f3, e2).1));
    CondJumpOk(f0, f5, test, [], []);
    CondJumpCodeOk(f5, test);
    CondJumpShape(f5, test);
  }

  ghost function Compared(op: BinOp, m: Machine, a: Value, b: Value): Value {
    if op.Gt? || op.Ge? then Bool(m.rel(CmpOf(op), b, a)) else Bool(m.rel(CmpOf(op), a, b) == !op.Ne?)
  }

  /** After the code of both operands the comparison sees their values. */
  lemma OperandsRun(f0: Fun, f1: Fun, f4: Fun, x1: Exp, x2: Exp, m: Machine, regs: Regs, a: Value, b: Value)
    requires OperandOk(f0, f1, x1) && OperandOk(f1, f4, x2) && f4.ks <= m.ks
    requires Entry(f0, f4.code, regs) && Delivers(f0, f1, x1, m, regs, a)
    requires var p := Exec(f4.code[..|f1.code|], m, |f0.code|, regs);
             Same(f0.freereg, regs, p.regs) && Entry(f1, f4.code, p.regs) ==> Delivers(f1, f4, x2, m, p.regs, b)
    ensures var o := Exec(f4.code, m, |f0.code|, regs);
            && o.pc == |f4.code| && Same(f0.freereg, regs, o.regs)
            && RkValue(m, o.regs, Operand(x1)) == a && RkValue(m, o.regs, Operand(x2)) == b
  {
    hide Shape, OldAt;
    OldExec(f0, f1, f4, m, regs);
    JoinExec(f0, f1, f4, f4.code, m, regs);
    assert f4.code == f4.code[..|f4.code|];
  }

  ghost predicate SecondGood(f0: Fun, f1: Fun, f4: Fun, x2: Exp, m: Machine, regs: Regs, b: Value)
    requires |f1.code| <= |f4.code|
  {
    var p := Exec(f4.code[..|f1.code|], m, |f0.code|, regs);
    Same(f0.freereg, regs, p.regs) ==> Good(f1, f4, x2, m, p.regs, b)
  }

  lemma CompGood(f0: Fun, f1: Fun, f3: Fun, op: BinOp, x1: Exp, e2: Exp, m: Machine, regs: Regs, a: Value, b: Value)
    requires OperandOk(f0, f1, x1) && Inv(f1, f3, e2) && !op.And? && !op.Or?
    requires Good(f0, f1, x1, m, regs, a) && CodeComp(f3, op, x1, e2).0.ks <= m.ks
    requires var (f4, x2) := Exp2RK(f3, e2); |f1.code| <= |f4.code| && SecondGood(f0, f1, f4, x2, m, regs, b)
    ensures var (g, x) := CodeComp(f3, op, x1, e2); Good(f0, g, x, m, regs, Compared(op, m, a, b))
  {
    var (f4, x2) := Exp2RK(f3, e2);
    var f5, test := Operands(f3, x1, e2), CompTest(op, Operand(x1), Operand(x2));
    CompIs(f0, f1, f3, op, x1, e2);
    OperandsOk(f0, f1, f3, x1, e2);
    CondJumpIs(f5, test);
    CompDelivers(f0, f1, f4, f5, op, x1, x2, m, regs, a, b);
  }

  lemma CompDelivers(f0: Fun, f1: Fun, f4: Fun, f5: Fun, op: BinOp, x1: Exp, x2: Exp, m: Machine, regs: Regs, a: Value,
        b: Value)
    requires OperandOk(f0, f1, x1) && OperandOk(f1, f4, x2) && !op.And? && !op.Or?
    requires f5 == f4.(freereg := f0.freereg) && CodeOk(f5) && Grown(f0, f5)
    requires Good(f0, f1, x1, m, regs, a) && f4.ks <= m.ks && SecondGood(f0, f1, f4, x2, m, regs, b)
    ensures var (g, out) := CondJump(f5, CompTest(op, Operand(x1), Operand(x2)));
            Entry(f0, g.code, regs) ==> Delivers(f0, g, Exp(VJmp(out[0]), [], []), m, regs, Compared(op, m, a, b))
  {
    var test := CompTest(op, Operand(x1), Operand(x2));
    var g := CondJump(f5, test).0;
    CondJumpIs(f5, test);
    if Entry(f0, g.code, regs) {
      EntryEmit(f0, f5, test, regs);
      EntryFirst(f0, f1, f4, regs);
      OperandsRun(f0, f1, f4, x1, x2, m, regs, a, b);
      ComparedHere(f0, f5, test, m, regs, Compared(op, m, a, b));
    }
  }

  lemma ComparedHere(f0: Fun, fs: Fun, test: Instr<Dest>, m: Machine, regs: Regs, v: Value)
    requires CodeOk(f0) && CodeOk(fs) && Grown(f0, fs) && test.Cmp?
    requires var o := Exec(fs.code, m, |f0.code|, regs);
             o.pc == |fs.code| && Same(f0.freereg, regs, o.regs) && v == Bool(Taken(test, m, o.regs))
    ensures var (g, out) := CondJump(fs, test); Delivers(f0, g, Exp(VJmp(out[0]), [], []), m, regs, v)
  {
    var (g, out) := CondJump(fs, test);
    CondJumpIs(fs, test);
    ShapeStart(f0, fs);
    EmitPrefix(fs, test, m, |f0.code|, regs);
    assert Body(g, VJmp(out[0])) == Emit(fs, test).code[..|fs.code|];
  }

  // ----- All expressions -----

  /** The locals of an expression are in scope. */
  predicate Scoped(x: Expr, n: int) {
    match x
    case ELocal(r) => 0 <= r < n
    case EParen(e) => Scoped(e, n)
    case ENot(e) => Scoped(e, n)
    case EBin(_, l, r) => Scoped(l, n) && Scoped(r, n)
    case _ => true
  }

  /** Only the registers of locals matter to an expression. */
  lemma {:induction false} EvalSame(x: Expr, n: int, m: Machine, r0: Regs, r1: Regs)
    requires Scoped(x, n) && Same(n, r0, r1)
    ensures Eval(x, m, r0) == Eval(x, m, r1)
  {
    match x
    case EParen(e) => EvalSame(e, n, m, r0, r1);
    case ENot(e) => EvalSame(e, n, m, r0, r1);
    case EBin(_, l, r) => EvalSame(l, n, m, r0, r1); EvalSame(r, n, m, r0, r1);
    case _ =>
  }

  /** Compiling keeps the generator's state in order. */
  lemma {:induction false} CompileOk(f0: Fun, x: Expr)
    requires CodeOk(f0) && Scoped(x, f0.nactvar)
    ensures var (g, e) := Compile(f0, x); Inv(f0, g, e)
    decreases x
  {
    match x
    case EParen(e) =>
      CompileOk(f0, e);
      var (g, y) := Compile(f0, e);
      DischargeVarsOk(f0, g, y);
    case ENot(e) =>
      CompileOk(f0, e);
      var (g, y) := Compile(f0, e);
      CodeNotOk(f0, g, y);
    case EBin(op, l, r) =>
      CompileOk(f0, l);
      var (f1, e1) := Compile(f0, l);
      var (f2, x1) := Infix(f1, op, e1);
      if op.And? || op.Or? { GoIfOk(f0, f1, e1, op.Or?); } else { Exp2RKOk(f0, f1, e1); }
      CompileOk(f2, r);
      PosfixOk(f0, f2, op, x1, r);
    case _ =>
  }

  lemma PosfixOk(f0: Fun, f2: Fun, op: BinOp, x1: Exp, r: Expr)
    requires if op.And? || op.Or? then TestedOk(f0, f2, x1.t, x1.f) && f2.lasttarget == |f2.code|
          && (if op.Or? then x1.f == [] else x1.t == [])
             else OperandOk(f0, f2, x1)
    requires var (f3, e2) := Compile(f2, r); Inv(f2, f3, e2)
    ensures var (f3, e2) := Compile(f2, r); var (g, e) := Posfix(f3, op, x1, e2); Inv(f0, g, e)
  {
    var (f3, e2) := Compile(f2, r);
    if op.And? || op.Or? {
      DischargeVarsOk(f2, f3, e2);
      var (g, y) := DischargeVars(f3, e2);
      JoinOk(f0, f2, g, y, x1.t, x1.f);
      assert y.t + [] == y.t && y.f + [] == y.f;
    } else {
      CompOk(f0, f2, f3, op, x1, e2);
    }
  }

  /** The registers in which the second operand, compiled from f2 to g, starts. */
  ghost function Between(f0: Fun, f2: Fun, g: Fun, m: Machine, regs: Regs): Regs {
    if |f2.code| <= |g.code| then Exec(g.code[..|f2.code|], m, |f0.code|, regs).regs else regs
  }

  lemma LogicStep(f0: Fun, f1: Fun, e1: Exp, cond: bool, f3: Fun, e2: Exp, m: Machine, regs: Regs, a: Value, b: Value)
    requires Inv(f0, f1, e1) && Good(f0, f1, e1, m, regs, a) && GoIf(f1, e1, cond).0.ks <= m.ks
    requires Inv(GoIf(f1, e1, cond).0, f3, e2)
    requires var f2, g := GoIf(f1, e1, cond).0, DischargeVars(f3, e2).0;
             var p := Between(f0, f2, g, m, regs);
             Same(f0.freereg, regs, p) ==> Good(f2, f3, e2, m, p, b)
    ensures var (f2, x1) := GoIf(f1, e1, cond);
            var (g, y) := DischargeVars(f3, e2);
            g.ks <= m.ks ==> Good(f0, g, Joined(y, x1.t, x1.f), m, regs, Choose(cond, a, b))
  {
    var (f2, x1) := GoIf(f1, e1, cond);
    var (g, y) := DischargeVars(f3, e2);
    GoIfOk(f0, f1, e1, cond);
    GoIfGood(f0, f1, e1, cond, m, regs, a);
    DischargeVarsOk(f2, f3, e2);
    if Entry(f0, g.code, regs) && g.ks <= m.ks {
      var p := Between(f0, f2, g, m, regs);
      if Same(f0.freereg, regs, p) { DischargeVarsGood(f2, f3, e2, m, p, b); }
      EntryFirst(f0, f2, g, regs);
      JoinDelivers(f0, f2, g, y, x1.t, x1.f, cond, m, regs, a, b);
    }
  }

  lemma CompareStep(f0: Fun, f1: Fun, e1: Exp, op: BinOp, f3: Fun, e2: Exp, m: Machine, regs: Regs, a: Value, b: Value)
    requires Inv(f0, f1, e1) && Good(f0, f1, e1, m, regs, a) && !op.And? && !op.Or?
    requires Inv(Exp2RK(f1, e1).0, f3, e2)
    requires Exp2RK(f1, e1).0.ks <= m.ks && Exp2RK(f3, e2).0.ks <= m.ks
    requires var f2, f4 := Exp2RK(f1, e1).0, Exp2RK(f3, e2).0;
             var p := Between(f0, f2, f4, m, regs);
             Same(f0.freereg, regs, p) ==> Good(f2, f3, e2, m, p, b)
    ensures var (g, y) := CodeComp(f3, op, Exp2RK(f1, e1).1, e2); g.ks <= m.ks ==>
          Good(f0, g, y, m, regs, Compared(op, m, a, b))
  {
    var (f2, x1) := Exp2RK(f1, e1);
    var (f4, x2) := Exp2RK(f3, e2);
    Exp2RKOk(f0, f1, e1);
    Exp2RKGood(f0, f1, e1, m, regs, a);
    Exp2RKOk(f2, f3, e2);
    var p := Between(f0, f2, f4, m, regs);
    if Same(f0.freereg, regs, p) { Exp2RKGood(f2, f3, e2, m, p, b); }
    if CodeComp(f3, op, x1, e2).0.ks <= m.ks { CompGood(f0, f2, f3, op, x1, e2, m, regs, a, b); }
  }

  lemma EvalBin(op: BinOp, l: Expr, r: Expr, m: Machine, regs: Regs)
    ensures var a, b := Eval(l, m, regs), Eval(r, m, regs);
            Eval(EBin(op, l, r), m, regs) == if op.And? || op.Or? then Choose(op.Or?, a, b) else Compared(op, m, a, b)
  {
  }

  /** Compiled from any state, the code of an expression delivers its value. */
  lemma {:induction false} CompileGood(f0: Fun, x: Expr, m: Machine, regs: Regs)
    requires CodeOk(f0) && Scoped(x, f0.nactvar) && Compile(f0, x).0.ks <= m.ks
    ensures var (g, e) := Compile(f0, x); Good(f0, g, e, m, regs, Eval(x, m, regs))
    decreases x, 1
  {
    match x
    case EParen(e) =>
      CompileOk(f0, e);
      var (g, y) := Compile(f0, e);
      CompileGood(f0, e, m, regs);
      DischargeVarsGood(f0, g, y, m, regs, Eval(e, m, regs));
    case ENot(e) =>
      CompileOk(f0, e);
      var (g, y) := Compile(f0, e);
      CompileGood(f0, e, m, regs);
      CodeNotGood(f0, g, y, m, regs, Eval(e, m, regs));
    case EBin(op, l, r) =>
      EvalBin(op, l, r, m, regs);
      if op.And? || op.Or? { LogicGood(f0, op.Or?, l, r, m, regs); } else { CompareGood(f0, op, l, r, m, regs); }
    case _ => LeafGood(f0, x, m, regs);
  }

  lemma LeafGood(f0: Fun, x: Expr, m: Machine, regs: Regs)
    requires CodeOk(f0) && Scoped(x, f0.nactvar) && Compile(f0, x).0.ks <= m.ks
    requires !x.EParen? && !x.ENot? && !x.EBin?
    ensures var (g, e) := Compile(f0, x); Good(f0, g, e, m, regs, Eval(x, m, regs))
  {
  }

  lemma {:induction false} LogicGood(f0: Fun, cond: bool, l: Expr, r: Expr, m: Machine, regs: Regs)
    requires CodeOk(f0) && Scoped(l, f0.nactvar) && Scoped(r, f0.nactvar)
    requires Compile(f0, EBin(Logic(cond), l, r)).0.ks <= m.ks
    ensures var (g, e) := Compile(f0, EBin(Logic(cond), l, r));
            Good(f0, g, e, m, regs, Choose(cond, Eval(l, m, regs), Eval(r, m, regs)))
    decreases EBin(Logic(cond), l, r), 0
  {
    var (f1, e1) := Compile(f0, l);
    var f2 := GoIf(f1, e1, cond).0;
    var (f3, e2) := Compile(f2, r);
    var g := DischargeVars(f3, e2).0;
    LogicIs(f0, cond, l, r);
    FirstOperand(f0, l, m, regs, cond);
    SecondOperand(f0, f2, r, m, regs, Between(f0, f2, g, m, regs));
    LogicStep(f0, f1, e1, cond, f3, e2, m, regs, Eval(l, m, regs), Eval(r, m, regs));
  }

  lemma {:induction false} FirstOperand(f0: Fun, l: Expr, m: Machine, regs: Regs, cond: bool)
    requires CodeOk(f0) && Scoped(l, f0.nactvar) && Compile(f0, l).0.ks <= m.ks
    ensures var (f1, e1) := Compile(f0, l);
            && Inv(f0, f1, e1) && Good(f0, f1, e1, m, regs, Eval(l, m, regs))
            && (var f2 := GoIf(f1, e1, cond).0; CodeOk(f2) && Grown(f0, f2))
            && (var (f2, x1) := Exp2RK(f1, e1);
                && CodeOk(f2) && Grown(f0, f2)
                && forall f3 :: Exp2RK(f3, x1) == (f3, x1))
    decreases l, 2
  {
    var (f1, e1) := Compile(f0, l);
    CompileOk(f0, l);
    CompileGood(f0, l, m, regs);
    GoIfOk(f0, f1, e1, cond);
    Exp2RKOk(f0, f1, e1);
    forall f3 { Exp2RKAgain(f3, Exp2RK(f1, e1).1); }
  }

  lemma {:induction false} SecondOperand(f0: Fun, f2: Fun, r: Expr, m: Machine, regs: Regs, p: Regs)
    requires CodeOk(f0) && CodeOk(f2) && Grown(f0, f2) && Scoped(r, f0.nactvar) && Compile(f2, r).0.ks <= m.ks
    ensures var (f3, e2) := Compile(f2, r);
            Inv(f2, f3, e2) && (Same(f0.freereg, regs, p) ==> Good(f2, f3, e2, m, p, Eval(r, m, regs)))
    decreases r, 2
  {
    CompileOk(f2, r);
    CompileGood(f2, r, m, p);
    if Same(f0.freereg, regs, p) { EvalSame(r, f0.nactvar, m, regs, p); }
  }

  ghost function Logic(cond: bool): BinOp {
    if cond then Or else And
  }

  lemma LogicIs(f0: Fun, cond: bool, l: Expr, r: Expr)
    ensures var (f1, e1) := Compile(f0, l);
            var (f2, x1) := GoIf(f1, e1, cond);
            var (f3, e2) := Compile(f2, r);
            var (g, y) := DischargeVars(f3, e2);
            Compile(f0, EBin(Logic(cond), l, r)) == (g, Joined(y, x1.t, x1.f))
  {
    var (f1, e1) := Compile(f0, l);
    var (f2, x1) := GoIf(f1, e1, cond);
    var (f3, e2) := Compile(f2, r);
    GoIfIs(f1, e1, cond);
    PosfixJoins(f3, Logic(cond), x1, e2);
  }

  lemma CompareIs(f0: Fun, op: BinOp, l: Expr, r: Expr)
    requires !op.And? && !op.Or?
    ensures var (f1, e1) := Compile(f0, l);
            var (f2, x1) := Exp2RK(f1, e1);
            var (f3, e2) := Compile(f2, r);
            Compile(f0, EBin(op, l, r)) == CodeComp(f3, op, x1, e2)
  {
    hide Exp2RK, CodeComp;
  }

  lemma PosfixJoins(f3: Fun, op: BinOp, x1: Exp, e2: Exp)
    requires (op.And? && x1.t == []) || (op.Or? && x1.f == [])
    ensures var (g, y) := DischargeVars(f3, e2); Posfix(f3, op, x1, e2) == (g, Joined(y, x1.t, x1.f))
  {
    var (g, y) := DischargeVars(f3, e2);
    assert y.t + [] == y.t && y.f + [] == y.f;
  }

  lemma {:induction false} CompareGood(f0: Fun, op: BinOp, l: Expr, r: Expr, m: Machine, regs: Regs)
    requires CodeOk(f0) && Scoped(l, f0.nactvar) && Scoped(r, f0.nactvar) && !op.And? && !op.Or?
    requires Compile(f0, EBin(op, l, r)).0.ks <= m.ks
    ensures var (g, e) := Compile(f0, EBin(op, l, r));
            Good(f0, g, e, m, regs, Compared(op, m, Eval(l, m, regs), Eval(r, m, regs)))
    decreases EBin(op, l, r), 0
  {
    CompareIs(f0, op, l, r);
    var (f1, e1) := Compile(f0, l);
    var (f2, x1) := Exp2RK(f1, e1);
    var (f3, e2) := Compile(f2, r);
    FirstOperand(f0, l, m, regs, false);
    CompConstants(f3, op, x1, e2);
    SecondOperand(f0, f2, r, m, regs, Between(f0, f2, Exp2RK(f3, e2).0, m, regs));
    CompareStep(f0, f1, e1, op, f3, e2, m, regs, Eval(l, m, regs), Eval(r, m, regs));
  }

  lemma CompConstants(f3: Fun, op: BinOp, x1: Exp, e2: Exp)
    requires Exp2RK(f3, x1) == (f3, x1)
    ensures Exp2RK(f3, e2).0.ks == CodeComp(f3, op, x1, e2).0.ks
  {
  }

  /** The code of an expression put into the next register: control comes out at
      its end, the value of the expression is in that register, and the registers
      below it are as they were. */
  lemma ExpressionCorrect(f0: Fun, x: Expr, m: Machine, regs: Regs)
    requires CodeOk(f0) && Scoped(x, f0.nactvar)
    requires var (g, e) := Compile(f0, x);
             var h := Exp2NextReg(g, e).0;
             h.ks <= m.ks && Entry(f0, h.code, regs)
    ensures var (g, e) := Compile(f0, x);
            var h := Exp2NextReg(g, e).0;
            var o := Exec(h.code, m, |f0.code|, regs);
            && o.pc == |h.code| && Get(o.regs, f0.freereg) == Eval(x, m, regs) && Same(f0.freereg, regs, o.regs)
            && CodeOk(h) && h.freereg == f0.freereg + 1
  {
    hide ListOk, Shape, OldAt, Leaves, Entry, Exec, Exp2NextReg, Compile, Grown;
    var (g, e) := Compile(f0, x);
    CompileOk(f0, x);
    CompileGood(f0, x, m, regs);
    Exp2NextRegOk(f0, g, e);
    Exp2NextRegGood(f0, g, e, m, regs, Eval(x, m, regs));
    InRegister(f0, Exp2NextReg(g, e).0, m, regs, Eval(x, m, regs));
  }

  lemma InRegister(f0: Fun, h: Fun, m: Machine, regs: Regs, v: Value)
    requires Good(f0, h, Exp(VNonReloc(f0.freereg), [], []), m, regs, v) && Entry(f0, h.code, regs)
    ensures var o := Exec(h.code, m, |f0.code|, regs);
            o.pc == |h.code| && Get(o.regs, f0.freereg) == v && Same(f0.freereg, regs, o.regs)
  {
  }
}
