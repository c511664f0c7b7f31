/** `not` and the comparisons. */
module CodeGenNot {
  import opened LuaMachine
  import opened CodeGen
  import opened CodeGenExec
  import opened CodeGenProof
  import opened CodeGenClose
  import opened CodeGenOps

  // ----- not -----

  /** Jumps leave with v, falling through delivers w. */
  ghost predicate Half(f0: Fun, fs: Fun, e: Exp, m: Machine, regs: Regs, v: Value, w: Value) {
    Entry(f0, fs.code, regs) ==>
      var b := Body(fs, e.k);
      var o := Exec(b, m, |f0.code|, regs);
      Runs(f0, b, e.t, e.f, m, regs, v) && (o.pc == |b| ==> IsValue(fs, e.k, m, o.regs, w))
  }

  ghost function Negation(v: Value): Value { Bool(Falsy(v)) }

  lemma NegateValueOk(f0: Fun, fs: Fun, e: Exp)
    requires Inv(f0, fs, e) && e.k.VNonReloc?
    ensures var h := FreeExp(fs, e);
            Inv(f0, Emit(h, Not(0, e.k.r)), e.(k := VReloc(|h.code|)))
  {
    var h, i := FreeExp(fs, e), Not(0, e.k.r);
    FreeOk(f0, fs, e);
    EmitOk(f0, h, i, e.t);
    EmitOk(f0, h, i, e.f);
    assert Emit(h, i).code[..|h.code|] == Emit(h, i).code[..|Emit(h, i).code| - 1];
  }

  lemma NegateValueGood(f0: Fun, fs: Fun, e: Exp, m: Machine, regs: Regs, v: Value)
    requires Inv(f0, fs, e) && e.k.VNonReloc? && Good(f0, fs, e, m, regs, v)
    ensures var h := FreeExp(fs, e);
            Half(f0, Emit(h, Not(0, e.k.r)), e.(k := VReloc(|h.code|)), m, regs, v, Negation(v))
  {
    var h, i := FreeExp(fs, e), Not(0, e.k.r);
    FreeOk(f0, fs, e);
    if Entry(f0, Emit(h, i).code, regs) {
      EntryEmit(f0, h, i, regs);
      EmitNot(f0, h, e, e.k.r, m, regs, v);
    }
  }

  lemma EmitNot(f0: Fun, h: Fun, e: Exp, r: int, m: Machine, regs: Regs, v: Value)
    requires CodeOk(f0) && CodeOk(h) && Grown(f0, h) && Runs(f0, h.code, e.t, e.f, m, regs, v)
    requires var o := Exec(h.code, m, |f0.code|, regs); o.pc == |h.code| ==> v == Get(o.regs, r)
    ensures Half(f0, Emit(h, Not(0, r)), e.(k := VReloc(|h.code|)), m, regs, v, Negation(v))
  {
    var i := Not(0, r);
    EmitRuns(f0, h, e.t, e.f, i, m, regs, v);
    assert Body(Emit(h, i), VReloc(|h.code|)) == Emit(h, i).code[..|h.code|];
  }

  lemma InvertOk(f0: Fun, fs: Fun, e: Exp)
    requires Inv(f0, fs, e) && e.k.VJmp?
    ensures Inv(f0, InvertJump(fs, e.k.pc), e) && Body(InvertJump(fs, e.k.pc), e.k) == Body(fs, e.k)
  {
    var g := InvertJump(fs, e.k.pc);
    forall i | 0 <= i < |f0.code| ensures OldAt(f0, g, i) { assert OldAt(f0, fs, i); }
    forall j | 0 <= j < |g.code| && g.code[j] == Jmp(Open)
          ensures Unsettled(g.code, j) { assert Unsettled(fs.code, j); }
    assert g.code[..e.k.pc - 1] == fs.code[..e.k.pc - 1];
  }

  lemma InvertHalf(f0: Fun, fs: Fun, e: Exp, m: Machine, regs: Regs, v: Value)
    requires Inv(f0, fs, e) && e.k.VJmp? && Good(f0, fs, e, m, regs, v)
    ensures Half(f0, InvertJump(fs, e.k.pc), e, m, regs, v, Negation(v))
  {
    hide Grown, ListOk, OldAt, Unsettled, Leaves;
    var g := InvertJump(fs, e.k.pc);
    InvertOk(f0, fs, e);
    if Entry(f0, g.code, regs) { EntryBack(f0, fs.code, g.code, regs); }
  }

  lemma NegateOk(f0: Fun, fs: Fun, e: Exp)
    requires Inv(f0, fs, e) && !e.k.VUpval? && !e.k.VLocal?
    ensures var (g, x) := Negate(fs, e); Inv(f0, g, x) && x.t == e.t && x.f == e.f
  {
    if e.k.VJmp? { InvertOk(f0, fs, e); }
    else if e.k.VReloc? || e.k.VNonReloc? {
      Discharge2AnyRegOk(f0, fs, e);
      var (g, x) := Discharge2AnyReg(fs, e);
      NegateValueOk(f0, g, x);
    }
  }

  lemma NegateHalf(f0: Fun, fs: Fun, e: Exp, m: Machine, regs: Regs, v: Value)
    requires Inv(f0, fs, e) && !e.k.VUpval? && !e.k.VLocal?
    requires Good(f0, fs, e, m, regs, v) && Negate(fs, e).0.ks <= m.ks
    ensures var (g, x) := Negate(fs, e); Half(f0, g, x, m, regs, v, Negation(v))
  {
    hide ListOk, Shape, OldAt, Leaves, Grown, CodeOk;
    if e.k.VJmp? { InvertHalf(f0, fs, e, m, regs, v); }
    else if e.k.VReloc? || e.k.VNonReloc? { ValueHalf(f0, fs, e, m, regs, v); }
  }

  lemma ValueHalf(f0: Fun, fs: Fun, e: Exp, m: Machine, regs: Regs, v: Value)
    requires Inv(f0, fs, e) && (e.k.VReloc? || e.k.VNonReloc?)
    requires Good(f0, fs, e, m, regs, v) && Discharge2AnyReg(fs, e).0.ks <= m.ks
    ensures var (g, x) := NegateValue(fs, e); Half(f0, g, x, m, regs, v, Negation(v))
  {
    Discharge2AnyRegOk(f0, fs, e);
    Discharge2AnyRegGood(f0, fs, e, m, regs, v);
    var (g, x) := Discharge2AnyReg(fs, e);
    NegateValueGood(f0, g, x, m, regs, v);
  }

  /** The code once no test of the expression delivers a value. */
  ghost function Bare(fs: Fun, e: Exp): Fun {
    fs.(code := RemoveValues(RemoveValues(fs.code, e.t), e.f))
  }

  lemma BareAt(fs: Fun, e: Exp, i: int)
    requires 0 <= i < |fs.code|
    ensures Bare(fs, e).code[i] ==
            if fs.code[i].TestSet?
                  && (i + 1 in e.t || i + 1 in e.f) then Test(fs.code[i].b, fs.code[i].c) else fs.code[i]
  {
  }

  lemma BareTests(fs: Fun, e: Exp)
    ensures forall i :: 0 <= i < |fs.code| ==>
              && IsTest(Bare(fs, e).code[i]) == IsTest(fs.code[i])
              && (Bare(fs, e).code[i] == fs.code[i] ||
                  (fs.code[i].TestSet? && (i + 1 in e.t || i + 1 in e.f)
                        && Bare(fs, e).code[i] == Test(fs.code[i].b, fs.code[i].c)))
  {
    forall i | 0 <= i < |fs.code| ensures IsTest(Bare(fs, e).code[i]) == IsTest(fs.code[i])
          && (Bare(fs, e).code[i] == fs.code[i] ||
                  (fs.code[i].TestSet? && (i + 1 in e.t || i + 1 in e.f)
                        && Bare(fs, e).code[i] == Test(fs.code[i].b, fs.code[i].c)))
    { BareAt(fs, e, i); }
  }

  lemma BareShape(fs: Fun, e: Exp, n: int)
    requires 0 <= n <= |fs.code| && Shape(fs.code[..n])
    ensures Shape(Bare(fs, e).code[..n])
  {
    BareTests(fs, e);
    var c, d := fs.code[..n], Bare(fs, e).code[..n];
    forall i | 0 <= i < n && IsTest(d[i]) ensures i + 1 < n && d[i + 1].Jmp? { assert IsTest(c[i]); }
    forall i | 0 <= i < n && d[i].LoadBool? && d[i].skip ensures i + 1 < n
          && d[i + 1].LoadBool? { assert c[i] == d[i]; }
  }

  lemma BareCodeOk(fs: Fun, e: Exp)
    requires CodeOk(fs)
    ensures CodeOk(Bare(fs, e))
  {
    var g := Bare(fs, e);
    BareTests(fs, e);
    assert fs.code[..|fs.code|] == fs.code && g.code[..|g.code|] == g.code;
    BareShape(fs, e, |fs.code|);
    forall j | 0 <= j < |g.code| && (g.code[j] == Jmp(Open) || j in g.jpc) ensures Unsettled(g.code, j) {
      assert Unsettled(fs.code, j);
    }
  }

  lemma BareOk(f0: Fun, fs: Fun, e: Exp)
    requires Inv(f0, fs, e)
    ensures Inv(f0, Bare(fs, e), e.(t := e.f, f := e.t))
  {
    var g := Bare(fs, e);
    BareCodeOk(fs, e);
    BareTests(fs, e);
    forall i | 0 <= i < |f0.code| ensures OldAt(f0, g, i) { assert OldAt(f0, fs, i); }
    if e.k.VReloc? { BareShape(fs, e, e.k.pc); }
    if e.k.VJmp? { BareShape(fs, e, e.k.pc - 1); }
  }

  lemma BareSim(f0: Fun, fs: Fun, e: Exp)
    requires Inv(f0, fs, e)
    ensures Sim(Body(fs, e.k), Body(Bare(fs, e), e.k))
  {
    var b, d := Body(fs, e.k), Body(Bare(fs, e), e.k);
    BareTests(fs, e);
    forall i | 0 <= i < |b| ensures SimAt(b, d, i) {
      if i + 1 in e.t || i + 1 in e.f { assert Unsettled(fs.code, i + 1); }
    }
  }

  lemma BareGood(f0: Fun, fs: Fun, e: Exp, m: Machine, regs: Regs, v: Value)
    requires Inv(f0, fs, e) && fs.ks <= m.ks && Half(f0, fs, e, m, regs, v, Negation(v))
    ensures Good(f0, Bare(fs, e), e.(t := e.f, f := e.t), m, regs, Negation(v))
  {
    var g := Bare(fs, e);
    BareSim(f0, fs, e);
    if Entry(f0, g.code, regs) {
      if 0 < |f0.code| { BareAt(fs, e, |f0.code| - 1); }
      EntryBack(f0, fs.code, g.code, regs);
      BareDelivers(f0, fs, e, m, regs, v);
    }
  }

  lemma BareDelivers(f0: Fun, fs: Fun, e: Exp, m: Machine, regs: Regs, v: Value)
    requires Inv(f0, fs, e) && Sim(Body(fs, e.k), Body(Bare(fs, e), e.k))
    requires Entry(f0, fs.code, regs) && Half(f0, fs, e, m, regs, v, Negation(v))
    ensures Delivers(f0, Bare(fs, e), e.(t := e.f, f := e.t), m, regs, Negation(v))
  {
    var b, d := Body(fs, e.k), Body(Bare(fs, e), e.k);
    var o := Exec(b, m, |f0.code|, regs);
    ShapeStart(f0, fs);
    SimExec(b, d, m, |f0.code|, regs);
    BareTests(fs, e);
    if o.pc < |b| {
      BareLeaves(fs, e, b, d, m, o, v);
    } else {
      assert Exec(d, m, |d|, o.regs) == o;
    }
  }

  lemma BareLeaves(fs: Fun, e: Exp, b: Code, d: Code, m: Machine, o: Outcome, v: Value)
    requires b == Body(fs, e.k) && d == Body(Bare(fs, e), e.k) && Sim(b, d)
    requires Proper(b, o) && o.pc < |b| && Leaves(b, e.t, e.f, o, v)
    ensures Continue(b, d, m, o) == o && Proper(d, o) && Leaves(d, e.f, e.t, o, Negation(v))
  {
    BareAt(fs, e, o.pc);
    if 1 <= o.pc { BareAt(fs, e, o.pc - 1); }
    StillOpen(b, d, m, o);
  }

  lemma CodeNotOk(f0: Fun, fs: Fun, e: Exp)
    requires Inv(f0, fs, e)
    ensures var (g, x) := CodeNot(fs, e); Inv(f0, g, x)
  {
    DischargeVarsOk(f0, fs, e);
    var (g, x) := DischargeVars(fs, e);
    NegateOk(f0, g, x);
    var (h, y) := Negate(g, x);
    BareOk(f0, h, y);
  }

  lemma CodeNotGood(f0: Fun, fs: Fun, e: Exp, m: Machine, regs: Regs, v: Value)
    requires Inv(f0, fs, e) && Good(f0, fs, e, m, regs, v) && CodeNot(fs, e).0.ks <= m.ks
    ensures var (g, x) := CodeNot(fs, e); Good(f0, g, x, m, regs, Negation(v))
  {
    DischargeVarsOk(f0, fs, e);
    DischargeVarsGood(f0, fs, e, m, regs, v);
    var (g, x) := DischargeVars(fs, e);
    NegateOk(f0, g, x);
    NegateHalf(f0, g, x, m, regs, v);
    var (h, y) := Negate(g, x);
    BareGood(f0, h, y, m, regs, v);
  }
}
