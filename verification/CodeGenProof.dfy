/** The code of an expression computes the value of the expression. */
module CodeGenProof {
  import opened LuaMachine
  import opened CodeGen
  import opened CodeGenExec

  // ----- Compiling from state f0: what holds of the state and the descriptor -----

  /** Code older than the expression keeps its meaning: a test whose jump came to
      the start of the expression may lose its value, and a LOADNIL just before
      the start may also cover registers the expression takes. */
  ghost predicate OldAt(f0: Fun, fs: Fun, i: int)
    requires 0 <= i < |f0.code| <= |fs.code|
  {
    var x, y := f0.code[i], fs.code[i];
    || y == x
    || (x.TestSet? && x.a == NO_REG && i + 1 in f0.jpc && y == Test(x.b, x.c))
    || (i == |f0.code| - 1 && f0.lasttarget < |f0.code| && x.LoadNil? && y.LoadNil? &&
        y.a == x.a <= x.b + 1 && x.b < y.b && f0.freereg <= x.b + 1)
  }

  ghost predicate Grown(f0: Fun, fs: Fun) {
    && |f0.code| <= |fs.code|
    && f0.ks <= fs.ks
    && f0.nactvar == fs.nactvar
    && f0.lasttarget <= fs.lasttarget
    && (forall i :: 0 <= i < |f0.code| ==> OldAt(f0, fs, i))
    && (forall j :: j in fs.jpc && j < |f0.code| ==> j in f0.jpc && |fs.code| == |f0.code|)
  }

  /** The list holds open jumps of the expression's own code. */
  ghost predicate ListOk(f0: Fun, c: Code, list: seq<int>) {
    forall j :: j in list ==> |f0.code| <= j < |c| && c[j] == Jmp(Open)
  }

  ghost predicate KindOk(f0: Fun, fs: Fun, k: Kind) {
    match k
    case VNil => |f0.code| < |fs.code| ==> fs.lasttarget == |fs.code|
    case VK(i) => 0 <= i < |fs.ks| && !Falsy(fs.ks[i])
    case VLocal(r) => 0 <= r < fs.nactvar
    case VNonReloc(r) => 0 <= r && (r < fs.nactvar || r == f0.freereg)
    case VReloc(p) =>
      && |f0.code| <= p == |fs.code| - 1 && fs.jpc == [] && fs.lasttarget <= p
      && (fs.code[p].Not? || fs.code[p].GetUpval?) && Shape(fs.code[..p])
    case VJmp(p) =>
      && |f0.code| < p == |fs.code| - 1 && fs.jpc == [] && fs.lasttarget < p
      && fs.code[p] == Jmp(Open) && fs.code[p - 1].Cmp? && Shape(fs.code[..p - 1])
    case _ => true
  }

  /** One register more than at the start is in use iff it holds the value. */
  ghost predicate RegsOk(f0: Fun, fs: Fun, k: Kind) {
    fs.freereg == f0.freereg + (if k.VNonReloc? && fs.nactvar <= k.r then 1 else 0)
  }

  ghost predicate ExpOk(f0: Fun, fs: Fun, e: Exp) {
    && ListOk(f0, fs.code, e.t) && ListOk(f0, fs.code, e.f)
    && (forall j :: j in e.t ==> j !in e.f)
    && KindOk(f0, fs, e.k)
    && (e.k.VJmp? ==> e.k.pc !in e.t && e.k.pc !in e.f)
  }

  ghost predicate Inv(f0: Fun, fs: Fun, e: Exp) {
    CodeOk(f0) && CodeOk(fs) && Grown(f0, fs) && ExpOk(f0, fs, e) && RegsOk(f0, fs, e.k)
  }

  // ----- What the code computes -----

  /** The code before the instructions that make up a pending value. */
  ghost function Body(fs: Fun, k: Kind): Code {
    match k
    case VReloc(p) => if 0 <= p <= |fs.code| then fs.code[..p] else fs.code
    case VJmp(p) => if 1 <= p <= |fs.code| then fs.code[..p - 1] else fs.code
    case _ => fs.code
  }

  /** v is the value when control has fallen through the body. */
  ghost predicate IsValue(fs: Fun, k: Kind, m: Machine, regs: Regs, v: Value) {
    match k
    case VNil => v == Nil
    case VTrue => v == Bool(true)
    case VFalse => v == Bool(false)
    case VK(i) => v == RkValue(m, regs, K(i))
    case VKNum(n) => v == Num(n)
    case VLocal(r) => v == Get(regs, r)
    case VUpval(u) => v == Get(m.up, u)
    case VNonReloc(r) => v == Get(regs, r)
    case VReloc(p) =>
      0 <= p < |fs.code| && (fs.code[p].Not? || fs.code[p].GetUpval?) && v == Computed(fs.code[p], m, regs)
    case VJmp(p) => 1 <= p <= |fs.code| && IsTest(fs.code[p - 1]) && v == Bool(Taken(fs.code[p - 1], m, regs))
  }

  /** The code left by the open jump at o.pc with value v of the given truth; if
      its test delivers no value, v is the boolean. */
  ghost predicate IsExit(c: Code, o: Outcome, truth: bool, v: Value) {
    if HasValue(c, o.pc) then v == Get(o.regs, c[o.pc - 1].b) && Falsy(v) == !truth else v == Bool(truth)
  }

  ghost predicate Same(lo: int, r0: Regs, r1: Regs) {
    forall r :: 0 <= r < lo ==> Get(r1, r) == Get(r0, r)
  }

  /** Registers as control may find them at the end of f0, given what has become
      of its code: new functions start with nil registers, and control comes out
      of a LOADNIL with its registers nil. */
  ghost predicate Entry(f0: Fun, c: Code, regs: Regs) {
    f0.lasttarget < |f0.code| ==>
      && (|f0.code| == 0 ==> forall r :: f0.nactvar <= r ==> Get(regs, r) == Nil)
      && (0 < |f0.code| <= |c| && c[|f0.code| - 1].LoadNil? ==>
            NilBetween(regs, c[|f0.code| - 1].a, c[|f0.code| - 1].b))
  }

  ghost predicate Leaves(c: Code, t: seq<int>, f: seq<int>, o: Outcome, v: Value) {
    || (o.pc in t && IsExit(c, o, true, v))
    || (o.pc in f && IsExit(c, o, false, v))
  }

  /** Started at the end of f0 with regs, c falls through or leaves with v. */
  ghost predicate Runs(f0: Fun, c: Code, t: seq<int>, f: seq<int>, m: Machine, regs: Regs, v: Value) {
    var o := Exec(c, m, |f0.code|, regs);
    Proper(c, o) && Same(f0.freereg, regs, o.regs) && (o.pc < |c| ==> Leaves(c, t, f, o, v))
  }

  /** ... and having fallen through, finds v where the descriptor says. */
  ghost predicate Delivers(f0: Fun, fs: Fun, e: Exp, m: Machine, regs: Regs, v: Value) {
    var b := Body(fs, e.k);
    var o := Exec(b, m, |f0.code|, regs);
    Runs(f0, b, e.t, e.f, m, regs, v) && (o.pc == |b| ==> IsValue(fs, e.k, m, o.regs, v))
  }

  ghost predicate Good(f0: Fun, fs: Fun, e: Exp, m: Machine, regs: Regs, v: Value) {
    fs.ks <= m.ks && (Entry(f0, fs.code, regs) ==> Delivers(f0, fs, e, m, regs, v))
  }

  // ----- Emitting -----

  lemma EmitOk(f0: Fun, fs: Fun, i: Instr<Dest>, list: seq<int>)
    requires CodeOk(f0) && CodeOk(fs) && Grown(f0, fs) && ListOk(f0, fs.code, list)
    requires !IsTest(i) && !i.Jmp? && !(i.LoadBool? && i.skip)
    ensures var g := Emit(fs, i); CodeOk(g) && Grown(f0, g) && ListOk(f0, g.code, list)
    ensures Shape(Emit(fs, i).code[..|fs.code|])
  {
    hide CodeOk, Grown, ListOk, Shape, Emit;
    EmitGrown(f0, fs, i);
    EmitCode(fs, i);
    EmitList(f0, fs, i, list);
  }

  lemma EmitCode(fs: Fun, i: Instr<Dest>)
    requires CodeOk(fs) && !IsTest(i) && !i.Jmp? && !(i.LoadBool? && i.skip)
    ensures CodeOk(Emit(fs, i)) && Shape(Emit(fs, i).code[..|fs.code|])
  {
    var g := Emit(fs, i);
    assert forall k :: 0 <= k < |fs.code| && IsTest(g.code[k]) ==> IsTest(fs.code[k]);
  }

  lemma EmitList(f0: Fun, fs: Fun, i: Instr<Dest>, list: seq<int>)
    requires CodeOk(fs) && ListOk(f0, fs.code, list)
    ensures ListOk(f0, Emit(fs, i).code, list)
  {
  }

  lemma EmitGrown(f0: Fun, fs: Fun, i: Instr<Dest>)
    requires CodeOk(f0) && CodeOk(fs) && Grown(f0, fs)
    ensures Grown(f0, Emit(fs, i))
  {
    var g := Emit(fs, i);
    forall k | 0 <= k < |f0.code| ensures OldAt(f0, g, k) {
      assert OldAt(f0, fs, k);
      if fs.code[k].TestSet? && k + 1 in fs.jpc { assert Unsettled(fs.code, k + 1); }
    }
  }

  lemma EmitLeaves(fs: Fun, t: seq<int>, f: seq<int>, i: Instr<Dest>, o: Outcome, v: Value)
    requires CodeOk(fs) && Leaves(fs.code, t, f, o, v) && o.pc !in fs.jpc && 0 <= o.pc < |fs.code|
    ensures var g := Emit(fs, i).code; Leaves(g, t, f, o, v) && Leaves(g[..|fs.code|], t, f, o, v)
  {
    var c, g := fs.code, Emit(fs, i).code;
    if 1 <= o.pc {
      assert g[..|c|][o.pc - 1] == g[o.pc - 1];
      assert HasValue(c, o.pc) ==> g[o.pc - 1] == c[o.pc - 1];
      assert HasValue(g, o.pc) ==> g[o.pc - 1] == c[o.pc - 1];
    }
  }

  /** Emitting after code that runs well. */
  lemma EmitRuns(f0: Fun, fs: Fun, t: seq<int>, f: seq<int>, i: Instr<Dest>, m: Machine, regs: Regs, v: Value)
    requires CodeOk(f0) && CodeOk(fs) && Grown(f0, fs)
    requires !IsTest(i) && !i.Jmp? && !(i.LoadBool? && i.skip)
    requires Runs(f0, fs.code, t, f, m, regs, v)
    ensures var c, g, s := fs.code, Emit(fs, i).code, |f0.code|;
            var o, p := Exec(c, m, s, regs), Exec(g, m, s, regs);
            && Exec(g[..|c|], m, s, regs) == o && Runs(f0, g[..|c|], t, f, m, regs, v)
            && (if o.pc == |c| then p == Outcome(|g|, Effect(i, m, o.regs)) else p == o && Leaves(g, t, f, o, v))
  {
    var s := |f0.code|;
    var o := Exec(fs.code, m, s, regs);
    ShapeStart(f0, fs);
    EmitPrefix(fs, i, m, s, regs);
    EmitExec(fs, i, m, s, regs);
    if o.pc < |fs.code| {
      EmitLeaves(fs, t, f, i, o, v);
      var g := Emit(fs, i).code;
      assert g[o.pc] == Jmp(Open) && g[..|fs.code|][o.pc] == Jmp(Open);
    }
  }

  /** The expression does not start between a test and its jump. */
  lemma ShapeStart(f0: Fun, fs: Fun)
    requires CodeOk(f0) && Grown(f0, fs)
    ensures Start(fs.code, |f0.code|)
  {
    if 0 < |f0.code| { assert OldAt(f0, fs, |f0.code| - 1); }
  }

  lemma EntryBack(f0: Fun, c: Code, d: Code, regs: Regs)
    requires |f0.code| <= |c| && |f0.code| <= |d| && Entry(f0, d, regs)
    requires 0 < |f0.code| && c[|f0.code| - 1].LoadNil? ==>
               var x, y := c[|f0.code| - 1], d[|f0.code| - 1];
               y.LoadNil? && y.a == x.a && x.b <= y.b
    ensures Entry(f0, c, regs)
  {
  }

  // ----- Values -----

  lemma DischargeVarsOk(f0: Fun, fs: Fun, e: Exp)
    requires CodeOk(f0) && CodeOk(fs) && Grown(f0, fs) && ExpOk(f0, fs, e)
    ensures var (g, x) := DischargeVars(fs, e);
            && CodeOk(g) && Grown(f0, g) && ExpOk(f0, g, x) && g.freereg == fs.freereg
            && (RegsOk(f0, fs, e.k) ==> RegsOk(f0, g, x.k))
            && !x.k.VLocal? && !x.k.VUpval? && (e.HasJumps() <==> x.HasJumps())
  {
    if e.k.VUpval? {
      var i: Instr<Dest> := GetUpval(0, e.k.u);
      EmitOk(f0, fs, i, e.t);
      EmitOk(f0, fs, i, e.f);
      assert Emit(fs, i).code[..|fs.code|] == Emit(fs, i).code[..|Emit(fs, i).code| - 1];
    }
  }

  lemma DischargeVarsGood(f0: Fun, fs: Fun, e: Exp, m: Machine, regs: Regs, v: Value)
    requires CodeOk(f0) && CodeOk(fs) && Grown(f0, fs) && ExpOk(f0, fs, e)
    requires Good(f0, fs, e, m, regs, v)
    ensures var (g, x) := DischargeVars(fs, e); Good(f0, g, x, m, regs, v)
  {
    if e.k.VUpval? && Entry(f0, DischargeVars(fs, e).0.code, regs) {
      EntryEmit(f0, fs, GetUpval(0, e.k.u), regs);
      UpvalDelivers(f0, fs, e, m, regs, v);
    }
  }

  lemma UpvalDelivers(f0: Fun, fs: Fun, e: Exp, m: Machine, regs: Regs, v: Value)
    requires CodeOk(f0) && CodeOk(fs) && Grown(f0, fs) && ExpOk(f0, fs, e) && e.k.VUpval?
    requires Delivers(f0, fs, e, m, regs, v)
    ensures var (g, x) := DischargeVars(fs, e); Delivers(f0, g, x, m, regs, v)
  {
    var i := GetUpval(0, e.k.u);
    EmitRuns(f0, fs, e.t, e.f, i, m, regs, v);
    assert Body(Emit(fs, i), VReloc(|fs.code|)) == Emit(fs, i).code[..|fs.code|];
  }

  lemma EntryEmit(f0: Fun, fs: Fun, i: Instr<Dest>, regs: Regs)
    requires CodeOk(fs) && Grown(f0, fs) && Entry(f0, Emit(fs, i).code, regs)
    ensures Entry(f0, fs.code, regs)
  {
    EntryBack(f0, fs.code, Emit(fs, i).code, regs);
  }

  lemma LoadNilOk(f0: Fun, fs: Fun, e: Exp)
    requires CodeOk(f0) && CodeOk(fs) && Grown(f0, fs) && ExpOk(f0, fs, e) && e.k == VNil
    ensures var g := LoadNilInto(fs, f0.freereg);
            && CodeOk(g) && Grown(f0, g) && ExpOk(f0, g, e.(k := VNonReloc(f0.freereg))) && g.freereg == fs.freereg
  {
    hide Exec;
    var reg := f0.freereg;
    var g := LoadNilInto(fs, reg);
    EmitOk(f0, fs, LoadNil(reg, reg), e.t);
    EmitOk(f0, fs, LoadNil(reg, reg), e.f);
    if g.code != fs.code && |g.code| == |fs.code| {
      var z := |fs.code| - 1;
      assert |f0.code| == |fs.code|;
      forall k | 0 <= k < |f0.code| ensures OldAt(f0, g, k) { assert OldAt(f0, fs, k); }
    }
  }

  /** i puts the value of the expression into the register after the locals and
      temporaries of f0. */
  lemma IntoRegOk(f0: Fun, fs: Fun, e: Exp, i: Instr<Dest>)
    requires CodeOk(f0) && CodeOk(fs) && Grown(f0, fs) && ListOk(f0, fs.code, e.t) && ListOk(f0, fs.code, e.f)
    requires forall j :: j in e.t ==> j !in e.f
    requires !IsTest(i) && !i.Jmp? && !(i.LoadBool? && i.skip)
    ensures var g := Emit(fs, i);
            CodeOk(g) && Grown(f0, g) && ExpOk(f0, g, e.(k := VNonReloc(f0.freereg))) && g.freereg == fs.freereg
  {
    EmitOk(f0, fs, i, e.t);
    EmitOk(f0, fs, i, e.f);
  }

  lemma IntoRegDelivers(f0: Fun, fs: Fun, e: Exp, i: Instr<Dest>, m: Machine, regs: Regs, v: Value)
    requires CodeOk(f0) && CodeOk(fs) && Grown(f0, fs)
    requires !IsTest(i) && !i.Jmp? && !(i.LoadBool? && i.skip)
    requires Runs(f0, fs.code, e.t, e.f, m, regs, v)
    requires var o := Exec(fs.code, m, |f0.code|, regs);
             var r := Effect(i, m, o.regs);
             o.pc == |fs.code| ==> Get(r, f0.freereg) == v && Same(f0.freereg, o.regs, r)
    ensures Delivers(f0, Emit(fs, i), e.(k := VNonReloc(f0.freereg)), m, regs, v)
  {
    EmitRuns(f0, fs, e.t, e.f, i, m, regs, v);
  }

  /** The state before a relocatable instruction was emitted. */
  lemma BeforeReloc(f0: Fun, fs: Fun, e: Exp)
    requires CodeOk(f0) && CodeOk(fs) && Grown(f0, fs) && ExpOk(f0, fs, e) && e.k.VReloc?
    ensures var b := fs.(code := fs.code[..e.k.pc]);
            && CodeOk(b) && Grown(f0, b) && ListOk(f0, b.code, e.t) && ListOk(f0, b.code, e.f)
            && (forall i: Instr<Dest> :: Emit(b, i).code == fs.code[e.k.pc := i])
  {
    var b := fs.(code := fs.code[..e.k.pc]);
    forall k | 0 <= k < |f0.code| ensures OldAt(f0, b, k) { assert OldAt(f0, fs, k); }
    forall i: Instr<Dest> ensures Emit(b, i).code == fs.code[e.k.pc := i] {
      assert Patch(b.code, [], To(|b.code|), NO_REG, To(|b.code|)) == b.code;
    }
  }

  // ----- Into a register -----

  /** What Discharge2Reg emits for a value that takes one new instruction. */
  ghost function LoadOf(fs: Fun, k: Kind, reg: int): Instr<Dest> {
    match k
    case VFalse => LoadBool(reg, false, false)
    case VTrue => LoadBool(reg, true, false)
    case VK(i) => LoadK(reg, i)
    case VKNum(n) => LoadK(reg, AddK(fs, Num(n)).1)
    case VNonReloc(r) => Move(reg, r)
    case _ => LoadNil(reg, reg)
  }

  ghost predicate Loads(fs: Fun, k: Kind, reg: int) {
    k.VFalse? || k.VTrue? || k.VK? || k.VKNum? || (k.VNonReloc? && k.r != reg)
  }

  ghost function WithConstant(fs: Fun, k: Kind): Fun {
    if k.VKNum? then AddK(fs, Num(k.n)).0 else fs
  }

  lemma LoadsIs(fs: Fun, e: Exp, reg: int)
    requires Loads(fs, e.k, reg)
    ensures Discharge2Reg(fs, e, reg) == (Emit(WithConstant(fs, e.k), LoadOf(fs, e.k, reg)), e.(k := VNonReloc(reg)))
  {
  }

  lemma WithConstantOk(f0: Fun, fs: Fun, k: Kind)
    requires CodeOk(fs) && Grown(f0, fs)
    ensures CodeOk(WithConstant(fs, k)) && Grown(f0, WithConstant(fs, k))
  {
    var g := WithConstant(fs, k);
    assert fs.ks <= g.ks;
    forall i | 0 <= i < |f0.code| ensures OldAt(f0, g, i) { assert OldAt(f0, fs, i); }
  }

  lemma Discharge2RegOk(f0: Fun, fs: Fun, e: Exp)
    requires CodeOk(f0) && CodeOk(fs) && Grown(f0, fs) && ExpOk(f0, fs, e) && !e.k.VUpval? && !e.k.VLocal?
    ensures var (g, x) := Discharge2Reg(fs, e, f0.freereg);
            && CodeOk(g) && Grown(f0, g) && ExpOk(f0, g, x) && g.freereg == fs.freereg && x.t == e.t && x.f == e.f
            && (if e.k.VJmp? then (g, x) == (fs, e) else x.k == VNonReloc(f0.freereg))
  {
    var reg := f0.freereg;
    if Loads(fs, e.k, reg) {
      LoadsIs(fs, e, reg);
      WithConstantOk(f0, fs, e.k);
      IntoRegOk(f0, WithConstant(fs, e.k), e, LoadOf(fs, e.k, reg));
    } else if e.k == VNil {
      LoadNilOk(f0, fs, e);
    } else if e.k.VReloc? {
      BeforeReloc(f0, fs, e);
      IntoRegOk(f0, fs.(code := fs.code[..e.k.pc]), e, SetTarget(fs.code[e.k.pc], reg));
    }
  }

  lemma LoadNilGood(f0: Fun, fs: Fun, e: Exp, m: Machine, regs: Regs, v: Value)
    requires CodeOk(f0) && CodeOk(fs) && Grown(f0, fs) && ExpOk(f0, fs, e) && e.k == VNil && Good(f0, fs, e, m, regs, v)
    ensures Good(f0, LoadNilInto(fs, f0.freereg), e.(k := VNonReloc(f0.freereg)), m, regs, v)
  {
    var reg := f0.freereg;
    var g := LoadNilInto(fs, reg);
    if Entry(f0, g.code, regs) {
      if |g.code| == |fs.code| {
        assert |f0.code| == |fs.code|;
        EntryBack(f0, fs.code, g.code, regs);
      } else {
        EntryEmit(f0, fs, LoadNil(reg, reg), regs);
        IntoRegDelivers(f0, fs, e, LoadNil(reg, reg), m, regs, v);
      }
    }
  }

  lemma RelocGood(f0: Fun, fs: Fun, e: Exp, m: Machine, regs: Regs, v: Value)
    requires CodeOk(f0) && CodeOk(fs) && Grown(f0, fs) && ExpOk(f0, fs, e) && e.k.VReloc? && Good(f0, fs, e, m, regs, v)
    ensures var (g, x) := Discharge2Reg(fs, e, f0.freereg); Good(f0, g, x, m, regs, v)
  {
    var b := fs.(code := fs.code[..e.k.pc]);
    var i := SetTarget(fs.code[e.k.pc], f0.freereg);
    BeforeReloc(f0, fs, e);
    if Entry(f0, Emit(b, i).code, regs) {
      EntryEmit(f0, b, i, regs);
      EntryBack(f0, fs.code, b.code, regs);
      IntoRegDelivers(f0, b, e, i, m, regs, v);
    }
  }

  lemma LoadsGood(f0: Fun, fs: Fun, e: Exp, m: Machine, regs: Regs, v: Value)
    requires CodeOk(f0) && CodeOk(fs) && Grown(f0, fs) && ExpOk(f0, fs, e) && Loads(fs, e.k, f0.freereg)
    requires Good(f0, fs, e, m, regs, v) && WithConstant(fs, e.k).ks <= m.ks
    ensures var (g, x) := Discharge2Reg(fs, e, f0.freereg); Good(f0, g, x, m, regs, v)
  {
    hide Shape, OldAt, Leaves, Exec;
    var w, i := WithConstant(fs, e.k), LoadOf(fs, e.k, f0.freereg);
    LoadsIs(fs, e, f0.freereg);
    WithConstantOk(f0, fs, e.k);
    if Entry(f0, Emit(w, i).code, regs) {
      EntryEmit(f0, w, i, regs);
      IntoRegDelivers(f0, w, e, i, m, regs, v);
    }
  }

  lemma Discharge2RegGood(f0: Fun, fs: Fun, e: Exp, m: Machine, regs: Regs, v: Value)
    requires CodeOk(f0) && CodeOk(fs) && Grown(f0, fs) && ExpOk(f0, fs, e) && !e.k.VUpval? && !e.k.VLocal?
    requires Good(f0, fs, e, m, regs, v) && Discharge2Reg(fs, e, f0.freereg).0.ks <= m.ks
    ensures var (g, x) := Discharge2Reg(fs, e, f0.freereg); Good(f0, g, x, m, regs, v)
  {
    if Loads(fs, e.k, f0.freereg) {
      LoadsIs(fs, e, f0.freereg);
      LoadsGood(f0, fs, e, m, regs, v);
    } else if e.k == VNil {
      LoadNilGood(f0, fs, e, m, regs, v);
    } else if e.k.VReloc? {
      RelocGood(f0, fs, e, m, regs, v);
    }
  }
}
