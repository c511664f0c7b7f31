/** The expression part of the code generator as functions on values: jumps that
    wait for a destination are Open, and a jump list is the sequence of their
    positions. FuncStates.dfy runs it on lists threaded through the code. */
module CodeGen {
  import opened LuaMachine

  /** Largest constant index that fits in a register-or-constant operand. */
  const MAXINDEXRK: int := 255

  datatype Kind =
    | VNil | VTrue | VFalse
    | VK(k: int)          // constant index
    | VKNum(n: real)      // number not yet in the constant table
    | VLocal(r: int)      // local variable
    | VUpval(u: int)
    | VJmp(pc: int)       // a comparison; its jump is taken when it is true
    | VReloc(pc: int)     // instruction that can put its result anywhere
    | VNonReloc(r: int)   // value in a register

  /** Expression descriptor: where the value is when control falls through, and
      the jumps that leave the expression when it is true (t) or false (f). */
  datatype Exp = Exp(k: Kind, t: seq<int>, f: seq<int>) {
    predicate HasJumps() { t != [] || f != [] }
  }

  /** State of the generator. The jumps in jpc go to the end of the code. */
  datatype Fun = Fun(code: Code, jpc: seq<int>, lasttarget: int, freereg: int, nactvar: int, ks: seq<Value>)

  // ----- Jump lists -----

  /** The jump at j is controlled by a test that can deliver the tested value. */
  predicate HasValue<J>(c: seq<Instr<J>>, j: int) {
    1 <= j <= |c| && c[j - 1].TestSet?
  }

  /** The TESTSET t once the register that should get its value is known. */
  function Settle<J>(t: Instr<J>, reg: int): Instr<J>
    requires t.TestSet?
  {
    if reg != NO_REG && reg != t.b then TestSet(reg, t.b, t.c) else Test(t.b, t.c)
  }

  function PatchAt(c: Code, list: seq<int>, vtarget: Dest, reg: int, dtarget: Dest, i: int): Instr<Dest>
    requires 0 <= i < |c|
  {
    if i in list then Jmp(if HasValue(c, i) then vtarget else dtarget)
    else if c[i].TestSet? && i + 1 in list then Settle(c[i], reg)
    else c[i]
  }

  /** Jumps of the list go to vtarget if their test delivers a value (which then
      goes to register reg), and to dtarget otherwise. */
  function Patch(c: Code, list: seq<int>, vtarget: Dest, reg: int, dtarget: Dest): (d: Code)
    ensures |d| == |c|
  {
    seq(|c|, i requires 0 <= i < |c| => PatchAt(c, list, vtarget, reg, dtarget, i))
  }

  /** Gives every jump of the list the destination d. */
  function Aim(c: Code, list: seq<int>, d: Dest): (r: Code)
    ensures |r| == |c|
  {
    seq(|c|, i requires 0 <= i < |c| => if i in list then Jmp(d) else c[i])
  }

  /** Tests of the list no longer deliver their value. */
  function RemoveValues(c: Code, list: seq<int>): (r: Code)
    ensures |r| == |c|
  {
    seq(|c|, i requires 0 <= i < |c| => if c[i].TestSet? && i + 1 in list then Settle(c[i], NO_REG) else c[i])
  }

  predicate NeedValue<J>(c: seq<Instr<J>>, list: seq<int>) {
    exists j :: j in list && !HasValue(c, j)
  }

  // ----- Emitting instructions -----

  function Emit(fs: Fun, i: Instr<Dest>): Fun {
    var here := To(|fs.code|);
    fs.(code := Patch(fs.code, fs.jpc, here, NO_REG, here) + [i], jpc := [])
  }

  /** A new jump; jumps that were to come here join its list. */
  function Jump(fs: Fun): (Fun, seq<int>) {
    (fs.(code := Aim(fs.code, fs.jpc, Open) + [Jmp(Open)], jpc := []), [|fs.code|] + fs.jpc)
  }

  function CondJump(fs: Fun, test: Instr<Dest>): (Fun, seq<int>) {
    Jump(Emit(fs, test))
  }

  function Label(fs: Fun): Fun {
    fs.(lasttarget := |fs.code|)
  }

  function PatchToHere(fs: Fun, list: seq<int>): Fun {
    Label(fs).(code := Aim(fs.code, list, To(|fs.code|)), jpc := fs.jpc + list)
  }

  /** The instruction before the end, if control comes here only from there. */
  function Previous(fs: Fun): Instr<Dest> {
    if fs.lasttarget < |fs.code| && 0 < |fs.code| then fs.code[|fs.code| - 1] else Jmp(Open)
  }

  function LoadNilInto(fs: Fun, reg: int): Fun {
    var prev := Previous(fs);
    if fs.lasttarget < |fs.code| == 0 && fs.nactvar <= reg then fs
    else if prev.LoadNil? && prev.a <= reg <= prev.b + 1 then
      assert 0 < |fs.code|;
      if prev.b < reg then fs.(code := fs.code[|fs.code| - 1 := LoadNil(prev.a, reg)]) else fs
    else Emit(fs, LoadNil(reg, reg))
  }

  // ----- Registers and constants -----

  function Reserve(fs: Fun, n: int): Fun {
    fs.(freereg := fs.freereg + n)
  }

  function FreeReg(fs: Fun, reg: int): Fun {
    if fs.nactvar <= reg then fs.(freereg := fs.freereg - 1) else fs
  }

  function FreeExp(fs: Fun, e: Exp): Fun {
    if e.k.VNonReloc? then FreeReg(fs, e.k.r) else fs
  }

  function IndexOf(ks: seq<Value>, v: Value): (k: nat)
    ensures k <= |ks| && (k < |ks| ==> ks[k] == v) && (v in ks ==> k < |ks|)
  {
    if ks == [] || ks[0] == v then 0 else 1 + IndexOf(ks[1..], v)
  }

  /** The index of constant v, entered in the table if it is new. */
  function AddK(fs: Fun, v: Value): (r: (Fun, int))
    ensures fs.ks <= r.0.ks && 0 <= r.1 < |r.0.ks| && r.0.ks[r.1] == v
  {
    if v in fs.ks then (fs, IndexOf(fs.ks, v)) else (fs.(ks := fs.ks + [v]), |fs.ks|)
  }

  // ----- Getting a value where it is wanted -----

  function DischargeVars(fs: Fun, e: Exp): (r: (Fun, Exp))
    ensures fs.ks <= r.0.ks
  {
    match e.k
    case VLocal(r) => (fs, e.(k := VNonReloc(r)))
    case VUpval(u) => (Emit(fs, GetUpval(0, u)), e.(k := VReloc(|fs.code|)))
    case _ => (fs, e)
  }

  function SetTarget(i: Instr<Dest>, reg: int): Instr<Dest> {
    match i
    case Not(_, b) => Not(reg, b)
    case GetUpval(_, u) => GetUpval(reg, u)
    case _ => i
  }

  /** As DischargeVars; a constant, a relocatable value or a value in another
      register then goes to reg. A comparison stays what it is. */
  function Discharge2Reg(fs0: Fun, e0: Exp, reg: int): (r: (Fun, Exp))
    ensures fs0.ks <= r.0.ks
  {
    var (fs, e) := DischargeVars(fs0, e0);
    var done := e.(k := VNonReloc(reg));
    match e.k
    case VNil => (LoadNilInto(fs, reg), done)
    case VFalse => (Emit(fs, LoadBool(reg, false, false)), done)
    case VTrue => (Emit(fs, LoadBool(reg, true, false)), done)
    case VK(k) => (Emit(fs, LoadK(reg, k)), done)
    case VKNum(n) =>
      var (fs1, k) := AddK(fs, Num(n));
      (Emit(fs1, LoadK(reg, k)), done)
    case VReloc(p) =>
      (if 0 <= p < |fs.code| then fs.(code := fs.code[p := SetTarget(fs.code[p], reg)]) else fs, done)
    case VNonReloc(r) => (if reg != r then Emit(fs, Move(reg, r)) else fs, done)
    case _ => (fs, e)
  }

  function Discharge2AnyReg(fs: Fun, e: Exp): (r: (Fun, Exp))
    ensures fs.ks <= r.0.ks
  {
    if e.k.VNonReloc? then (fs, e)
    else
      var fs1 := Reserve(fs, 1);
      Discharge2Reg(fs1, e, fs1.freereg - 1)
  }

  /** Ends an expression whose value falls through into reg: its jumps come to
      the end, those without a value by way of a LOADBOOL. */
  function CloseJumps(fs: Fun, e: Exp, reg: int): (r: Fun)
    ensures r.ks == fs.ks
  {
    if NeedValue(fs.code, e.t) || NeedValue(fs.code, e.f) then
      var (fs1, fj) := if e.k.VJmp? then (fs, []) else Jump(fs);
      var pf := |fs1.code|;
      var fs2 := Emit(Label(fs1), LoadBool(reg, false, true));
      var fs3 := Emit(Label(fs2), LoadBool(reg, true, false));
      var fs4 := Label(PatchToHere(fs3, fj));
      JoinJumps(fs4, e, reg, To(pf), To(pf + 1))
    else JoinJumps(Label(fs), e, reg, Open, Open)
  }

  function JoinJumps(fs: Fun, e: Exp, reg: int, pf: Dest, pt: Dest): Fun {
    var final := To(|fs.code|);
    fs.(code := Patch(Patch(fs.code, e.f, final, reg, pf), e.t, final, reg, pt))
  }

  function Exp2Reg(fs0: Fun, e0: Exp, reg: int): (r: (Fun, Exp))
    ensures fs0.ks <= r.0.ks
  {
    var (fs, e1) := Discharge2Reg(fs0, e0, reg);
    var e := if e1.k.VJmp? then e1.(t := e1.t + [e1.k.pc]) else e1;
    (if e.HasJumps() then CloseJumps(fs, e, reg) else fs, Exp(VNonReloc(reg), [], []))
  }

  function Exp2NextReg(fs0: Fun, e0: Exp): (r: (Fun, Exp))
    ensures fs0.ks <= r.0.ks
  {
    var (fs, e) := DischargeVars(fs0, e0);
    var fs1 := Reserve(FreeExp(fs, e), 1);
    Exp2Reg(fs1, e, fs1.freereg - 1)
  }

  function Exp2AnyReg(fs0: Fun, e0: Exp): (r: (Fun, Exp))
    ensures fs0.ks <= r.0.ks
  {
    var (fs, e) := DischargeVars(fs0, e0);
    if e.k.VNonReloc? && !e.HasJumps() then (fs, e)
    else if e.k.VNonReloc? && fs.nactvar <= e.k.r then Exp2Reg(fs, e, e.k.r)
    else Exp2NextReg(fs, e)
  }

  function Exp2Val(fs: Fun, e: Exp): (r: (Fun, Exp))
    ensures fs.ks <= r.0.ks
  {
    if e.HasJumps() then Exp2AnyReg(fs, e) else DischargeVars(fs, e)
  }

  /** The constant an expression stands for, if it is one that has no index yet. */
  function NewConstant(k: Kind): seq<Value> {
    match k
    case VNil => [Nil]
    case VTrue => [Bool(true)]
    case VFalse => [Bool(false)]
    case VKNum(n) => [Num(n)]
    case _ => []
  }

  function Exp2RK(fs0: Fun, e0: Exp): (r: (Fun, Exp))
    ensures fs0.ks <= r.0.ks
  {
    var (fs, e) := Exp2Val(fs0, e0);
    var c := NewConstant(e.k);
    if c != [] && |fs.ks| <= MAXINDEXRK then
      var (fs1, k) := AddK(fs, c[0]);
      (fs1, e.(k := VK(k)))
    else if e.k.VK? && e.k.k <= MAXINDEXRK then (fs, e)
    else Exp2AnyReg(fs, e)
  }

  function Operand(e: Exp): RK {
    match e.k
    case VK(k) => K(k)
    case VNonReloc(r) => R(r)
    case _ => R(NO_REG)
  }

  // ----- Conditions -----

  /** Turns a comparison into its opposite by flipping its condition. */
  function InvertJump(fs: Fun, pc: int): Fun {
    if 1 <= pc <= |fs.code| && fs.code[pc - 1].Cmp? then
      var i := fs.code[pc - 1];
      fs.(code := fs.code[pc - 1 := Cmp(i.op, !i.cond, i.x, i.y)])
    else fs
  }

  /** Jumps if the expression's truth is cond, keeping its value. */
  function JumpOnCond(fs: Fun, e: Exp, cond: bool): (r: (Fun, seq<int>))
    ensures fs.ks <= r.0.ks
  {
    if e.k.VReloc? && 0 <= e.k.pc == |fs.code| - 1 && fs.code[e.k.pc].Not? then
      CondJump(fs.(code := fs.code[..e.k.pc]), Test(fs.code[e.k.pc].b, !cond))
    else
      var (fs1, e1) := Discharge2AnyReg(fs, e);
      CondJump(FreeExp(fs1, e1), TestSet(NO_REG, if e1.k.VNonReloc? then e1.k.r else NO_REG, cond))
  }

  function GoIfTrue(fs0: Fun, e0: Exp): (r: (Fun, Exp))
    ensures fs0.ks <= r.0.ks
  {
    var (fs, e) := DischargeVars(fs0, e0);
    var (fs1, out) :=
      match e.k
      case VK(_) => (fs, [])
      case VKNum(_) => (fs, [])
      case VTrue => (fs, [])
      case VJmp(p) => (InvertJump(fs, p), [p])
      case _ => JumpOnCond(fs, e, false);
    (PatchToHere(fs1, e.t), e.(t := [], f := e.f + out))
  }

  function GoIfFalse(fs0: Fun, e0: Exp): (r: (Fun, Exp))
    ensures fs0.ks <= r.0.ks
  {
    var (fs, e) := DischargeVars(fs0, e0);
    var (fs1, out) :=
      match e.k
      case VNil => (fs, [])
      case VFalse => (fs, [])
      case VJmp(p) => (fs, [p])
      case _ => JumpOnCond(fs, e, true);
    (PatchToHere(fs1, e.f), e.(f := [], t := e.t + out))
  }

  function Negate(fs: Fun, e: Exp): (r: (Fun, Exp))
    ensures fs.ks <= r.0.ks
  {
    match e.k
    case VNil => (fs, e.(k := VTrue))
    case VFalse => (fs, e.(k := VTrue))
    case VJmp(p) => (InvertJump(fs, p), e)
    case VReloc(_) => NegateValue(fs, e)
    case VNonReloc(_) => NegateValue(fs, e)
    case _ => (fs, e.(k := VFalse))
  }

  function NegateValue(fs: Fun, e: Exp): (r: (Fun, Exp))
    ensures fs.ks <= r.0.ks
  {
    var (fs1, e1) := Discharge2AnyReg(fs, e);
    var fs2 := FreeExp(fs1, e1);
    (Emit(fs2, Not(0, if e1.k.VNonReloc? then e1.k.r else NO_REG)), e1.(k := VReloc(|fs2.code|)))
  }

  function CodeNot(fs0: Fun, e0: Exp): (r: (Fun, Exp))
    ensures fs0.ks <= r.0.ks
  {
    var (fs, e) := DischargeVars(fs0, e0);
    var (fs1, e1) := Negate(fs, e);
    (fs1.(code := RemoveValues(RemoveValues(fs1.code, e1.t), e1.f)), e1.(t := e1.f, f := e1.t))
  }

  // ----- Operators -----

  datatype BinOp = And | Or | Eq | Ne | Lt | Le | Gt | Ge

  function CmpOf(op: BinOp): CmpOp {
    match op
    case Lt => LT
    case Gt => LT
    case Le => LE
    case Ge => LE
    case _ => EQ
  }

  function CodeComp(fs0: Fun, op: BinOp, e1: Exp, e2: Exp): (r: (Fun, Exp))
    ensures fs0.ks <= r.0.ks
  {
    var (fs1, x1) := Exp2RK(fs0, e1);
    var (fs2, x2) := Exp2RK(fs1, e2);
    var fs3 := FreeExp(FreeExp(fs2, x2), x1);
    var a, b := Operand(x1), Operand(x2);
    var test: Instr<Dest> := if op.Gt? || op.Ge? then Cmp(CmpOf(op), true, b, a) else Cmp(CmpOf(op), !op.Ne?, a, b);
    var (fs4, j) := CondJump(fs3, test);
    (fs4, x1.(k := VJmp(j[0])))
  }

  function Infix(fs: Fun, op: BinOp, e: Exp): (r: (Fun, Exp))
    ensures fs.ks <= r.0.ks
  {
    match op
    case And => GoIfTrue(fs, e)
    case Or => GoIfFalse(fs, e)
    case _ => Exp2RK(fs, e)
  }

  function Posfix(fs: Fun, op: BinOp, e1: Exp, e2: Exp): (r: (Fun, Exp))
    ensures fs.ks <= r.0.ks
  {
    match op
    case And =>
      var (fs1, x) := DischargeVars(fs, e2);
      (fs1, x.(f := x.f + e1.f))
    case Or =>
      var (fs1, x) := DischargeVars(fs, e2);
      (fs1, x.(t := x.t + e1.t))
    case _ => CodeComp(fs, op, e1, e2)
  }

  // ----- Expressions -----

  datatype Expr =
    | ENil | ETrue | EFalse | ENum(n: real) | EStr(s: string)
    | ELocal(r: int) | EUpval(u: int)
    | EParen(e: Expr) | ENot(e: Expr) | EBin(op: BinOp, left: Expr, right: Expr)

  /** The value of an expression, from the registers of the locals. */
  function Eval(x: Expr, m: Machine, regs: Regs): Value {
    match x
    case ENil => Nil
    case ETrue => Bool(true)
    case EFalse => Bool(false)
    case ENum(n) => Num(n)
    case EStr(s) => Str(s)
    case ELocal(r) => Get(regs, r)
    case EUpval(u) => Get(m.up, u)
    case EParen(e) => Eval(e, m, regs)
    case ENot(e) => Bool(Falsy(Eval(e, m, regs)))
    case EBin(op, l, r) =>
      var a, b := Eval(l, m, regs), Eval(r, m, regs);
      match op
      case And => if Falsy(a) then a else b
      case Or => if Falsy(a) then b else a
      case Eq => Bool(m.rel(EQ, a, b))
      case Ne => Bool(!m.rel(EQ, a, b))
      case Lt => Bool(m.rel(LT, a, b))
      case Le => Bool(m.rel(LE, a, b))
      case Gt => Bool(m.rel(LT, b, a))
      case Ge => Bool(m.rel(LE, b, a))
  }

  /** The calls subexpr makes for an expression. */
  function Compile(fs: Fun, x: Expr): (r: (Fun, Exp))
    ensures fs.ks <= r.0.ks
    decreases x
  {
    match x
    case ENil => (fs, Exp(VNil, [], []))
    case ETrue => (fs, Exp(VTrue, [], []))
    case EFalse => (fs, Exp(VFalse, [], []))
    case ENum(n) => (fs, Exp(VKNum(n), [], []))
    case EStr(s) =>
      var (fs1, k) := AddK(fs, Str(s));
      (fs1, Exp(VK(k), [], []))
    case ELocal(r) => (fs, Exp(VLocal(r), [], []))
    case EUpval(u) => (fs, Exp(VUpval(u), [], []))
    case EParen(e) =>
      var (fs1, e1) := Compile(fs, e);
      DischargeVars(fs1, e1)
    case ENot(e) =>
      var (fs1, e1) := Compile(fs, e);
      CodeNot(fs1, e1)
    case EBin(op, l, r) =>
      var (fs1, e1) := Compile(fs, l);
      var (fs2, x1) := Infix(fs1, op, e1);
      var (fs3, e2) := Compile(fs2, r);
      Posfix(fs3, op, x1, e2)
  }
}
