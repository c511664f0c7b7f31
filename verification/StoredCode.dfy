/** How the code that is stored, with its threaded lists, represents the abstract
    code, and what the steps of the generator do to that relation. */
module StoredCode {
  import opened LuaMachine
  import opened CodeGen
  import opened CodeGenExec
  import opened CodeGenProof
  import opened CodeGenClose
  import opened CodeGenOps
  import opened CodeGenNot
  import opened CodeGenJoin
  import opened CodeGenCorrect
  import opened JumpLists

  /** The abstract instruction of a stored one; jumps lose their operand. */
  function Lift(i: Instr<int>): Instr<Dest> {
    match i
    case Move(a, b) => Move(a, b)
    case LoadK(a, k) => LoadK(a, k)
    case LoadBool(a, v, s) => LoadBool(a, v, s)
    case LoadNil(a, b) => LoadNil(a, b)
    case GetUpval(a, b) => GetUpval(a, b)
    case Not(a, b) => Not(a, b)
    case Jmp(_) => Jmp(Open)
    case Cmp(op, c, x, y) => Cmp(op, c, x, y)
    case Test(b, c) => Test(b, c)
    case TestSet(a, b, c) => TestSet(a, b, c)
  }

  /** The comparison as it is stored. */
  function RawTest(op: BinOp, a: RK, b: RK): Instr<int> {
    if op.Gt? || op.Ge? then Cmp(CmpOf(op), true, b, a) else Cmp(CmpOf(op), !op.Ne?, a, b)
  }

  lemma LiftTest(op: BinOp, x: Exp, a: RK, b: RK)
    requires x.k.VK? || x.k.VNonReloc?
    requires a == if x.k.VK? then K(x.k.k) else R(x.k.r)
    ensures Lift(RawTest(op, a, b)) == CompTest(op, Operand(x), b) && RawTest(op, a, b).Cmp?
  {
  }

  function Blank(i: Instr<Dest>): Instr<Dest> {
    if i.Jmp? then Jmp(Open) else i
  }

  ghost predicate RepAt(c: RawCode, fun: Fun, i: int)
    requires 0 <= i < |c| && i < |fun.code|
  {
    && Lift(c[i]) == Blank(fun.code[i])
    && (fun.code[i].Jmp? && fun.code[i].to.To? && i !in fun.jpc ==> c[i] == Fix(i, fun.code[i].to.pc))
  }

  /** c stores the code of fun, and the list at jpc its pending jumps. */
  ghost predicate Rep(c: RawCode, fun: Fun, jpc: int) {
    && |c| == |fun.code|
    && (forall i :: 0 <= i < |c| ==> RepAt(c, fun, i))
    && IsChain(c, jpc, fun.jpc)
  }

  ghost predicate JpcHere(fun: Fun) {
    forall j :: j in fun.jpc ==> 0 <= j < |fun.code| && fun.code[j] == Jmp(To(|fun.code|))
  }

  lemma NotStored(c: RawCode, fun: Fun, jpc: int, p: int)
    requires Rep(c, fun, jpc) && 0 <= p < |fun.code| && fun.code[p].Not?
    ensures p < |c| && c[p].Not? && c[p].b == fun.code[p].b
    ensures forall b: int, cond: bool :: Lift(Test(b, cond)) == Test(b, cond)
  {
    assert RepAt(c, fun, p);
  }

  lemma CodeHere(fun: Fun)
    requires CodeOk(fun)
    ensures JpcHere(fun)
  {
  }

  /** The code as the machine reads it: operands are relative to the next
      instruction, but the jumps of the pending list go to the end. */
  ghost function Resolved(c: RawCode, pending: seq<int>): Code {
    seq(|c|, i requires 0 <= i < |c| =>
      if c[i].Jmp? then Jmp(To(if i in pending then |c| else i + 1 + c[i].to)) else Lift(c[i]))
  }

  lemma ResolvedAt(c: RawCode, fun: Fun, i: int)
    requires |c| == |fun.code| && 0 <= i < |c| && RepAt(c, fun, i) && CodeOk(fun)
    ensures SimAt(fun.code, Resolved(c, fun.jpc), i)
  {
    assert i in fun.jpc ==> fun.code[i] == Jmp(To(|fun.code|));
  }

  /** Stored code that runs to its end runs like the abstract code. */
  lemma ResolvedExec(f0: Fun, fun: Fun, c: RawCode, jpc: int, m: Machine, regs: Regs)
    requires Rep(c, fun, jpc) && CodeOk(f0) && CodeOk(fun) && Grown(f0, fun)
    requires Exec(fun.code, m, |f0.code|, regs).pc == |fun.code|
    ensures Exec(Resolved(c, fun.jpc), m, |f0.code|, regs) == Exec(fun.code, m, |f0.code|, regs)
  {
    hide RepAt, SimAt, CodeOk, Grown, IsChain;
    var d := Resolved(c, fun.jpc);
    forall i | 0 <= i < |c| ensures SimAt(fun.code, d, i) { ResolvedAt(c, fun, i); }
    ShapeStart(f0, fun);
    SimExec(fun.code, d, m, |f0.code|, regs);
  }

  /** Jumps that were open before the expression stay as they are stored, so the
      lists they belong to stay intact. */
  ghost predicate Kept(f0: Fun, c: RawCode, d: RawCode) {
    && |f0.code| <= |c| && |f0.code| <= |d|
    && forall j :: 0 <= j < |f0.code| && f0.code[j] == Jmp(Open) ==> d[j] == c[j]
  }

  ghost predicate KeptOpen(fun: Fun, c: RawCode, d: RawCode) {
    && |fun.code| == |c| <= |d|
    && forall j :: 0 <= j < |c| && fun.code[j] == Jmp(Open) ==> d[j] == c[j]
  }

  lemma KeptSame(fun: Fun, c: RawCode, jpc: int)
    requires Rep(c, fun, jpc)
    ensures Kept(fun, c, c)
  {
  }

  lemma GrownLocals(f0: Fun, fun: Fun)
    requires Grown(f0, fun)
    ensures fun.nactvar == f0.nactvar && f0.ks <= fun.ks
  {
  }

  /** The number of locals does not matter to a run. */
  lemma ResolvedLocals(f0: Fun, fun: Fun, c: RawCode, jpc: int, m: Machine, regs: Regs)
    requires Rep(c, fun, jpc) && CodeOk(f0) && CodeOk(fun) && f0.nactvar <= fun.nactvar
    requires Grown(f0, fun.(nactvar := f0.nactvar)) && Exec(fun.code, m, |f0.code|, regs).pc == |fun.code|
    ensures Exec(Resolved(c, fun.jpc), m, |f0.code|, regs) == Exec(fun.code, m, |f0.code|, regs)
  {
    hide Exec, Grown;
    var g := fun.(nactvar := f0.nactvar);
    assert Rep(c, g, jpc) by {
      assert forall i :: 0 <= i < |c| ==> RepAt(c, fun, i) ==> RepAt(c, g, i);
    }
    ResolvedExec(f0, g, c, jpc, m, regs);
  }

  lemma KeptFrom(f0: Fun, fun: Fun, c: RawCode, d: RawCode)
    requires Grown(f0, fun) && KeptOpen(fun, c, d)
    ensures Kept(f0, c, d)
  {
    forall j | 0 <= j < |f0.code| && f0.code[j] == Jmp(Open) ensures d[j] == c[j] { assert OldAt(f0, fun, j); }
  }

  lemma KeptTwice(f: Fun, g: Fun, c: RawCode, d: RawCode, e: RawCode)
    requires KeptOpen(f, c, d) && KeptOpen(g, d, e)
    requires forall j :: 0 <= j < |f.code| && f.code[j] == Jmp(Open) ==> j < |g.code| && g.code[j] == Jmp(Open)
    ensures KeptOpen(f, c, e)
  {
  }

  lemma KeptJump(f: Fun, c: RawCode, d: RawCode, e: RawCode)
    requires JpcHere(f) && KeptOpen(f, c, d) && KeptOpen(Jump(f).0, d, e)
    ensures KeptOpen(f, c, e)
  {
    KeptTwice(f, Jump(f).0, c, d, e);
  }

  lemma KeptEarlier(f0: Fun, f1: Fun, c: RawCode, d: RawCode)
    requires Grown(f0, f1) && Kept(f1, c, d)
    ensures Kept(f0, c, d)
  {
    forall j | 0 <= j < |f0.code| && f0.code[j] == Jmp(Open) ensures d[j] == c[j] { assert OldAt(f0, f1, j); }
  }

  lemma ListKept(f0: Fun, fun: Fun, c: RawCode, d: RawCode, head: int, list: seq<int>)
    requires ListOk(f0, fun.code, list) && KeptOpen(fun, c, d) && IsChain(c, head, list)
    ensures IsChain(d, head, list)
  {
    ChainKept(c, d, head, list);
  }

  /** The lists of the first operand outlive the compilation of the second. */
  lemma OldLists(f0: Fun, f1: Fun, c: RawCode, d: RawCode, head: int, list: seq<int>)
    requires ListOk(f0, f1.code, list) && Kept(f1, c, d) && IsChain(c, head, list)
    ensures IsChain(d, head, list)
  {
    ChainKept(c, d, head, list);
  }

  /** Two different lists that both exist start in different places. */
  lemma ChainEnds(c: RawCode, t: int, f: int, x: Exp)
    requires IsChain(c, t, x.t) && IsChain(c, f, x.f) && forall j :: j in x.t ==> j !in x.f
    ensures t != f <==> x.HasJumps()
  {
    if x.t != [] && x.f != [] { assert x.t[0] in x.t && x.f[0] in x.f; }
  }

  /** Emitting: the pending jumps are patched to the end of the code. */
  lemma EmitRep(c: RawCode, d: RawCode, fun: Fun, jpc: int, i: Instr<int>)
    requires Rep(c, fun, jpc) && JpcHere(fun) && !i.Jmp?
    requires Patched(c, d, fun.jpc, |c|, NO_REG, |c|)
    ensures Rep(d + [i], Emit(fun, Lift(i)), NO_JUMP) && KeptOpen(fun, c, d + [i])
  {
    var g := Emit(fun, Lift(i));
    forall k | 0 <= k < |d + [i]| ensures RepAt(d + [i], g, k) {
      if k < |c| {
        assert RepAt(c, fun, k) && d[k] == RawPatchAt(c, fun.jpc, |c|, NO_REG, |c|, k);
        assert g.code[k] == PatchAt(fun.code, fun.jpc, To(|c|), NO_REG, To(|c|), k);
      }
    }
    forall k | 0 <= k < |c| && fun.code[k] == Jmp(Open) ensures (d + [i])[k] == c[k] {
      assert RepAt(c, fun, k) && d[k] == RawPatchAt(c, fun.jpc, |c|, NO_REG, |c|, k);
    }
  }

  /** A new jump that takes the pending jumps into its list. */
  lemma JumpRep(c: RawCode, d: RawCode, fun: Fun, jpc: int)
    requires Rep(c, fun, jpc) && JpcHere(fun) && |d| == |c| + 1 && d[..|c|] == c && d[|c|].Jmp?
    ensures Rep(d, Jump(fun).0, NO_JUMP) && KeptOpen(fun, c, d)
  {
    var g := Jump(fun).0;
    forall k | 0 <= k < |d| ensures RepAt(d, g, k) {
      if k < |c| { assert d[..|c|][k] == d[k]; assert RepAt(c, fun, k); }
    }
    forall k | 0 <= k < |c| ensures d[k] == c[k] { assert d[..|c|][k] == d[k]; }
  }

  /** Pending jumps get company; only the end of the old list is changed. */
  lemma HereRep(c: RawCode, d: RawCode, fun: Fun, jpc: int, list: seq<int>, head: int)
    requires Rep(c, fun, jpc) && JpcHere(fun)
    requires forall j :: j in list ==> 0 <= j < |c| && fun.code[j] == Jmp(Open)
    requires |d| == |c| && IsChain(d, head, fun.jpc + list)
    requires forall j :: 0 <= j < |c| && (fun.jpc == [] || j != fun.jpc[|fun.jpc| - 1]) ==> d[j] == c[j]
    ensures Rep(d, PatchToHere(fun, list), head) && KeptOpen(fun, c, d)
  {
    var g := PatchToHere(fun, list);
    ChainJumps(d, head, fun.jpc + list);
    forall k | 0 <= k < |d| ensures RepAt(d, g, k) {
      assert RepAt(c, fun, k);
      assert k in fun.jpc + list <==> k in fun.jpc || k in list;
    }
    assert fun.jpc != [] ==> fun.jpc[|fun.jpc| - 1] in fun.jpc;
  }

  function RawTarget(i: Instr<int>, reg: int): Instr<int> {
    match i
    case Not(_, b) => Not(reg, b)
    case GetUpval(_, u) => GetUpval(reg, u)
    case _ => i
  }

  /** Changing one instruction that is no jump. */
  lemma ChangeRep(c: RawCode, fun: Fun, jpc: int, p: int, i: Instr<int>)
    requires Rep(c, fun, jpc) && 0 <= p < |c| && !c[p].Jmp? && !i.Jmp?
    ensures Rep(c[p := i], fun.(code := fun.code[p := Lift(i)]), jpc) && KeptOpen(fun, c, c[p := i])
  {
    var d, g := c[p := i], fun.(code := fun.code[p := Lift(i)]);
    forall k | 0 <= k < |c| ensures RepAt(d, g, k) { assert RepAt(c, fun, k); }
    assert RepAt(c, fun, p);
    ChainJumps(c, jpc, fun.jpc);
    ChainKept(c, d, jpc, fun.jpc);
  }

  /** The link of an open jump may change. */
  lemma OpenRep(c: RawCode, fun: Fun, jpc: int, z: int, i: Instr<int>)
    requires Rep(c, fun, jpc) && JpcHere(fun) && 0 <= z < |c| && fun.code[z] == Jmp(Open) && i.Jmp?
    ensures Rep(c[z := i], fun, jpc)
  {
    var d := c[z := i];
    forall k | 0 <= k < |c| ensures RepAt(d, fun, k) { assert RepAt(c, fun, k); }
    ChainKept(c, d, jpc, fun.jpc);
  }

  /** Sending the jumps of a list to their targets. */
  lemma PatchRep(c: RawCode, d: RawCode, fun: Fun, jpc: int, list: seq<int>, vt: int, reg: int, dt: int, dest: Dest)
    requires Rep(c, fun, jpc) && JpcHere(fun) && Patched(c, d, list, vt, reg, dt)
    requires forall j :: j in list ==> 0 <= j < |c| && fun.code[j] == Jmp(Open)
    requires dest == Open || dest == To(dt)
    ensures Rep(d, fun.(code := Patch(fun.code, list, To(vt), reg, dest)), jpc)
    ensures forall j :: 0 <= j < |c| && c[j].Jmp? && j !in list ==> d[j] == c[j]
  {
    var g := fun.(code := Patch(fun.code, list, To(vt), reg, dest));
    ChainJumps(c, jpc, fun.jpc);
    forall k | 0 <= k < |c| ensures RepAt(d, g, k) && (c[k].Jmp? && k !in list ==> d[k] == c[k]) {
      assert RepAt(c, fun, k) && d[k] == RawPatchAt(c, list, vt, reg, dt, k);
      assert g.code[k] == PatchAt(fun.code, list, To(vt), reg, dest, k);
      if 1 <= k { assert RepAt(c, fun, k - 1); }
    }
    ChainKept(c, d, jpc, fun.jpc);
  }

  lemma NeedRep(c: RawCode, fun: Fun, jpc: int, list: seq<int>)
    requires Rep(c, fun, jpc) && forall j :: j in list ==> 0 <= j < |c|
    ensures NeedValue(c, list) == NeedValue(fun.code, list)
  {
    forall j | j in list ensures HasValue(c, j) == HasValue(fun.code, j) {
      if 1 <= j { assert RepAt(c, fun, j - 1); }
    }
  }

  lemma BareRep(c: RawCode, d: RawCode, fun: Fun, jpc: int, list: seq<int>)
    requires Rep(c, fun, jpc) && |d| == |c|
    requires forall i :: 0 <= i < |c| ==> d[i] == if c[i].TestSet? && i + 1 in list then Settle(c[i], NO_REG) else c[i]
    ensures Rep(d, fun.(code := RemoveValues(fun.code, list)), jpc)
    ensures forall i :: 0 <= i < |c| && c[i].Jmp? ==> d[i] == c[i]
  {
    var g := fun.(code := RemoveValues(fun.code, list));
    ChainJumps(c, jpc, fun.jpc);
    forall i | 0 <= i < |c| ensures RepAt(d, g, i) { assert RepAt(c, fun, i); }
    ChainKept(c, d, jpc, fun.jpc);
  }

  lemma BareKept(f0: Fun, g: Fun, jpc: int, c: RawCode, d: RawCode)
    requires Grown(f0, g) && |d| == |c| && Rep(c, g, jpc)
    requires forall i :: 0 <= i < |c| && c[i].Jmp? ==> d[i] == c[i]
    ensures Kept(f0, c, d)
  {
    forall j | 0 <= j < |f0.code| && f0.code[j] == Jmp(Open)
          ensures d[j] == c[j] { assert OldAt(f0, g, j) && RepAt(c, g, j); }
  }

  lemma CloseKept(f0: Fun, fs: Fun, jpc: int, c: RawCode, d: RawCode, e: RawCode, x: Exp)
    requires Grown(f0, fs) && KeptOpen(fs, c, d) && |e| == |d|
    requires ListOk(f0, fs.code, x.t) && ListOk(f0, fs.code, x.f)
    requires forall j :: 0 <= j < |d| && d[j].Jmp? && j !in x.t && j !in x.f ==> e[j] == d[j]
    requires Rep(c, fs, jpc)
    ensures Kept(f0, c, e)
  {
    forall j | 0 <= j < |f0.code| && f0.code[j] == Jmp(Open)
          ensures e[j] == c[j] { assert OldAt(f0, fs, j) && RepAt(c, fs, j); }
  }

  lemma LoadsOpen(fs: Fun, x: Exp, reg: int)
    requires CodeOk(fs) && (x.k.VJmp? ==> fs.jpc == []) && Lists(fs, x.t, x.f)
    ensures Lists(WithLoads(fs, x, reg), x.t, x.f)
  {
    WithLoadsShape(fs, x, reg);
  }

  lemma LongIs(fs: Fun, x: Exp, reg: int)
    requires NeedValue(fs.code, x.t) || NeedValue(fs.code, x.f)
    ensures var q := WithLoads(fs, x, reg);
            CloseJumps(fs, x, reg) == JoinJumps(q, x, reg, To(|q.code| - 2), To(|q.code| - 1))
  {
  }

  lemma Discharge2RegSplit(fs: Fun, e: Exp, reg: int)
    ensures var (g, x) := DischargeVars(fs, e);
            Discharge2Reg(fs, e, reg) ==
            (Discharge2Reg(g, Exp(x.k, [], []), reg).0, if x.k.VJmp? then x else x.(k := VNonReloc(reg)))
  {
  }

  lemma OperandKept(op: BinOp, f0: Fun, f1: Fun, c: RawCode, d: RawCode, k: Kind, t: int, f: int, x: Exp)
    requires IsChain(c, t, x.t) && IsChain(c, f, x.f) && Kept(f1, c, d)
    requires if op.And? || op.Or? then TestedOk(f0, f1, x.t, x.f) else OperandOk(f0, f1, x)
    ensures IsChain(d, t, x.t) && IsChain(d, f, x.f)
  {
    if op.And? || op.Or? {
      OldLists(f0, f1, c, d, t, x.t);
      OldLists(f0, f1, c, d, f, x.f);
    }
  }

  lemma PosfixIs(f0: Fun, op: BinOp, l: Expr, r: Expr, x: Exp)
    requires var (f1, e1) := Compile(f0, l);
             var y := Infix(f1, op, e1).1;
             x.t == y.t && x.f == y.f && (op.And? || op.Or? || x == y)
    ensures var (f1, e1) := Compile(f0, l);
            var f2 := Infix(f1, op, e1).0;
            var (f3, e2) := Compile(f2, r);
            Posfix(f3, op, x, e2) == Compile(f0, EBin(op, l, r))
  {
    hide Infix, CodeComp, GoIfTrue, GoIfFalse;
  }

  /** A NOT just emitted is dropped, and its operand tested the other way. */
  lemma JumpNotIs(fs: Fun, e: Exp, cond: bool)
    requires EndsInNot(fs, e.k)
    ensures JumpOnCond(fs, e, cond) == CondJump(fs.(code := fs.code[..|fs.code| - 1]), Test(fs.code[e.k.pc].b, !cond))
  {
    hide CondJump;
  }
}
