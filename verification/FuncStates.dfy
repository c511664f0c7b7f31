/** The code generator as the source has it: one object whose fields change, and
    jump lists threaded through the code. Each method does to the abstract state
    `fun` what the function of the same name in CodeGen does. */
module FuncStates {
  import opened LuaMachine
  import opened CodeGen
  import opened CodeGenExec
  import opened CodeGenProof
  import opened CodeGenClose
  import opened CodeGenOps
  import opened CodeGenNot
  import opened CodeGenJoin
  import opened CodeGenCorrect
  import opened CodeGenLocals
  import opened JumpLists
  import opened StoredCode

  class ExpDesc {
    var k: Kind
    var t: int
    var f: int
    ghost var exp: Exp

    ghost predicate Valid(c: RawCode)
      reads this
    {
      && k == exp.k && IsChain(c, t, exp.t) && IsChain(c, f, exp.f)
      && (k.VJmp? ==> IsChain(c, k.pc, [k.pc]))
    }

    constructor (kind: Kind)
      ensures k == kind && t == NO_JUMP && f == NO_JUMP && exp == Exp(kind, [], [])
    {
      k, t, f := kind, NO_JUMP, NO_JUMP;
      exp := Exp(kind, [], []);
    }
  }

  class FuncState {
    var code: RawCode
    var jpc: int
    var lasttarget: int
    var freereg: int
    var nactvar: int
    var ks: seq<Value>
    ghost var fun: Fun

    ghost predicate Valid()
      reads this
    {
      && Rep(code, fun, jpc)
      && lasttarget == fun.lasttarget && freereg == fun.freereg && nactvar == fun.nactvar && ks == fun.ks
    }

    /** A new function, with its parameters as locals. */
    constructor (params: nat)
      ensures Valid() && fun == Fun([], [], -1, params, params, [])
    {
      code, jpc, lasttarget, freereg, nactvar, ks := [], NO_JUMP, -1, params, params, [];
      fun := Fun([], [], -1, params, params, []);
    }

    // ----- Lists -----

    method Concat(l1: int, l2: int, ghost a: seq<int>, ghost b: seq<int>) returns (l: int)
      requires IsChain(code, l1, a) && IsChain(code, l2, b) && forall j :: j in a ==> j !in b
      modifies `code
      ensures IsChain(code, l, a + b)
      ensures if a == [] || b == [] then code == old(code)
              else 0 <= a[|a| - 1] < |old(code)| && code == old(code)[a[|a| - 1] := Fix(a[|a| - 1], l2)]
    {
      if l2 == NO_JUMP { assert a + b == a; return l1; }
      if l1 == NO_JUMP { assert a + b == b; return l2; }
      var list, next := l1, Next(code, l1);
      ghost var i := 0;
      while next != NO_JUMP
        invariant 0 <= i < |a| && list == a[i] && IsChain(code, list, a[i..]) && next == Next(code, list)
        decreases |a| - i
      {
        list, next := next, Next(code, next);
        i := i + 1;
      }
      ChainAppend(code, l1, a, b, l2);
      code := code[list := Fix(list, l2)];
      return l1;
    }

    method NeedsValue(list: int, ghost l: seq<int>) returns (r: bool)
      requires IsChain(code, list, l)
      ensures r == NeedValue(code, l)
    {
      var p := list;
      ghost var i := 0;
      while p != NO_JUMP
        invariant 0 <= i <= |l| && IsChain(code, p, l[i..]) && forall j :: 0 <= j < i ==> HasValue(code, l[j])
        decreases |l| - i
      {
        if !(1 <= p && code[p - 1].TestSet?) {
          assert l[i] in l && !HasValue(code, l[i]);
          return true;
        }
        p := Next(code, p);
        i := i + 1;
      }
      return false;
    }

    /** The instruction that controls the jump at node gets its register or
        becomes a plain test, if it is a TESTSET. */
    method PatchTestReg(node: int, reg: int) returns (ok: bool)
      requires 0 <= node < |code| && code[node].Jmp?
      modifies `code
      ensures ok == HasValue(old(code), node)
      ensures code == if ok then old(code)[node - 1 := Settle(old(code)[node - 1], reg)] else old(code)
    {
      var i := if 1 <= node && IsTest(code[node - 1]) then node - 1 else node;
      if !code[i].TestSet? { return false; }
      code := code[i := Settle(code[i], reg)];
      return true;
    }

    method RemoveListValues(list: int, ghost l: seq<int>)
      requires IsChain(code, list, l)
      modifies `code
      ensures |code| == |old(code)| && forall i :: 0 <= i < |code| ==>
                code[i] == if old(code)[i].TestSet? && i + 1 in l then Settle(old(code)[i], NO_REG) else old(code)[i]
    {
      var p := list;
      ghost var n := 0;
      ghost var c := code;
      ChainDistinct(c, list, l);
      ChainJumps(c, list, l);
      while p != NO_JUMP
        invariant 0 <= n <= |l| && IsChain(code, p, l[n..]) && |code| == |c|
        invariant forall i :: 0 <= i < |c| ==>
                    code[i] == if c[i].TestSet? && i + 1 in l[..n] then Settle(c[i], NO_REG) else c[i]
        decreases |l| - n
      {
        assert p == l[n] && l[n] in l && l[..n + 1] == l[..n] + [p];
        ghost var before := code;
        var _ := PatchTestReg(p, NO_REG);
        ChainKept(before, code, p, l[n..]);
        p := Next(code, p);
        n := n + 1;
      }
      assert l[..n] == l;
    }

    method PatchListAux(list: int, vtarget: int, reg: int, dtarget: int, ghost l: seq<int>)
      requires IsChain(code, list, l)
      modifies `code
      ensures Patched(old(code), code, l, vtarget, reg, dtarget)
    {
      var p := list;
      ghost var n := 0;
      ghost var c := code;
      ChainDistinct(c, list, l);
      ChainJumps(c, list, l);
      while p != NO_JUMP
        invariant 0 <= n <= |l| && IsChain(code, p, l[n..])
        invariant Patched(c, code, l[..n], vtarget, reg, dtarget)
        decreases |l| - n
      {
        ghost var before := code;
        var next := Next(code, p);
        var ok := PatchTestReg(p, reg);
        code := code[p := Fix(p, if ok then vtarget else dtarget)];
        PatchStep(c, before, code, l, n, vtarget, reg, dtarget);
        RestOfChain(before, code, p, next, l, n);
        p := next;
        n := n + 1;
      }
      assert l[..n] == l;
    }

    // ----- Emitting -----

    /** Stores an instruction that is no jump; pending jumps come to it. */
    method EmitInstr(i: Instr<int>) returns (pc: int)
      requires Valid() && JpcHere(fun) && !i.Jmp?
      modifies `code, `jpc, `fun
      ensures Valid() && fun == Emit(old(fun), Lift(i)) && pc == |old(code)|
      ensures KeptOpen(old(fun), old(code), code)
    {
      ghost var c := code;
      PatchListAux(jpc, |code|, NO_REG, |code|, fun.jpc);
      EmitRep(c, code, fun, jpc, i);
      pc := |code|;
      code := code + [i];
      jpc := NO_JUMP;
      fun := Emit(fun, Lift(i));
    }

    method JumpAhead() returns (list: int)
      requires Valid() && JpcHere(fun)
      modifies `code, `jpc, `fun
      ensures Valid() && fun == Jump(old(fun)).0 && IsChain(code, list, Jump(old(fun)).1)
      ensures KeptOpen(old(fun), old(code), code)
    {
      var saved, j := jpc, |code|;
      ghost var c := code;
      jpc := NO_JUMP;
      code := code + [Jmp(NO_JUMP)];
      ChainKept(c, code, saved, fun.jpc);
      list := Concat(j, saved, [j], fun.jpc);
      assert code[..|c|] == c;
      JumpRep(c, code, fun, saved);
      fun := Jump(fun).0;
    }

    method CondJumpAhead(test: Instr<int>) returns (list: int)
      requires Valid() && JpcHere(fun) && !test.Jmp?
      modifies `code, `jpc, `fun
      ensures Valid() && fun == CondJump(old(fun), Lift(test)).0
            && IsChain(code, list, CondJump(old(fun), Lift(test)).1)
      ensures KeptOpen(old(fun), old(code), code)
    {
      ghost var f := fun;
      var _ := EmitInstr(test);
      ghost var c := code;
      list := JumpAhead();
      assert forall j :: 0 <= j < |f.code| && f.code[j] == Jmp(Open) ==> Emit(f, Lift(test)).code[j] == Jmp(Open);
    }

    method GetLabel()
      requires Valid()
      modifies `lasttarget, `fun
      ensures Valid() && fun == Label(old(fun))
    {
      lasttarget := |code|;
      fun := Label(fun);
      assert forall i :: 0 <= i < |code| ==> RepAt(code, old(fun), i) ==> RepAt(code, fun, i);
    }

    method PatchListHere(list: int, ghost l: seq<int>)
      requires Valid() && JpcHere(fun) && IsChain(code, list, l)
      requires forall j :: j in l ==> 0 <= j < |code| && fun.code[j] == Jmp(Open)
      modifies `code, `jpc, `fun, `lasttarget
      ensures Valid() && fun == PatchToHere(old(fun), l)
      ensures KeptOpen(old(fun), old(code), code)
    {
      ghost var c, head := code, jpc;
      lasttarget := |code|;
      jpc := Concat(jpc, list, fun.jpc, l);
      assert l == [] ==> fun.jpc + l == fun.jpc;
      HereRep(c, code, fun, head, l, jpc);
      fun := PatchToHere(fun, l);
    }

    // ----- Registers and constants -----

    method LoadNils(reg: int)
      requires Valid() && JpcHere(fun)
      modifies `code, `jpc, `fun
      ensures Valid() && fun == LoadNilInto(old(fun), reg)
      ensures KeptOpen(old(fun), old(code), code)
    {
      if lasttarget < |code| {
        if |code| == 0 {
          if nactvar <= reg { return; }
        } else {
          var prev := code[|code| - 1];
          assert RepAt(code, fun, |code| - 1);
          if prev.LoadNil? && prev.a <= reg <= prev.b + 1 {
            if prev.b < reg {
              ChangeRep(code, fun, jpc, |code| - 1, LoadNil(prev.a, reg));
              code := code[|code| - 1 := LoadNil(prev.a, reg)];
              fun := fun.(code := fun.code[|code| - 1 := LoadNil(prev.a, reg)]);
            }
            return;
          }
        }
      }
      var _ := EmitInstr(LoadNil(reg, reg));
    }

    method AddConstant(v: Value) returns (k: int)
      requires Valid()
      modifies `ks, `fun
      ensures Valid() && (fun, k) == AddK(old(fun), v)
    {
      if v in ks {
        k := IndexOf(ks, v);
      } else {
        k := |ks|;
        ks := ks + [v];
        fun := fun.(ks := fun.ks + [v]);
        assert forall i :: 0 <= i < |code| ==> RepAt(code, old(fun), i) ==> RepAt(code, fun, i);
      }
    }

    method ReserveRegs(n: int)
      requires Valid()
      modifies `freereg, `fun
      ensures Valid() && fun == Reserve(old(fun), n)
    {
      freereg := freereg + n;
      fun := Reserve(fun, n);
      assert forall i :: 0 <= i < |code| ==> RepAt(code, old(fun), i) ==> RepAt(code, fun, i);
    }

    method FreeRegister(reg: int)
      requires Valid()
      modifies `freereg, `fun
      ensures Valid() && fun == FreeReg(old(fun), reg)
    {
      if nactvar <= reg { freereg := freereg - 1; }
      fun := FreeReg(fun, reg);
      assert forall i :: 0 <= i < |code| ==> RepAt(code, old(fun), i) ==> RepAt(code, fun, i);
    }

    method FreeExpression(e: ExpDesc)
      requires Valid() && e.k == e.exp.k
      modifies `freereg, `fun
      ensures Valid() && fun == FreeExp(old(fun), e.exp)
    {
      if e.k.VNonReloc? { FreeRegister(e.k.r); }
    }

    // ----- Values -----

    /** The expression in e, compiled from f0, is in order. */
    ghost predicate Ready(f0: Fun, e: ExpDesc)
      reads this, e
    {
      Valid() && e.Valid(code) && CodeOk(f0) && CodeOk(fun) && Grown(f0, fun) && ExpOk(f0, fun, e.exp)
    }

    method DischargeVariables(e: ExpDesc, ghost f0: Fun)
      requires Ready(f0, e)
      modifies this, e
      ensures Valid() && e.Valid(code) && Kept(f0, old(code), code)
      ensures (fun, e.exp) == DischargeVars(old(fun), old(e.exp))
    {
      ghost var c, f := code, fun;
      KeptFrom(f0, f, c, code);
      if e.k.VLocal? {
        e.k := VNonReloc(e.k.r);
        e.exp := e.exp.(k := e.k);
      } else if e.k.VUpval? {
        var pc := EmitInstr(GetUpval(0, e.k.u));
        e.k := VReloc(pc);
        e.exp := e.exp.(k := e.k);
        KeptFrom(f0, f, c, code);
        ListKept(f0, f, c, code, e.t, e.exp.t);
        ListKept(f0, f, c, code, e.f, e.exp.f);
      }
    }

    /** The value of a discharged descriptor goes to reg. */
    method PutInReg(kind: Kind, reg: int, ghost f0: Fun)
      requires Valid() && CodeOk(fun) && KindOk(f0, fun, kind) && !kind.VLocal? && !kind.VUpval?
      modifies this
      ensures Valid() && fun == Discharge2Reg(old(fun), Exp(kind, [], []), reg).0
      ensures KeptOpen(old(fun), old(code), code)
    {
      match kind {
        case VNil => LoadNils(reg);
        case VFalse => var _ := EmitInstr(LoadBool(reg, false, false));
        case VTrue => var _ := EmitInstr(LoadBool(reg, true, false));
        case VK(k) => var _ := EmitInstr(LoadK(reg, k));
        case VKNum(n) =>
          var k := AddConstant(Num(n));
          var _ := EmitInstr(LoadK(reg, k));
        case VReloc(p) =>
          assert RepAt(code, fun, p);
          ChangeRep(code, fun, jpc, p, RawTarget(code[p], reg));
          code := code[p := RawTarget(code[p], reg)];
          fun := fun.(code := fun.code[p := SetTarget(fun.code[p], reg)]);
        case VNonReloc(r) =>
          if reg != r { var _ := EmitInstr(Move(reg, r)); }
        case _ =>
      }
    }

    method DischargeToReg(e: ExpDesc, reg: int, ghost f0: Fun)
      requires Ready(f0, e)
      modifies this, e
      ensures Valid() && e.Valid(code) && Kept(f0, old(code), code)
      ensures (fun, e.exp) == Discharge2Reg(old(fun), old(e.exp), reg)
    {
      ghost var fun0, exp0 := fun, e.exp;
      DischargeVarsOk(f0, fun0, exp0);
      DischargeVariables(e, f0);
      ghost var c, f := code, fun;
      PutInReg(e.k, reg, f0);
      Discharge2RegSplit(fun0, exp0, reg);
      KeptFrom(f0, f, c, code);
      ListKept(f0, f, c, code, e.t, e.exp.t);
      ListKept(f0, f, c, code, e.f, e.exp.f);
      if !e.k.VJmp? {
        e.k := VNonReloc(reg);
        e.exp := e.exp.(k := e.k);
      }
    }

    // ----- Ending an expression -----

    method CodeLabel(a: int, v: bool, skip: bool) returns (pc: int)
      requires Valid() && fun.jpc == []
      modifies this
      ensures Valid() && fun == Emit(Label(old(fun)), LoadBool(a, v, skip)) && pc == |old(code)|
      ensures KeptOpen(old(fun), old(code), code)
    {
      GetLabel();
      pc := EmitInstr(LoadBool(a, v, skip));
    }

    /** Loads of false and true for jumps that carry no value. */
    method EmitLoads(own: bool, reg: int, ghost x: Exp) returns (pf: int)
      requires Valid() && CodeOk(fun) && own == x.k.VJmp? && (own ==> fun.jpc == [])
      modifies this
      ensures Valid() && JpcHere(fun) && fun == WithLoads(old(fun), x, reg) && pf == |code| - 2
      ensures KeptOpen(old(fun), old(code), code)
    {
      hide Shape, Unsettled, AfterLoads;
      ghost var f0, c0 := fun, code;
      WithLoadsShape(f0, x, reg);
      if own {
        pf := LoadsAndHere(NO_JUMP, reg, []);
      } else {
        var fj := JumpAhead();
        ghost var c1 := code;
        pf := LoadsAndHere(fj, reg, Jump(f0).1);
        KeptJump(f0, c0, c1, code);
      }
    }

    method LoadsAndHere(fj: int, reg: int, ghost l: seq<int>) returns (pf: int)
      requires Valid() && fun.jpc == [] && IsChain(code, fj, l)
      requires forall j :: j in l ==> 0 <= j < |code| && fun.code[j] == Jmp(Open)
      modifies this
      ensures Valid() && pf == |old(code)| && fun == AfterLoads(old(fun), l, reg)
      ensures KeptOpen(old(fun), old(code), code)
    {
      ghost var f1, c1 := fun, code;
      pf := CodeLabel(reg, false, true);
      ghost var f2, c2 := fun, code;
      var _ := CodeLabel(reg, true, false);
      NoList(f1.code);
      NoList(f2.code);
      KeptTwice(f1, f2, c1, c2, code);
      ghost var f3, c3 := fun, code;
      ChainKept(c1, c3, fj, l);
      PatchListHere(fj, l);
      KeptTwice(f1, f3, c1, c3, code);
      GetLabel();
    }

    method JoinLists(e: ExpDesc, reg: int, pf: int, ghost x: Exp, ghost dest: Dest, ghost dest': Dest)
      requires Valid() && JpcHere(fun) && IsChain(code, e.t, x.t) && IsChain(code, e.f, x.f)
      requires Lists(fun, x.t, x.f) && (dest == Open || dest == To(pf)) && (dest' == Open || dest' == To(pf + 1))
      modifies `code, `fun
      ensures Valid() && fun == JoinJumps(old(fun), x, reg, dest, dest')
      ensures |code| == |old(code)|
      ensures forall j :: 0 <= j < |code| && old(code)[j].Jmp? && j !in x.t && j !in x.f ==> code[j] == old(code)[j]
    {
      ghost var f0, c0 := fun, code;
      var final := |code|;
      ChainJumps(code, e.t, x.t);
      PatchListAux(e.f, final, reg, pf, x.f);
      PatchRep(c0, code, f0, jpc, x.f, final, reg, pf, dest);
      ghost var c1 := code;
      fun := fun.(code := Patch(fun.code, x.f, To(final), reg, dest));
      forall j | j in x.t ensures fun.code[j] == Jmp(Open) && c1[j] == c0[j] {
        assert fun.code[j] == PatchAt(f0.code, x.f, To(final), reg, dest, j);
      }
      forall j | j in fun.jpc ensures 0 <= j < |fun.code| && fun.code[j] == Jmp(To(|fun.code|)) {
        assert fun.code[j] == PatchAt(f0.code, x.f, To(final), reg, dest, j);
      }
      ChainKept(c0, c1, e.t, x.t);
      PatchListAux(e.t, final, reg, pf + 1, x.t);
      PatchRep(c1, code, fun, jpc, x.t, final, reg, pf + 1, dest');
      fun := fun.(code := Patch(fun.code, x.t, To(final), reg, dest'));
    }

    /** Ends an expression whose value falls through into reg. */
    method CloseLists(e: ExpDesc, reg: int, ghost f0: Fun, ghost x: Exp)
      requires Closable(f0, e, x)
      modifies this
      ensures Valid() && fun == CloseJumps(old(fun), x, reg) && Kept(f0, old(code), code)
    {
      NeedRep(code, fun, jpc, x.t);
      NeedRep(code, fun, jpc, x.f);
      var need := NeedsValue(e.t, x.t);
      if !need { need := NeedsValue(e.f, x.f); }
      if need { CloseLong(e, reg, f0, x); } else { CloseShort(e, reg, f0, x); }
    }

    ghost predicate Closable(f0: Fun, e: ExpDesc, x: Exp)
      reads this, e
    {
      && Valid() && CodeOk(fun) && Grown(f0, fun) && e.k == x.k
      && IsChain(code, e.t, x.t) && IsChain(code, e.f, x.f) && Lists(fun, x.t, x.f)
      && ListOk(f0, fun.code, x.t) && ListOk(f0, fun.code, x.f)
      && (x.k.VJmp? ==> fun.jpc == [] && NeedValue(fun.code, x.t))
    }

    method CloseLong(e: ExpDesc, reg: int, ghost f0: Fun, ghost x: Exp)
      requires Closable(f0, e, x) && (NeedValue(fun.code, x.t) || NeedValue(fun.code, x.f))
      modifies this
      ensures Valid() && fun == CloseJumps(old(fun), x, reg) && Kept(f0, old(code), code)
    {
      hide Shape, OldAt, Unsettled, WithLoads, JoinJumps, CloseJumps, ClosedAt;
      ghost var fs, c, head := fun, code, jpc;
      var pf := EmitLoads(e.k.VJmp?, reg, x);
      LoadsOpen(fs, x, reg);
      ListKept(f0, fs, c, code, e.t, x.t);
      ListKept(f0, fs, c, code, e.f, x.f);
      ghost var d := code;
      LongIs(fs, x, reg);
      JoinLists(e, reg, pf, x, To(pf), To(pf + 1));
      CloseKept(f0, fs, head, c, d, code, x);
    }

    method CloseShort(e: ExpDesc, reg: int, ghost f0: Fun, ghost x: Exp)
      requires Closable(f0, e, x) && !NeedValue(fun.code, x.t) && !NeedValue(fun.code, x.f)
      modifies this
      ensures Valid() && fun == CloseJumps(old(fun), x, reg) && Kept(f0, old(code), code)
    {
      ghost var fs, c, head := fun, code, jpc;
      GetLabel();
      JoinLists(e, reg, NO_JUMP, x, Open, Open);
      CloseKept(f0, fs, head, c, c, code, x);
    }

    /** The jump of a comparison joins those taken when the expression is true. */
    method AddOwnJump(e: ExpDesc, ghost f0: Fun)
      requires Ready(f0, e) && e.k.VJmp?
      modifies `code, e`t
      ensures Valid() && Kept(f0, old(code), code)
      ensures IsChain(code, e.t, WithOwnJump(e.exp).t) && IsChain(code, e.f, e.exp.f)
    {
      ghost var p, c, a := e.k.pc, code, e.exp.t;
      e.t := Concat(e.t, e.k.pc, a, [p]);
      if a != [] {
        assert a[|a| - 1] in a;
        OpenRep(c, fun, jpc, a[|a| - 1], Fix(a[|a| - 1], p));
        ChainKept(c, code, e.f, e.exp.f);
      }
    }

    method CloseExp(e: ExpDesc, reg: int, ghost f0: Fun)
      requires Ready(f0, e) && (e.k.VJmp? || e.k == VNonReloc(reg))
      modifies this, e
      ensures Valid() && e.Valid(code) && Kept(f0, old(code), code) && e.exp == Exp(VNonReloc(reg), [], [])
      ensures var x := WithOwnJump(old(e.exp)); fun == if x.HasJumps() then CloseJumps(old(fun), x, reg) else old(fun)
    {
      hide Shape, OldAt, Unsettled, CloseJumps;
      ghost var x := WithOwnJump(e.exp);
      OwnJump(f0, fun, e.exp);
      if e.k.VJmp? { AddOwnJump(e, f0); }
      ChainEnds(code, e.t, e.f, x);
      if e.t != e.f { CloseLists(e, reg, f0, x); }
      Located(e, reg);
    }

    /** The value is in a register, and no jumps wait for it. */
    method Located(e: ExpDesc, reg: int)
      modifies e
      ensures e.Valid(code) && e.exp == Exp(VNonReloc(reg), [], [])
    {
      e.t, e.f, e.k := NO_JUMP, NO_JUMP, VNonReloc(reg);
      e.exp := Exp(VNonReloc(reg), [], []);
    }

    method ExpToReg(e: ExpDesc, reg: int, ghost f0: Fun)
      requires Ready(f0, e) && reg == f0.freereg && !e.exp.k.VLocal? && !e.exp.k.VUpval?
      modifies this, e
      ensures Valid() && e.Valid(code) && Kept(f0, old(code), code)
      ensures (fun, e.exp) == Exp2Reg(old(fun), old(e.exp), reg)
    {
      Discharge2RegOk(f0, fun, e.exp);
      DischargeToReg(e, reg, f0);
      CloseExp(e, reg, f0);
    }

    // ----- Into the next register, any register, or an operand -----

    ghost predicate InOrder(f0: Fun, e: ExpDesc)
      reads this, e
    {
      Valid() && e.Valid(code) && Inv(f0, fun, e.exp)
    }

    method ExpToNextReg(e: ExpDesc, ghost f0: Fun)
      requires InOrder(f0, e)
      modifies this, e
      ensures InOrder(f0, e) && Kept(f0, old(code), code)
      ensures (fun, e.exp) == Exp2NextReg(old(fun), old(e.exp))
    {
      ghost var f, x := fun, e.exp;
      Exp2NextRegOk(f0, f, x);
      DischargeVarsOk(f0, f, x);
      DischargeVariables(e, f0);
      ghost var g := fun;
      FreeExpression(e);
      ReserveRegs(1);
      OtherRegs(f0, g, fun, e.exp);
      ExpToReg(e, freereg - 1, f0);
    }

    method ExpToAnyReg(e: ExpDesc, ghost f0: Fun)
      requires InOrder(f0, e)
      modifies this, e
      ensures InOrder(f0, e) && Kept(f0, old(code), code)
      ensures (fun, e.exp) == Exp2AnyReg(old(fun), old(e.exp))
    {
      ghost var f, x := fun, e.exp;
      Exp2AnyRegOk(f0, f, x);
      DischargeVarsOk(f0, f, x);
      DischargeVariables(e, f0);
      ChainEnds(code, e.t, e.f, e.exp);
      if e.k.VNonReloc? {
        if e.t == e.f { return; }
        if nactvar <= e.k.r {
          ExpToReg(e, e.k.r, f0);
          return;
        }
      }
      ExpToNextReg(e, f0);
    }

    method ExpToVal(e: ExpDesc, ghost f0: Fun)
      requires InOrder(f0, e)
      modifies this, e
      ensures InOrder(f0, e) && Kept(f0, old(code), code)
      ensures (fun, e.exp) == Exp2Val(old(fun), old(e.exp))
    {
      ghost var f, x := fun, e.exp;
      Exp2ValOk(f0, f, x);
      ChainEnds(code, e.t, e.f, e.exp);
      if e.t != e.f { ExpToAnyReg(e, f0); } else { DischargeVariables(e, f0); }
    }

    /** Makes the expression an operand of a comparison, which it returns. */
    method ExpToRK(e: ExpDesc, ghost f0: Fun) returns (rk: RK)
      requires InOrder(f0, e)
      modifies this, e
      ensures Valid() && e.Valid(code) && OperandOk(f0, fun, e.exp) && Kept(f0, old(code), code)
      ensures (fun, e.exp) == Exp2RK(old(fun), old(e.exp)) && rk == Operand(e.exp)
    {
      hide Grown, ListOk, Shape, RepAt, Exp2AnyReg;
      ghost var f, x := fun, e.exp;
      Exp2RKOk(f0, f, x);
      Exp2ValOk(f0, f, x);
      ExpToVal(e, f0);
      if (e.k.VNil? || e.k.VTrue? || e.k.VFalse? || e.k.VKNum?) && |ks| <= MAXINDEXRK {
        var c := NewConstant(e.k);
        var k := AddConstant(c[0]);
        e.k := VK(k);
        e.exp := e.exp.(k := e.k);
        return K(k);
      } else if e.k.VK? && e.k.k <= MAXINDEXRK {
        return K(e.k.k);
      }
      ghost var g, y := fun, e.exp;
      Exp2AnyRegOk(f0, g, y);
      ExpToAnyReg(e, f0);
      return R(e.k.r);
    }

    // ----- Conditions -----

    method InvertComparison(pc: int)
      requires Valid() && 1 <= pc < |code| && fun.code[pc - 1].Cmp?
      modifies `code, `fun
      ensures Valid() && fun == InvertJump(old(fun), pc) && KeptOpen(old(fun), old(code), code)
    {
      assert RepAt(code, fun, pc - 1);
      var i := code[pc - 1];
      var inverse: Instr<int> := Cmp(i.op, !i.cond, i.x, i.y);
      ChangeRep(code, fun, jpc, pc - 1, inverse);
      code := code[pc - 1 := inverse];
      fun := InvertJump(fun, pc);
    }

    method DischargeToAnyReg(e: ExpDesc, ghost f0: Fun)
      requires InOrder(f0, e) && Testable(e.exp.k)
      modifies this, e
      ensures InOrder(f0, e) && e.exp.k.VNonReloc? && Kept(f0, old(code), code)
      ensures (fun, e.exp) == Discharge2AnyReg(old(fun), old(e.exp)) && e.exp.t == old(e.exp).t
            && e.exp.f == old(e.exp).f
    {
      hide Shape, OldAt, Unsettled;
      Discharge2AnyRegOk(f0, fun, e.exp);
      if e.k.VNonReloc? { return; }
      ghost var g := fun;
      ReserveRegs(1);
      OtherRegs(f0, g, fun, e.exp);
      DischargeToReg(e, freereg - 1, f0);
    }

    /** Takes back the last instruction, which no jump comes after. */
    method RemoveLast(ghost f0: Fun)
      requires Valid() && 0 < |code| && fun.jpc == [] && |f0.code| < |code| && Grown(f0, fun)
      modifies `code, `fun
      ensures Valid() && fun == old(fun).(code := old(fun).code[..|old(code)| - 1]) && Kept(f0, old(code), code)
      ensures code == old(code)[..|old(code)| - 1]
    {
      ghost var c, g := code, fun;
      code := code[..|code| - 1];
      fun := fun.(code := fun.code[..|fun.code| - 1]);
      forall i | 0 <= i < |code| ensures RepAt(code, fun, i) { assert RepAt(c, g, i); }
    }

    /** Jumps if the expression's truth is cond, keeping its value. */
    method JumpIf(e: ExpDesc, cond: bool, ghost f0: Fun) returns (list: int)
      requires InOrder(f0, e) && Testable(e.exp.k)
      modifies this, e
      ensures Valid() && Kept(f0, old(code), code)
      ensures var (g, out) := JumpOnCond(old(fun), old(e.exp), cond); fun == g && IsChain(code, list, out)
      ensures IsChain(code, e.t, old(e.exp).t) && IsChain(code, e.f, old(e.exp).f)
    {
      hide Grown, ListOk, Shape, CondJump;
      if e.k.VReloc? {
        assert RepAt(code, fun, e.k.pc);
        if code[e.k.pc].Not? {
          list := JumpIfNot(e, cond, f0);
          return;
        }
      }
      ghost var f, x := fun, e.exp;
      Discharge2AnyRegOk(f0, f, x);
      DischargeToAnyReg(e, f0);
      list := JumpIfValue(e, cond, f0);
    }

    /** A test and its jump, with the lists of e kept. */
    method CondJumpFor(e: ExpDesc, test: Instr<int>, ghost f0: Fun) returns (list: int)
      requires Valid() && JpcHere(fun) && Grown(f0, fun) && !test.Jmp?
      requires IsChain(code, e.t, e.exp.t) && IsChain(code, e.f, e.exp.f)
      requires ListOk(f0, fun.code, e.exp.t) && ListOk(f0, fun.code, e.exp.f)
      modifies this
      ensures Valid() && Kept(f0, old(code), code)
      ensures fun == CondJump(old(fun), Lift(test)).0 && IsChain(code, list, CondJump(old(fun), Lift(test)).1)
      ensures IsChain(code, e.t, e.exp.t) && IsChain(code, e.f, e.exp.f)
    {
      ghost var c, g := code, fun;
      list := CondJumpAhead(test);
      ListKept(f0, g, c, code, e.t, e.exp.t);
      ListKept(f0, g, c, code, e.f, e.exp.f);
      KeptFrom(f0, g, c, code);
    }

    method JumpIfNot(e: ExpDesc, cond: bool, ghost f0: Fun) returns (list: int)
      requires InOrder(f0, e) && EndsInNot(fun, e.exp.k)
      modifies this
      ensures Valid() && Kept(f0, old(code), code)
      ensures var (g, out) := JumpOnCond(old(fun), old(e.exp), cond); fun == g && IsChain(code, list, out)
      ensures IsChain(code, e.t, e.exp.t) && IsChain(code, e.f, e.exp.f)
    {
      hide CondJump, JumpOnCond, Lift, Blank, Shape, OldAt, SimAt, Unsettled, ListOk, RepAt, IsChain, Grown;
      ghost var c0 := code;
      NotStored(code, fun, jpc, e.k.pc);
      BeforeReloc(f0, fun, e.exp);
      JumpNotIs(fun, e.exp, cond);
      var b := code[e.k.pc].b;
      RemoveLast(f0);
      ChainKept(c0, code, e.t, e.exp.t);
      ChainKept(c0, code, e.f, e.exp.f);
      list := CondJumpFor(e, Test(b, !cond), f0);
    }

    method JumpIfValue(e: ExpDesc, cond: bool, ghost f0: Fun) returns (list: int)
      requires InOrder(f0, e) && e.exp.k.VNonReloc?
      modifies this
      ensures Valid() && Kept(f0, old(code), code)
      ensures var (g, out) := CondJump(FreeExp(old(fun), e.exp), TestSet(NO_REG, e.exp.k.r, cond));
              fun == g && IsChain(code, list, out)
      ensures IsChain(code, e.t, e.exp.t) && IsChain(code, e.f, e.exp.f)
    {
      FreeOk(f0, fun, e.exp);
      FreeExpression(e);
      list := CondJumpFor(e, TestSet(NO_REG, e.k.r, cond), f0);
    }

    ghost predicate Lists2(e: ExpDesc, x: Exp)
      reads this, e
    {
      IsChain(code, e.t, x.t) && IsChain(code, e.f, x.f)
    }

    /** One list gets the jump at pc, the other comes here. */
    method Branch(e: ExpDesc, pc: int, cond: bool, ghost f0: Fun, ghost x: Exp, ghost out: seq<int>)
      requires Valid() && Lists2(e, x) && IsChain(code, pc, out)
      requires var y := WithJump(x, cond, out); TestedOk(f0, fun, y.t, y.f)
      requires forall j :: j in out ==> j !in x.t && j !in x.f
      modifies this, e
      ensures Valid() && Kept(f0, old(code), code) && fun == PatchToHere(old(fun), if cond then x.f else x.t)
      ensures e.exp == Exp(e.k, if cond then x.t + out else [], if cond then [] else x.f + out) && Lists2(e, e.exp)
    {
      ghost var c, g := code, fun;
      ghost var mine, other := if cond then x.t else x.f, if cond then x.f else x.t;
      assert ListOk(f0, g.code, mine) by { assert forall j :: j in mine ==> j in mine + out; }
      var l := Append(if cond then e.t else e.f, pc, f0, mine, out);
      var rest := if cond then e.f else e.t;
      ChainKept(c, code, rest, other);
      ghost var d := code;
      PatchListHere(rest, other);
      ListKept(f0, g, d, code, l, mine + out);
      KeptFrom(f0, g, d, code);
      e.t, e.f := if cond then l else NO_JUMP, if cond then NO_JUMP else l;
      e.exp := Exp(e.k, if cond then x.t + out else [], if cond then [] else x.f + out);
    }

    /** Appends a list to one of the expression's own. */
    method Append(head: int, other: int, ghost f0: Fun, ghost mine: seq<int>, ghost more: seq<int>) returns (l: int)
      requires Valid() && JpcHere(fun) && Grown(f0, fun) && IsChain(code, head, mine) && IsChain(code, other, more)
      requires ListOk(f0, fun.code, mine) && forall j :: j in mine ==> j !in more
      modifies `code
      ensures Valid() && IsChain(code, l, mine + more) && Kept(f0, old(code), code) && |code| == |old(code)|
      ensures forall j :: 0 <= j < |code| && j !in mine ==> code[j] == old(code)[j]
    {
      ghost var c := code;
      l := Concat(head, other, mine, more);
      if mine != [] {
        ghost var z := mine[|mine| - 1];
        assert z in mine;
        OpenRep(c, fun, jpc, z, Fix(z, other));
      }
    }

    /** The test that GoIfTrue and GoIfFalse make of a discharged value. */
    method TestValue(e: ExpDesc, cond: bool, ghost f0: Fun) returns (pc: int)
      requires InOrder(f0, e) && !e.exp.k.VUpval? && !e.exp.k.VLocal?
      modifies this, e
      ensures Valid() && Kept(f0, old(code), code) && Lists2(e, old(e.exp))
      ensures var (g, out) := TestOf(old(fun), old(e.exp), cond); fun == g && IsChain(code, pc, out)
    {
      ghost var c, g := code, fun;
      KeptFrom(f0, g, c, code);
      if if cond then e.k.VNil? || e.k.VFalse? else e.k.VK? || e.k.VKNum? || e.k.VTrue? {
        return NO_JUMP;
      } else if e.k.VJmp? {
        if !cond { InvertFor(e, f0); }
        return e.k.pc;
      }
      pc := JumpIf(e, cond, f0);
    }

    ghost predicate Branched(f0: Fun, e: ExpDesc, g: Fun, y: Exp)
      reads this, e
    {
      Valid() && fun == g && TestedOk(f0, g, e.exp.t, e.exp.f) && Lists2(e, e.exp) && e.exp.t == y.t && e.exp.f == y.f
    }

    /** Goes through if the expression is true and collects jumps in f if not. */
    method GoIfTrue(e: ExpDesc, ghost f0: Fun)
      requires InOrder(f0, e)
      modifies this, e
      ensures Kept(f0, old(code), code)
      ensures var (g, y) := CodeGen.GoIfTrue(old(fun), old(e.exp)); Branched(f0, e, g, y)
    {
      GoIfOk(f0, fun, e.exp, false);
      GoIfIs(fun, e.exp, false);
      DischargeVarsOk(f0, fun, e.exp);
      DischargeVariables(e, f0);
      ghost var g, x := fun, e.exp;
      TestOfOk(f0, g, x, false);
      TestOfFresh(f0, g, x, false);
      var pc := TestValue(e, false, f0);
      Branch(e, pc, false, f0, x, TestOf(g, x, false).1);
    }

    /** Goes through if the expression is false and collects jumps in t if not. */
    method GoIfFalse(e: ExpDesc, ghost f0: Fun)
      requires InOrder(f0, e)
      modifies this, e
      ensures Kept(f0, old(code), code)
      ensures var (g, y) := CodeGen.GoIfFalse(old(fun), old(e.exp)); Branched(f0, e, g, y)
    {
      GoIfOk(f0, fun, e.exp, true);
      GoIfIs(fun, e.exp, true);
      DischargeVarsOk(f0, fun, e.exp);
      DischargeVariables(e, f0);
      ghost var g, x := fun, e.exp;
      TestOfOk(f0, g, x, true);
      TestOfFresh(f0, g, x, true);
      var pc := TestValue(e, true, f0);
      Branch(e, pc, true, f0, x, TestOf(g, x, true).1);
    }

    method InvertFor(e: ExpDesc, ghost f0: Fun)
      requires InOrder(f0, e) && e.exp.k.VJmp?
      modifies `code, `fun
      ensures Valid() && e.Valid(code) && Kept(f0, old(code), code) && fun == InvertJump(old(fun), e.exp.k.pc)
    {
      ghost var c, g := code, fun;
      InvertComparison(e.k.pc);
      KeptFrom(f0, g, c, code);
      ListKept(f0, g, c, code, e.t, e.exp.t);
      ListKept(f0, g, c, code, e.f, e.exp.f);
      ListKept(f0, g, c, code, e.k.pc, [e.k.pc]);
    }

    method NegateIt(e: ExpDesc, ghost f0: Fun)
      requires InOrder(f0, e) && !e.exp.k.VUpval? && !e.exp.k.VLocal?
      modifies this, e
      ensures Valid() && e.Valid(code) && Kept(f0, old(code), code) && (fun, e.exp) == Negate(old(fun), old(e.exp))
    {
      ghost var c, g := code, fun;
      KeptFrom(f0, g, c, code);
      if e.k.VNil? || e.k.VFalse? {
        e.k := VTrue;
        e.exp := e.exp.(k := VTrue);
      } else if e.k.VJmp? {
        InvertFor(e, f0);
      } else if e.k.VReloc? || e.k.VNonReloc? {
        NegateRegister(e, f0);
      } else {
        e.k := VFalse;
        e.exp := e.exp.(k := VFalse);
      }
    }

    method NegateRegister(e: ExpDesc, ghost f0: Fun)
      requires InOrder(f0, e) && (e.exp.k.VReloc? || e.exp.k.VNonReloc?)
      modifies this, e
      ensures Valid() && e.Valid(code) && Kept(f0, old(code), code) && (fun, e.exp) == NegateValue(old(fun), old(e.exp))
    {
      Discharge2AnyRegOk(f0, fun, e.exp);
      DischargeToAnyReg(e, f0);
      EmitNegation(e, f0);
    }

    method EmitNegation(e: ExpDesc, ghost f0: Fun)
      requires InOrder(f0, e) && e.exp.k.VNonReloc?
      modifies this, e
      ensures Valid() && e.Valid(code) && Kept(f0, old(code), code)
      ensures var h := FreeExp(old(fun), old(e.exp));
              fun == Emit(h, Not(0, old(e.exp).k.r)) && e.exp == old(e.exp).(k := VReloc(|h.code|))
    {
      hide Grown, RepAt, OldAt, Emit;
      FreeOk(f0, fun, e.exp);
      FreeExpression(e);
      ghost var c, g := code, fun;
      var pc := EmitInstr(Not(0, e.k.r));
      ListKept(f0, g, c, code, e.t, e.exp.t);
      ListKept(f0, g, c, code, e.f, e.exp.f);
      KeptFrom(f0, g, c, code);
      e.k := VReloc(pc);
      e.exp := e.exp.(k := e.k);
    }

    method NegateExp(e: ExpDesc, ghost f0: Fun)
      requires InOrder(f0, e)
      modifies this, e
      ensures InOrder(f0, e) && Kept(f0, old(code), code) && (fun, e.exp) == CodeNot(old(fun), old(e.exp))
    {
      CodeNotOk(f0, fun, e.exp);
      DischargeVarsOk(f0, fun, e.exp);
      DischargeVariables(e, f0);
      NegateOk(f0, fun, e.exp);
      NegateIt(e, f0);
      SwapLists(e, f0);
    }

    /** Exchanges the lists; their tests no longer deliver a value. */
    method SwapLists(e: ExpDesc, ghost f0: Fun)
      requires InOrder(f0, e)
      modifies this, e
      ensures Valid() && e.Valid(code) && Kept(f0, old(code), code)
      ensures fun == Bare(old(fun), old(e.exp)) && e.exp == old(e.exp).(t := old(e.exp).f, f := old(e.exp).t)
    {
      ghost var c, g, x := code, fun, e.exp;
      e.t, e.f := e.f, e.t;
      ChainJumps(c, e.t, x.f);
      ChainJumps(c, e.f, x.t);
      RemoveFrom(e.f, x.t);
      ChainKept(c, code, e.t, x.f);
      RemoveFrom(e.t, x.f);
      ChainKept(c, code, e.t, x.f);
      ChainKept(c, code, e.f, x.t);
      if e.k.VJmp? { ChainKept(c, code, e.k.pc, [e.k.pc]); }
      e.exp := x.(t := x.f, f := x.t);
      BareKept(f0, g, jpc, c, code);
    }

    method RemoveFrom(list: int, ghost l: seq<int>)
      requires Valid() && IsChain(code, list, l)
      modifies `code, `fun
      ensures Valid() && fun == old(fun).(code := RemoveValues(old(fun).code, l)) && |code| == |old(code)|
      ensures forall i :: 0 <= i < |code| && old(code)[i].Jmp? ==> code[i] == old(code)[i]
    {
      ghost var c, g := code, fun;
      RemoveListValues(list, l);
      BareRep(c, code, g, jpc, l);
      fun := g.(code := RemoveValues(g.code, l));
    }

    // ----- Operators -----

    /** e is an operand of a comparison, compiled from f0. */
    ghost predicate IsOperand(f0: Fun, e: ExpDesc)
      reads this, e
    {
      Valid() && e.Valid(code) && OperandOk(f0, fun, e.exp)
    }

    /** Compares the operand in e1 with the expression in e2, compiled after it
        from f1; e1 then stands for the comparison. */
    method Compare(op: BinOp, e1: ExpDesc, e2: ExpDesc, ghost f0: Fun, ghost f1: Fun)
      requires InOrder(f1, e2) && OperandOk(f0, f1, e1.exp) && e1.Valid(code) && e1 != e2 && !op.And? && !op.Or?
      modifies this, e1, e2
      ensures InOrder(f0, e1) && Kept(f0, old(code), code)
      ensures (fun, e1.exp) == CodeComp(old(fun), op, old(e1.exp), old(e2.exp))
    {
      CompOk(f0, f1, fun, op, e1.exp, e2.exp);
      CompIs(f0, f1, fun, op, e1.exp, e2.exp);
      var o2 := ReadSecond(e1, e2, f0, f1);
      EmitComparison(op, e1, o2, f0);
    }

    method ReadSecond(e1: ExpDesc, e2: ExpDesc, ghost f0: Fun, ghost f1: Fun) returns (o2: RK)
      requires InOrder(f1, e2) && OperandOk(f0, f1, e1.exp) && e1.Valid(code) && e1 != e2
      modifies this, e2
      ensures Valid() && CodeOk(fun) && Grown(f0, fun) && Kept(f0, old(code), code)
      ensures fun == Operands(old(fun), e1.exp, old(e2.exp)) && o2 == Operand(Exp2RK(old(fun), old(e2.exp)).1)
    {
      ghost var c := code;
      OperandsOk(f0, f1, fun, e1.exp, e2.exp);
      o2 := ExpToRK(e2, f1);
      FreeExpression(e2);
      FreeExpression(e1);
      KeptEarlier(f0, f1, c, code);
    }

    method EmitComparison(op: BinOp, e1: ExpDesc, o2: RK, ghost f0: Fun)
      requires Valid() && CodeOk(fun) && Grown(f0, fun) && e1.k == e1.exp.k && !e1.exp.HasJumps()
            && e1.t == e1.f == NO_JUMP
      requires e1.k.VK? || e1.k.VNonReloc?
      modifies this, e1
      ensures Valid() && e1.Valid(code) && Kept(f0, old(code), code)
      ensures var (g, out) := CondJump(old(fun), CompTest(op, Operand(old(e1.exp)), o2));
              fun == g && e1.exp == Exp(VJmp(out[0]), [], [])
    {
      hide CondJump, Grown, CodeOk, Rep, Emit, Exec, KeptOpen, Kept, JpcHere, RawTest, CompTest, Operand, Lift;
      var o1 := if e1.k.VK? then K(e1.k.k) else R(e1.k.r);
      var test := RawTest(op, o1, o2);
      ghost var c, g, x := code, fun, e1.exp;
      LiftTest(op, x, o1, o2);
      CodeHere(g);
      CondJumpIs(g, Lift(test));
      var j := CondJumpAhead(test);
      KeptFrom(f0, g, c, code);
      e1.k := VJmp(j);
      e1.exp := Exp(VJmp(j), [], []);
    }

    /** What the first operand becomes before the second is compiled. */
    ghost predicate Prefixed(op: BinOp, f0: Fun, e: ExpDesc)
      reads this, e
    {
      && Valid() && Lists2(e, e.exp)
      && (if op.And? || op.Or?
          then TestedOk(f0, fun, e.exp.t, e.exp.f) && fun.lasttarget == |fun.code|
                && (if op.Or? then e.exp.f == [] else e.exp.t == [])
          else IsOperand(f0, e))
    }

    method DoInfix(op: BinOp, e: ExpDesc, ghost f0: Fun)
      requires InOrder(f0, e)
      modifies this, e
      ensures Prefixed(op, f0, e) && Kept(f0, old(code), code)
      ensures var (g, y) := Infix(old(fun), op, old(e.exp));
              fun == g && e.exp.t == y.t && e.exp.f == y.f && (op.And? || op.Or? || e.exp == y)
    {
      GoIfOk(f0, fun, e.exp, op.Or?);
      if op.And? { GoIfTrue(e, f0); } else if op.Or? { GoIfFalse(e, f0); } else { var _ := ExpToRK(e, f0); }
    }

    /** e1 becomes the second operand, with the jumps of the first. */
    method DoPosfix(op: BinOp, e1: ExpDesc, e2: ExpDesc, ghost f0: Fun, ghost f1: Fun)
      requires InOrder(f1, e2) && Lists2(e1, e1.exp) && e1 != e2
      requires if op.And? || op.Or? then TestedOk(f0, f1, e1.exp.t, e1.exp.f) && f1.lasttarget == |f1.code|
            && (if op.Or? then e1.exp.f == [] else e1.exp.t == [])
               else OperandOk(f0, f1, e1.exp) && e1.Valid(code)
      modifies this, e1, e2
      ensures InOrder(f0, e1) && Kept(f0, old(code), code)
      ensures (fun, e1.exp) == Posfix(old(fun), op, old(e1.exp), old(e2.exp))
    {
      if !op.And? && !op.Or? {
        Compare(op, e1, e2, f0, f1);
        return;
      }
      ghost var c, x := code, e1.exp;
      PosfixJoins(fun, op, x, e2.exp);
      DischargeVarsOk(f1, fun, e2.exp);
      DischargeVariables(e2, f1);
      KeptEarlier(f0, f1, c, code);
      OldLists(f0, f1, c, code, e1.t, x.t);
      OldLists(f0, f1, c, code, e1.f, x.f);
      JoinOk(f0, f1, fun, e2.exp, x.t, x.f);
      AppendLists(op, e1, e2, f0, f1);
    }

    method AppendLists(op: BinOp, e1: ExpDesc, e2: ExpDesc, ghost f0: Fun, ghost f1: Fun)
      requires InOrder(f1, e2) && Lists2(e1, e1.exp) && e1 != e2 && Grown(f0, f1)
      requires ListOk(f0, f1.code, e1.exp.t) && ListOk(f0, f1.code, e1.exp.f)
      requires (op.Or? && e1.exp.f == []) || (op.And? && e1.exp.t == [])
      modifies `code, e1
      ensures Valid() && e1.Valid(code) && Kept(f0, old(code), code)
      ensures e1.exp == Joined(e2.exp, old(e1.exp).t, old(e1.exp).f)
    {
      hide Shape, OldAt, Unsettled;
      ghost var c, x, y := code, e1.exp, e2.exp;
      var l := if op.Or? then e2.t else e2.f;
      if op.Or? { l := Append(e2.t, e1.t, f1, y.t, x.t); } else { l := Append(e2.f, e1.f, f1, y.f, x.f); }
      KeptEarlier(f0, f1, c, code);
      ChainKept(c, code, if op.Or? then e2.f else e2.t, if op.Or? then y.f else y.t);
      if e2.k.VJmp? { ChainKept(c, code, e2.k.pc, [e2.k.pc]); }
      e1.k := e2.k;
      if op.Or? { e1.t, e1.f := l, e2.f; } else { e1.t, e1.f := e2.t, l; }
      e1.exp := Joined(y, x.t, x.f);
      assert y.t + [] == y.t && y.f + [] == y.f;
    }

    // ----- Expressions -----

    method CompileExpr(x: Expr) returns (e: ExpDesc)
      requires Valid() && CodeOk(fun) && Scoped(x, nactvar)
      modifies this
      ensures fresh(e) && InOrder(old(fun), e) && Kept(old(fun), old(code), code)
      ensures (fun, e.exp) == Compile(old(fun), x)
      decreases x, 2
    {
      ghost var f0 := fun;
      CompileOk(f0, x);
      match x
      case ENil => e := new ExpDesc(VNil);
      case ETrue => e := new ExpDesc(VTrue);
      case EFalse => e := new ExpDesc(VFalse);
      case ENum(n) => e := new ExpDesc(VKNum(n));
      case EStr(s) =>
        var k := AddConstant(Str(s));
        e := new ExpDesc(VK(k));
      case ELocal(r) => e := new ExpDesc(VLocal(r));
      case EUpval(u) => e := new ExpDesc(VUpval(u));
      case EParen(y) =>
        ghost var c := code;
        e := CompileExpr(y);
        DischargeVariables(e, f0);
      case ENot(y) =>
        e := CompileExpr(y);
        NegateExp(e, f0);
      case EBin(op, l, r) =>
        e := CompileBinary(op, l, r);
    }

    method CompileBinary(op: BinOp, l: Expr, r: Expr) returns (e: ExpDesc)
      requires Valid() && CodeOk(fun) && Scoped(l, nactvar) && Scoped(r, nactvar)
      modifies this
      ensures fresh(e) && InOrder(old(fun), e) && Kept(old(fun), old(code), code)
      ensures (fun, e.exp) == Compile(old(fun), EBin(op, l, r))
      decreases EBin(op, l, r), 1
    {
      ghost var f0 := fun;
      e := CompileExpr(l);
      DoInfix(op, e, f0);
      PosfixIs(f0, op, l, r, e.exp);
      CompileSecond(op, e, r, f0);
    }

    method CompileSecond(op: BinOp, e: ExpDesc, r: Expr, ghost f0: Fun)
      requires Prefixed(op, f0, e) && Scoped(r, nactvar)
      modifies this, e
      ensures InOrder(f0, e) && Kept(f0, old(code), code)
      ensures var (f3, e2) := Compile(old(fun), r); (fun, e.exp) == Posfix(f3, op, old(e.exp), e2)
      decreases r, 3
    {
      ghost var f1, c1, x1 := fun, code, e.exp;
      var e2 := CompileExpr(r);
      OperandKept(op, f0, f1, c1, code, e.k, e.t, e.f, x1);
      KeptEarlier(f0, f1, c1, code);
      DoPosfix(op, e, e2, f0, f1);
    }

    /** Compiles an expression into the next register. Whatever the registers on
        entry, running the stored code from where the expression starts comes
        out at its end with the value in that register, and the registers below
        unchanged; jumps in the list at jpc count as jumps to the end. */
    method CompileToNextReg(x: Expr) returns (reg: int)
      requires Valid() && CodeOk(fun) && Scoped(x, nactvar)
      modifies this
      ensures Valid() && CodeOk(fun) && reg == old(freereg) && freereg == reg + 1 && Kept(old(fun), old(code), code)
      ensures fun == NextReg(old(fun), x) && Grown(old(fun), fun) && old(ks) <= ks
      ensures forall m: Machine, regs: Regs :: ks <= m.ks && Entry(old(fun), fun.code, regs) ==>
                var o := Exec(Resolved(code, fun.jpc), m, |old(code)|, regs);
                o.pc == |code| && Get(o.regs, reg) == Eval(x, m, regs) && Same(reg, regs, o.regs)
    {
      ghost var f0 := fun;
      var e := CompileExpr(x);
      reg := MoveToNextReg(e, x, f0);
    }

    /** Moves an expression just compiled into the next register. */
    method MoveToNextReg(e: ExpDesc, ghost x: Expr, ghost f0: Fun) returns (reg: int)
      requires InOrder(f0, e) && CodeOk(f0) && Scoped(x, f0.nactvar) && (fun, e.exp) == Compile(f0, x)
      modifies this, e
      ensures Valid() && CodeOk(fun) && reg == f0.freereg && freereg == reg + 1 && Kept(f0, old(code), code)
      ensures fun == NextReg(f0, x) && Grown(f0, fun) && f0.ks <= old(ks) <= ks
      ensures forall m: Machine, regs: Regs :: ks <= m.ks && Entry(f0, fun.code, regs) ==>
                var o := Exec(Resolved(code, fun.jpc), m, |f0.code|, regs);
                o.pc == |code| && Get(o.regs, reg) == Eval(x, m, regs) && Same(reg, regs, o.regs)
    {
      ghost var c, f := code, fun;
      ExpToNextReg(e, f0);
      reg := e.k.r;
      Exp2NextRegOk(f0, f, Compile(f0, x).1);
      forall m: Machine, regs: Regs | ks <= m.ks && Entry(f0, fun.code, regs)
        ensures var o := Exec(Resolved(code, fun.jpc), m, |f0.code|, regs);
                o.pc == |code| && Get(o.regs, reg) == Eval(x, m, regs) && Same(reg, regs, o.regs)
      {
        ExpressionCorrect(f0, x, m, regs);
        ResolvedExec(f0, fun, code, jpc, m, regs);
      }
    }

    /** Compiles a list of expressions into the next registers. Run from where the first one
        starts, the stored code leaves the value of each in its register. */
    method CompileList(xs: seq<Expr>)
      requires Valid() && CodeOk(fun) && AllScoped(xs, nactvar)
      modifies this
      ensures Valid() && CodeOk(fun) && freereg == old(freereg) + |xs| && Kept(old(fun), old(code), code)
      ensures fun == NextRegs(old(fun), xs) && Grown(old(fun), fun) && old(ks) <= ks
      ensures forall m: Machine, regs: Regs :: ks <= m.ks && Entry(old(fun), fun.code, regs) ==>
                var o := Exec(Resolved(code, fun.jpc), m, |old(code)|, regs);
                && o.pc == |code| && Same(old(freereg), regs, o.regs)
                && forall i :: 0 <= i < |xs| ==> Get(o.regs, old(freereg) + i) == Eval(xs[i], m, regs)
    {
      hide NextReg, CodeOk, Grown, Exec, Eval;
      ghost var f0, c0 := fun, code;
      var n := 0;
      NextRegsOk(f0, []);
      KeptSame(f0, code, jpc);
      while n < |xs|
        invariant 0 <= n <= |xs| && Valid() && fun == NextRegs(f0, xs[..n]) && Kept(f0, c0, code)
        invariant CodeOk(fun) && Grown(f0, fun) && freereg == f0.freereg + n
      {
        ghost var f, c := fun, code;
        GrownLocals(f0, fun);
        var _ := CompileToNextReg(xs[n]);
        assert xs[..n + 1] == xs[..n] + [xs[n]];
        NextRegsMore(f0, xs[..n], xs[n]);
        NextRegsOk(f0, xs[..n + 1]);
        KeptEarlier(f0, f, c, code);
        n := n + 1;
      }
      assert xs[..n] == xs;
      forall m: Machine, regs: Regs | ks <= m.ks && Entry(f0, fun.code, regs)
        ensures var o := Exec(Resolved(code, fun.jpc), m, |f0.code|, regs);
                && o.pc == |code| && Same(f0.freereg, regs, o.regs)
                && forall i :: 0 <= i < |xs| ==> Get(o.regs, f0.freereg + i) == Eval(xs[i], m, regs)
      {
        ListCorrect(f0, xs, m, regs);
        ResolvedExec(f0, fun, code, jpc, m, regs);
      }
    }

    /** A local statement with as many variables as expressions. */
    method LocalStat(xs: seq<Expr>)
      requires Valid() && CodeOk(fun) && freereg == nactvar && AllScoped(xs, nactvar)
      modifies this
      ensures Valid() && CodeOk(fun) && freereg == nactvar == old(nactvar) + |xs| && Kept(old(fun), old(code), code)
      ensures fun == Activate(NextRegs(old(fun), xs)) && old(ks) <= ks
    {
      hide NextRegs, AllScoped, Exec, Eval;
      ghost var f0 := fun;
      CompileList(xs);
      Activated(fun);
      GrownLocals(f0, fun);
      nactvar := nactvar + |xs|;
      assert forall i :: 0 <= i < |code| ==> RepAt(code, fun, i) ==> RepAt(code, Activate(fun), i);
      fun := Activate(fun);
    }

    /** Local statements, one after the other. Run from where the first one starts, the stored
        code gives every variable its value; each statement sees the variables before it. */
    method LocalStats(stats: seq<seq<Expr>>)
      requires Valid() && CodeOk(fun) && freereg == nactvar && StatsScoped(stats, nactvar)
      modifies this
      ensures Valid() && CodeOk(fun) && freereg == nactvar == old(nactvar) + Declared(stats)
      ensures fun == Locals(old(fun), stats) && Kept(old(fun), old(code), code) && old(ks) <= ks
      ensures forall m: Machine, regs: Regs :: ks <= m.ks && Entry(old(fun), fun.code, regs) ==>
                var o := Exec(Resolved(code, fun.jpc), m, |old(code)|, regs);
                o.pc == |code| && Same(nactvar, After(stats, m, regs, old(nactvar)), o.regs)
    {
      hide NextRegs, CodeOk, Grown, Exec, Eval, AllScoped, After;
      ghost var f0, c0 := fun, code;
      var n := 0;
      NotNegative(f0);
      KeptSame(f0, code, jpc);
      while n < |stats|
        invariant 0 <= n <= |stats| && Valid() && fun == Locals(f0, stats[..n]) && Kept(f0, c0, code)
        invariant CodeOk(fun) && freereg == nactvar == f0.nactvar + Declared(stats[..n])
      {
        ghost var f, c := fun, code;
        StatsFirst(stats, f0.nactvar, n);
        LocalsOk(f0, stats[..n]);
        LocalStat(stats[n]);
        assert stats[..n + 1] == stats[..n] + [stats[n]];
        LocalsMore(f0, stats[..n], stats[n]);
        StatsFirst(stats, f0.nactvar, n);
        DeclaredMore(stats[..n], stats[n]);
        KeptEarlier(f0, f.(nactvar := f0.nactvar), c, code);
        n := n + 1;
      }
      assert stats[..n] == stats;
      LocalsOk(f0, stats);
      forall m: Machine, regs: Regs | ks <= m.ks && Entry(f0, fun.code, regs)
        ensures var o := Exec(Resolved(code, fun.jpc), m, |f0.code|, regs);
                o.pc == |code| && Same(nactvar, After(stats, m, regs, f0.nactvar), o.regs)
      {
        LocalsCorrect(f0, stats, m, regs);
        ResolvedLocals(f0, fun, code, jpc, m, regs);
      }
    }
  }
}
