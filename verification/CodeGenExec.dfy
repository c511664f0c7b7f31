/** How the steps of the code generator change what its code does when it runs. */
module CodeGenExec {
  import opened LuaMachine
  import opened CodeGen

  // ----- What the generator keeps true of its state -----

  /** Tests are followed by jumps, and only a LOADBOOL is ever skipped. */
  ghost predicate Shape(c: Code) {
    && (forall i :: 0 <= i < |c| && IsTest(c[i]) ==> i + 1 < |c| && c[i + 1].Jmp?)
    && (forall i :: 0 <= i < |c| && c[i].LoadBool? && c[i].skip ==> i + 1 < |c| && c[i + 1].LoadBool?)
  }

  /** A test whose jump has no final destination has no register yet. */
  ghost predicate Unsettled(c: Code, j: int) {
    1 <= j <= |c| && c[j - 1].TestSet? ==> c[j - 1].a == NO_REG
  }

  ghost predicate CodeOk(fs: Fun) {
    && Shape(fs.code)
    && fs.lasttarget <= |fs.code|
    && 0 <= fs.nactvar <= fs.freereg
    && (forall j :: 0 <= j < |fs.code| && fs.code[j].Jmp? && fs.code[j].to.To? ==> fs.code[j].to.pc <= fs.lasttarget)
    && (forall j :: j in fs.jpc ==> 0 <= j < |fs.code| && fs.code[j] == Jmp(To(|fs.code|)))
    && (forall j :: 0 <= j < |fs.code| && (fs.code[j] == Jmp(Open) || j in fs.jpc) ==> Unsettled(fs.code, j))
  }

  lemma EmitSim(fs: Fun, i: Instr<Dest>)
    requires CodeOk(fs)
    ensures Sim(fs.code, Emit(fs, i).code) && Sim(fs.code, Emit(fs, i).code[..|fs.code|])
  {
    var c, d := fs.code, Emit(fs, i).code;
    forall k | 0 <= k < |c| ensures SimAt(c, d, k) {
      if c[k].TestSet? && k + 1 in fs.jpc { assert Unsettled(c, k + 1); }
    }
    forall k | 0 <= k < |c| ensures SimAt(c, d[..|c|], k) { assert SimAt(c, d, k); }
  }

  /** Discharging the jumps to here changes nothing for the code so far. */
  lemma EmitPrefix(fs: Fun, i: Instr<Dest>, m: Machine, pc: int, regs: Regs)
    requires CodeOk(fs) && Start(fs.code, pc) && Proper(fs.code, Exec(fs.code, m, pc, regs))
    ensures Exec(Emit(fs, i).code[..|fs.code|], m, pc, regs) == Exec(fs.code, m, pc, regs)
  {
    var c, d := fs.code, Emit(fs, i).code[..|fs.code|];
    var o := Exec(c, m, pc, regs);
    EmitSim(fs, i);
    SimExec(c, d, m, pc, regs);
    if o.pc < |c| { assert Unsettled(c, o.pc); assert SimAt(c, d, o.pc);
          if 1 <= o.pc { assert SimAt(c, d, o.pc - 1); } }
  }

  /** An open jump that stays open stops the changed code as well. */
  lemma StillOpen(c: Code, d: Code, m: Machine, o: Outcome)
    requires Sim(c, d) && Proper(c, o) && o.pc < |c| && d[o.pc] == Jmp(Open)
    requires 1 <= o.pc && d[o.pc - 1].TestSet? ==> d[o.pc - 1].a == NO_REG
    ensures Continue(c, d, m, o) == o
  {
  }

  lemma EmitExec(fs: Fun, i: Instr<Dest>, m: Machine, pc: int, regs: Regs)
    requires CodeOk(fs) && Start(fs.code, pc) && Proper(fs.code, Exec(fs.code, m, pc, regs))
    requires !i.Jmp? && !IsTest(i) && !(i.LoadBool? && i.skip)
    ensures var o := Exec(fs.code, m, pc, regs);
            Exec(Emit(fs, i).code, m, pc, regs) ==
            if o.pc == |fs.code| then Outcome(o.pc + 1, Effect(i, m, o.regs)) else o
  {
    hide Shape;
    var c, d := fs.code, Emit(fs, i).code;
    var o := Exec(c, m, pc, regs);
    EmitSim(fs, i);
    SimExec(c, d, m, pc, regs);
    if o.pc < |c| {
      assert Unsettled(c, o.pc);
      StillOpen(c, d, m, o);
    } else {
      assert d[|c|] == i && Exec(d, m, |c| + 1, Effect(i, m, o.regs)).pc == |c| + 1;
    }
  }

  lemma CondJumpExec(fs: Fun, i: Instr<Dest>, m: Machine, pc: int, regs: Regs)
    requires CodeOk(fs) && Start(fs.code, pc) && Proper(fs.code, Exec(fs.code, m, pc, regs))
    requires IsTest(i)
    ensures var o := Exec(fs.code, m, pc, regs);
            Exec(CondJump(fs, i).0.code, m, pc, regs) ==
            if o.pc < |fs.code| then o
            else if Taken(i, m, o.regs) then Outcome(o.pc + 1, Effect(i, m, o.regs))
            else Outcome(o.pc + 2, o.regs)
  {
    var c, d := fs.code, CondJump(fs, i).0.code;
    var o := Exec(c, m, pc, regs);
    EmitSim(fs, i);
    assert Sim(c, d) by {
      forall k | 0 <= k < |c| ensures SimAt(c, d, k) { assert SimAt(c, Emit(fs, i).code, k); }
    }
    SimExec(c, d, m, pc, regs);
    if o.pc < |c| {
      assert Unsettled(c, o.pc);
      StillOpen(c, d, m, o);
    } else {
      assert |d| == |c| + 2 && d[|c|] == i && d[|c| + 1] == Jmp(Open);
      var t := Effect(i, m, o.regs);
      assert Follow(d, m, |c| + 1, t) == Outcome(|c| + 1, t);
      assert Exec(d, m, |c| + 2, o.regs) == Outcome(|c| + 2, o.regs);
    }
  }

  /** Jumps aimed at the end of the code arrive there. */
  lemma AimExec(fs: Fun, list: seq<int>, m: Machine, pc: int, regs: Regs)
    requires CodeOk(fs) && Start(fs.code, pc) && Proper(fs.code, Exec(fs.code, m, pc, regs))
    requires forall j :: j in list ==> 0 <= j < |fs.code| && fs.code[j] == Jmp(Open)
    ensures var o := Exec(fs.code, m, pc, regs);
            Exec(PatchToHere(fs, list).code, m, pc, regs) == if o.pc in list then Outcome(|fs.code|, o.regs) else o
  {
    var c, d := fs.code, PatchToHere(fs, list).code;
    var o := Exec(c, m, pc, regs);
    SimExec(c, d, m, pc, regs);
    if o.pc < |c| {
      assert Unsettled(c, o.pc);
      assert 1 <= o.pc ==> d[o.pc - 1].TestSet? ==> d[o.pc - 1] == c[o.pc - 1];
      if o.pc !in list { StillOpen(c, d, m, o); }
      else { assert Lands(d, o.pc, |c|); assert Exec(d, m, |c|, o.regs).pc == |c|; }
    }
  }

  /** Putting the jumps to the end on hold stops execution at one of them. */
  lemma {:induction false} HoldExec(c: Code, jpc: seq<int>, m: Machine, pc: int, regs: Regs)
    requires Shape(c) && Start(c, pc) && Proper(c, Exec(c, m, pc, regs))
    requires forall j :: j in jpc ==> 0 <= j < |c| && c[j] == Jmp(To(|c|))
    ensures var o, p := Exec(c, m, pc, regs), Exec(Aim(c, jpc, Open), m, pc, regs);
            p.regs == o.regs && (p.pc == o.pc || (o.pc == |c| && p.pc in jpc))
    decreases |c| - pc, 1
  {
    if pc < |c| {
      if c[pc].Jmp? {
        HoldFollow(c, jpc, m, pc, regs);
      } else if IsTest(c[pc]) {
        HoldTest(c, jpc, m, pc, regs);
      } else {
        assert Aim(c, jpc, Open)[pc] == c[pc];
        HoldExec(c, jpc, m, if c[pc].LoadBool? && c[pc].skip then pc + 2 else pc + 1, Effect(c[pc], m, regs));
      }
    }
  }

  lemma {:induction false} HoldTest(c: Code, jpc: seq<int>, m: Machine, pc: int, regs: Regs)
    requires Shape(c) && 0 <= pc < |c| && IsTest(c[pc]) && Proper(c, Exec(c, m, pc, regs))
    requires forall j :: j in jpc ==> 0 <= j < |c| && c[j] == Jmp(To(|c|))
    ensures var o, p := Exec(c, m, pc, regs), Exec(Aim(c, jpc, Open), m, pc, regs);
            p.regs == o.regs && (p.pc == o.pc || (o.pc == |c| && p.pc in jpc))
    decreases |c| - pc, 0
  {
    assert Aim(c, jpc, Open)[pc] == c[pc] && Aim(c, jpc, Open)[pc + 1].Jmp?;
    if Taken(c[pc], m, regs) {
      HoldFollow(c, jpc, m, pc + 1, Effect(c[pc], m, regs));
    } else {
      HoldExec(c, jpc, m, pc + 2, regs);
    }
  }

  lemma {:induction false} HoldFollow(c: Code, jpc: seq<int>, m: Machine, pc: int, regs: Regs)
    requires Shape(c) && 0 <= pc < |c| && c[pc].Jmp? && Proper(c, Follow(c, m, pc, regs))
    requires forall j :: j in jpc ==> 0 <= j < |c| && c[j] == Jmp(To(|c|))
    ensures Aim(c, jpc, Open)[pc].Jmp?
    ensures var o, p := Follow(c, m, pc, regs), Follow(Aim(c, jpc, Open), m, pc, regs);
            p.regs == o.regs && (p.pc == o.pc || (o.pc == |c| && p.pc in jpc))
    decreases |c| - pc, 0
  {
    if c[pc] != Jmp(Open) && pc !in jpc {
      HoldExec(c, jpc, m, c[pc].to.pc, regs);
    }
  }

  /** No jump arrives at the end of c, whose last instruction sets registers to
      nil. If it is made to set more of them, they are nil as well at the end. */
  ghost predicate Widened(c: Code, d: Code) {
    && Shape(c) && 1 <= |c| == |d| && d[..|c| - 1] == c[..|c| - 1]
    && (forall j :: 0 <= j < |c| && c[j].Jmp? && c[j].to.To? ==> c[j].to.pc != |c|)
    && c[|c| - 1].LoadNil? && d[|c| - 1].LoadNil?
    && d[|c| - 1].a == c[|c| - 1].a <= c[|c| - 1].b + 1 && c[|c| - 1].b <= d[|c| - 1].b
  }

  ghost predicate NilBetween(regs: Regs, a: int, b: int) {
    forall r :: a <= r <= b ==> Get(regs, r) == Nil
  }

  lemma {:induction false} WidenExec(c: Code, d: Code, m: Machine, pc: int, regs: Regs)
    requires Widened(c, d) && Start(c, pc) && pc < |c| && Proper(c, Exec(c, m, pc, regs))
    ensures var o, p := Exec(c, m, pc, regs), Exec(d, m, pc, regs);
            && p.pc == o.pc
            && (o.pc < |c| ==> p.regs == o.regs)
            && (o.pc == |c| ==> NilBetween(p.regs, d[|c| - 1].a, d[|c| - 1].b))
            && (forall r :: !(c[|c| - 1].b < r <= d[|c| - 1].b) ==> Get(p.regs, r) == Get(o.regs, r))
    decreases |c| - pc, 1
  {
    var z := |c| - 1;
    assert pc < z ==> d[pc] == d[..z][pc] == c[..z][pc] == c[pc];
    assert pc + 1 < z ==> d[pc + 1] == d[..z][pc + 1] == c[..z][pc + 1] == c[pc + 1];
    if pc == z {
    } else if c[pc].Jmp? {
      WidenFollow(c, d, m, pc, regs);
    } else if IsTest(c[pc]) {
      if Taken(c[pc], m, regs) {
        WidenFollow(c, d, m, pc + 1, Effect(c[pc], m, regs));
      } else {
        WidenExec(c, d, m, pc + 2, regs);
      }
    } else {
      WidenExec(c, d, m, if c[pc].LoadBool? && c[pc].skip then pc + 2 else pc + 1, Effect(c[pc], m, regs));
    }
  }

  lemma {:induction false} WidenFollow(c: Code, d: Code, m: Machine, pc: int, regs: Regs)
    requires Widened(c, d) && 0 <= pc < |c| - 1 && c[pc].Jmp? && d[pc] == c[pc] && Proper(c, Follow(c, m, pc, regs))
    ensures var o, p := Follow(c, m, pc, regs), Follow(d, m, pc, regs);
            && p.pc == o.pc
            && (o.pc < |c| ==> p.regs == o.regs)
            && (o.pc == |c| ==> NilBetween(p.regs, d[|c| - 1].a, d[|c| - 1].b))
            && (forall r :: !(c[|c| - 1].b < r <= d[|c| - 1].b) ==> Get(p.regs, r) == Get(o.regs, r))
    decreases |c| - pc, 0
  {
    if c[pc] != Jmp(Open) {
      var x, z := c[pc].to.pc, |c| - 1;
      assert d[x - 1] == d[..z][x - 1] == c[..z][x - 1] == c[x - 1];
      WidenExec(c, d, m, x, regs);
    }
  }
}
