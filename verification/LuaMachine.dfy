/** Values, registers and instructions of the Lua 5.1 virtual machine, as far as
    the expression compiler uses them, and the execution of a piece of code in
    which some jumps are still waiting for their destination. */
module LuaMachine {

  datatype Value = Nil | Bool(b: bool) | Num(n: real) | Str(s: string) | Ref(id: nat)

  predicate Falsy(v: Value) {
    v == Nil || v == Bool(false)
  }

  /** The three comparison opcodes. */
  datatype CmpOp = EQ | LT | LE

  /** What a function reads and never writes: its constants, its upvalues and
      the outcome of every comparison (a total function, metamethods aside). */
  datatype Machine = Machine(ks: seq<Value>, up: map<int, Value>, rel: (CmpOp, Value, Value) -> bool)

  type Regs = map<int, Value>

  function Get(m: map<int, Value>, r: int): Value {
    if r in m then m[r] else Nil
  }

  /** Marks "no register". The source uses the largest 8-bit operand, which no
      register ever has; registers are unbounded here, so a negative number. */
  const NO_REG: int := -1

  function Set(regs: Regs, r: int, v: Value): Regs {
    if r == NO_REG then regs else regs[r := v]
  }

  function SetNil(regs: Regs, a: int, b: int): (r: Regs)
    ensures forall i :: Get(r, i) == if a <= i <= b then Nil else Get(regs, i)
  {
    map i | i in regs && !(a <= i <= b) :: regs[i]
  }

  /** A register or constant operand. */
  datatype RK = R(r: int) | K(k: int)

  function RkValue(m: Machine, regs: Regs, x: RK): Value {
    match x
    case R(r) => Get(regs, r)
    case K(k) => if 0 <= k < |m.ks| then m.ks[k] else Nil
  }

  /** Instructions, over the type of a jump's operand. */
  datatype Instr<J> =
    | Move(a: int, b: int)
    | LoadK(a: int, k: int)
    | LoadBool(a: int, v: bool, skip: bool)
    | LoadNil(a: int, b: int)
    | GetUpval(a: int, b: int)
    | Not(a: int, b: int)
    | Jmp(to: J)
    | Cmp(op: CmpOp, cond: bool, x: RK, y: RK)
    | Test(b: int, c: bool)
    | TestSet(a: int, b: int, c: bool)

  /** Where a jump goes: to an instruction, or nowhere yet. */
  datatype Dest = To(pc: int) | Open

  type Code = seq<Instr<Dest>>

  /** Tests are followed by the jump that they take or skip. */
  predicate IsTest<J>(i: Instr<J>) {
    i.Cmp? || i.Test? || i.TestSet?
  }

  predicate Taken<J>(i: Instr<J>, m: Machine, regs: Regs)
    requires IsTest(i)
  {
    match i
    case Cmp(op, cond, x, y) => m.rel(op, RkValue(m, regs, x), RkValue(m, regs, y)) == cond
    case Test(b, c) => Falsy(Get(regs, b)) != c
    case TestSet(_, b, c) => Falsy(Get(regs, b)) != c
  }

  /** The value an instruction computes, when it computes one value. */
  function Computed<J>(i: Instr<J>, m: Machine, regs: Regs): Value
    requires !i.Jmp? && !i.LoadNil? && !i.Cmp? && !i.Test?
  {
    match i
    case Move(_, b) => Get(regs, b)
    case LoadK(_, k) => RkValue(m, regs, K(k))
    case LoadBool(_, v, _) => Bool(v)
    case GetUpval(_, b) => Get(m.up, b)
    case Not(_, b) => Bool(Falsy(Get(regs, b)))
    case TestSet(_, b, _) => Get(regs, b)
  }

  function Effect<J>(i: Instr<J>, m: Machine, regs: Regs): Regs {
    match i
    case Jmp(_) => regs
    case Cmp(_, _, _, _) => regs
    case Test(_, _) => regs
    case LoadNil(a, b) => SetNil(regs, a, b)
    case _ => Set(regs, i.a, Computed(i, m, regs))
  }

  /** Where execution of a piece of code stopped, and with which registers. */
  datatype Outcome = Outcome(pc: int, regs: Regs)

  /** A jump from `from` may land on x: forward, inside the code or at its end,
      and not between a test and its jump. */
  predicate Lands(c: Code, from: int, x: int) {
    from < x <= |c| && 1 <= x && !IsTest(c[x - 1])
  }

  /** Runs c from pc until it falls off the end, meets an open jump, or meets
      an instruction this code should not have (then it stops in front of it).
      A test and its jump are one step, as in the interpreter's loop. */
  function Exec(c: Code, m: Machine, pc: int, regs: Regs): Outcome
    decreases |c| - pc, 1
  {
    if !(0 <= pc < |c|) then Outcome(pc, regs)
    else if c[pc].Jmp? then Follow(c, m, pc, regs)
    else if IsTest(c[pc]) then
      if |c| <= pc + 1 || !c[pc + 1].Jmp? then Outcome(pc, regs)
      else if Taken(c[pc], m, regs) then Follow(c, m, pc + 1, Effect(c[pc], m, regs))
      else Exec(c, m, pc + 2, regs)
    else
      var next := if c[pc].LoadBool? && c[pc].skip then pc + 2 else pc + 1;
      if |c| < next || IsTest(c[next - 1]) then Outcome(pc, regs)
      else Exec(c, m, next, Effect(c[pc], m, regs))
  }

  /** Takes the jump at pc, if it has a proper destination. */
  function Follow(c: Code, m: Machine, pc: int, regs: Regs): Outcome
    requires 0 <= pc < |c| && c[pc].Jmp?
    decreases |c| - pc, 0
  {
    if c[pc].to.To? && Lands(c, pc, c[pc].to.pc) then Exec(c, m, c[pc].to.pc, regs)
    else Outcome(pc, regs)
  }

  /** Execution fell off the end or stopped at an open jump. */
  predicate Proper(c: Code, o: Outcome) {
    o.pc == |c| || (0 <= o.pc < |c| && c[o.pc] == Jmp(Open))
  }

  /** pc is not the jump of a test. */
  predicate Start(c: Code, pc: int) {
    0 <= pc <= |c| && (pc == 0 || !IsTest(c[pc - 1]))
  }

  // ----- Changing code without changing what it does -----

  /** Instruction i of d does what instruction i of c does, except that an open
      jump may have got a destination and a TESTSET without register may have
      become a TEST or, in front of an open jump, have got a register. */
  predicate SimAt(c: Code, d: Code, i: int)
    requires 0 <= i < |c| && i < |d|
  {
    || d[i] == c[i]
    || (c[i] == Jmp(Open) && d[i].Jmp?)
    || (c[i].TestSet? && c[i].a == NO_REG && d[i] == Test(c[i].b, c[i].c))
    || (c[i].TestSet? && c[i].a == NO_REG && d[i].TestSet? && d[i].b == c[i].b && d[i].c == c[i].c &&
        i + 1 < |c| && c[i + 1] == Jmp(Open))
  }

  predicate Sim(c: Code, d: Code) {
    |c| <= |d| && forall i :: 0 <= i < |c| ==> SimAt(c, d, i)
  }

  /** The registers with which d takes the open jump at pc of c. */
  function AtJump(d: Code, pc: int, regs: Regs): Regs
    requires 0 <= pc < |d|
  {
    if 1 <= pc && d[pc - 1].TestSet? then Set(regs, d[pc - 1].a, Get(regs, d[pc - 1].b)) else regs
  }

  /** How d goes on where c stopped. */
  function Continue(c: Code, d: Code, m: Machine, o: Outcome): Outcome
    requires Sim(c, d) && Proper(c, o)
  {
    if o.pc == |c| then Exec(d, m, o.pc, o.regs)
    else
      assert SimAt(c, d, o.pc);
      Follow(d, m, o.pc, AtJump(d, o.pc, o.regs))
  }

  /** Code that was completed, patched or extended runs like the code it was
      made from, and goes on from there. */
  lemma {:induction false} SimExec(c: Code, d: Code, m: Machine, pc: int, regs: Regs)
    requires Sim(c, d) && Start(c, pc) && Proper(c, Exec(c, m, pc, regs))
    ensures Exec(d, m, pc, regs) == Continue(c, d, m, Exec(c, m, pc, regs))
    decreases |c| - pc, 2
  {
    if pc < |c| {
      assert SimAt(c, d, pc);
      if c[pc].Jmp? {
        SimFollow(c, d, m, pc, regs);
      } else if IsTest(c[pc]) {
        SimTest(c, d, m, pc, regs);
      } else {
        var next := if c[pc].LoadBool? && c[pc].skip then pc + 2 else pc + 1;
        assert SimAt(c, d, next - 1);
        SimExec(c, d, m, next, Effect(c[pc], m, regs));
      }
    }
  }

  lemma {:induction false} SimTest(c: Code, d: Code, m: Machine, pc: int, regs: Regs)
    requires Sim(c, d) && Start(c, pc) && pc < |c| && IsTest(c[pc]) && Proper(c, Exec(c, m, pc, regs))
    ensures Exec(d, m, pc, regs) == Continue(c, d, m, Exec(c, m, pc, regs))
    decreases |c| - pc, 1
  {
    assert SimAt(c, d, pc) && SimAt(c, d, pc + 1);
    if Taken(c[pc], m, regs) {
      var t := Effect(c[pc], m, regs);
      var u := Effect(d[pc], m, regs);
      if c[pc + 1] == Jmp(Open) {
        assert AtJump(d, pc + 1, t) == u;
      } else {
        assert t == u;
        SimFollow(c, d, m, pc + 1, t);
      }
    } else {
      SimExec(c, d, m, pc + 2, regs);
    }
  }

  lemma {:induction false} SimFollow(c: Code, d: Code, m: Machine, pc: int, regs: Regs)
    requires Sim(c, d) && 0 <= pc < |c| && c[pc].Jmp? && Proper(c, Follow(c, m, pc, regs))
    requires c[pc] == Jmp(Open) ==> pc == 0 || !IsTest(c[pc - 1])
    ensures SimAt(c, d, pc) && Follow(d, m, pc, regs) == Continue(c, d, m, Follow(c, m, pc, regs))
    decreases |c| - pc, 0
  {
    assert SimAt(c, d, pc);
    if c[pc] == Jmp(Open) {
      if 1 <= pc { assert SimAt(c, d, pc - 1); }
    } else {
      var x := c[pc].to.pc;
      assert SimAt(c, d, x - 1);
      SimExec(c, d, m, x, regs);
    }
  }
}
