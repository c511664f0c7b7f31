/** Protected calls on a Lua stack, and jlua.try on top of them (src/c/lua/ldo.c,
    src/c/lua/lapi.c, src/c/jlua/jlua.c). */
module ProtectedCalls {
  import opened TryBlocks

  datatype Status = Fine | ErrRun | ErrErr

  datatype CallInfo = CallInfo(func: nat, base: nat)

  /** What an error that unwinds to a protected call carries: the value on top of the stack,
      or a message of its own. */
  function Carried(status: Status, stack: seq<Value>): Value {
    if status.ErrErr? || stack == [] then Text(InHandling) else stack[|stack| - 1]
  }

  /** A call that ended with this status, error value on the stack and output has gone as the
      result says. */
  ghost predicate Went(r: Res, status: Status, stack: seq<Value>, out0: seq<Event>, out: seq<Event>) {
    && out == out0 + r.trace
    && (status.Fine? <==> r.outcome.Done?)
    && (status != Fine ==> r.outcome == Thrown(Carried(status, stack)))
  }

  class LuaThread {
    var stack: seq<Value>
    var ci: seq<CallInfo>
    var base: nat
    var nCcalls: nat
    var errfunc: nat
    var out: seq<Event>

    ghost predicate Valid()
      reads this
    {
      0 < |ci| && base == ci[|ci| - 1].base <= |stack|
    }

    constructor ()
      ensures Valid() && stack == [Nil] && base == 1 && nCcalls == 0 && errfunc == 0 && out == []
    {
      stack, ci, base, nCcalls, errfunc, out := [Nil], [CallInfo(0, 1)], 1, 0, 0, [];
    }

    /** luaD_call, with no error function set: no results are wanted. An error leaves everything as
        it is at that moment. */
    method Call(func: nat) returns (status: Status)
      requires Valid() && base <= func < |stack| <= func + 2 && stack[func].Fun? && errfunc == 0
      modifies this
      ensures status.Fine? ==> Valid() && stack == old(stack)[..func] && ci == old(ci) && nCcalls == old(nCcalls)
      ensures status.Fine? ==> errfunc == 0
      ensures func <= |stack| && stack[..func] == old(stack)[..func]
      ensures |old(ci)| <= |ci| && ci[..|old(ci)|] == old(ci)
      ensures status.ErrRun? ==> func < |stack|
      ensures var x := Slot(old(stack), func + 1);
              Went(TryBlocks.Call(Written, old(stack)[func], x, old(nCcalls)), status, stack, old(out), out)
      decreases MAX_HANDLING - nCcalls, 1
    {
      var b, x := stack[func].body, Slot(stack, func + 1);
      nCcalls := nCcalls + 1;
      if nCcalls >= MAX_CCALLS {
        if nCcalls == MAX_CCALLS {
          stack := stack + [Text(Overflow)];
          return ErrRun;
        } else if nCcalls >= MAX_HANDLING {
          return ErrErr;
        }
      }
      ci, base := ci + [CallInfo(func, func + 1)], func + 1;
      out := out + [Called(b, x)];
      ghost var out1 := out;
      status := Execute(b, x);
      if status.Fine? {
        ci := ci[..|ci| - 1];
        base, stack := ci[|ci| - 1].base, stack[..func];
        nCcalls := nCcalls - 1;
      }
    }

    /** The body of a Lua function, with its argument in its frame. */
    method Execute(b: Body, ghost arg: Value) returns (status: Status)
      requires Valid() && |stack| <= base + 1 && arg == Slot(stack, base) && errfunc == 0
      modifies this
      ensures status.Fine? ==> Valid() && stack == old(stack) && ci == old(ci) && nCcalls == old(nCcalls)
      ensures status.Fine? ==> errfunc == 0
      ensures |old(stack)| <= |stack| && stack[..|old(stack)|] == old(stack)
      ensures |old(ci)| <= |ci| && ci[..|old(ci)|] == old(ci)
      ensures status.ErrRun? ==> |old(stack)| < |stack|
      ensures Went(Run(Written, b, arg, old(nCcalls)), status, stack, old(out), out)
      decreases MAX_HANDLING - nCcalls, 3, b
    {
      status := Fine;
      match b
      case Skip =>
      case Emit(k) =>
        out := out + [Emitted(k)];
      case Raise(e) =>
        stack := stack + [Eval(e, Slot(stack, base))];
        status := ErrRun;
      case Then(p, q) =>
        status := Execute(p, arg);
        if status.Fine? { status := Execute(q, arg); }
      case Try(es) =>
        status := CallTry(es, arg);
    }

    /** OP_CALL of the C function tryBlock; the function itself is not a value here. */
    method CallTry(es: seq<Expr>, ghost arg: Value) returns (status: Status)
      requires Valid() && arg == Slot(stack, base) && errfunc == 0
      modifies this
      ensures status.Fine? ==> Valid() && stack == old(stack) && ci == old(ci) && nCcalls == old(nCcalls)
      ensures status.Fine? ==> errfunc == 0
      ensures |old(stack)| <= |stack| && stack[..|old(stack)|] == old(stack)
      ensures |old(ci)| <= |ci| && ci[..|old(ci)|] == old(ci)
      ensures status.ErrRun? ==> |old(stack)| < |stack|
      ensures Went(AsWritten(CallAt(Written, old(nCcalls)), EvalAll(es, arg)), status, stack, old(out), out)
      decreases MAX_HANDLING - nCcalls, 2, 4
    {
      var func, args := |stack|, EvalAll(es, Slot(stack, base));
      stack := stack + [Nil] + args;
      ci, base := ci + [CallInfo(func, func + 1)], func + 1;
      assert stack[base..] == args;
      status := TryBlock();
      assert stack[..func] == old(stack);
      if status.Fine? {
        ci := ci[..|ci| - 1];
        base, stack := ci[|ci| - 1].base, stack[..func];
      }
    }

    /** lua_pcall without error function: all is as before the call, but for the function and
        its arguments, in whose place an error is left. */
    method PCall(nargs: nat) returns (status: Status)
      requires Valid() && nargs <= 1 && base + nargs < |stack| && stack[|stack| - nargs - 1].Fun?
      modifies this
      ensures Valid() && ci == old(ci) && nCcalls == old(nCcalls) && errfunc == old(errfunc)
      ensures var func := old(|stack|) - nargs - 1;
              var r := TryBlocks.Call(Written, old(stack)[func], Slot(old(stack), func + 1), old(nCcalls));
              && out == old(out) + r.trace && (status.Fine? <==> r.outcome.Done?)
              && stack == Left(old(stack)[..func], r)
      decreases MAX_HANDLING - nCcalls, 2, 0
    {
      var func := |stack| - nargs - 1;
      var oldnCcalls, oldci, olderrfunc := nCcalls, |ci|, errfunc;
      errfunc := 0;
      status := Call(func);
      if status != Fine {
        SetErrorObj(status, func);
        nCcalls := oldnCcalls;
        ci := ci[..oldci];
        base := ci[|ci| - 1].base;
      }
      errfunc := olderrfunc;
    }

    /** A protected call of a program in which every try has three arguments. */
    method RunProtected(f: Value) returns (status: Status)
      requires Valid() && f.Fun? && Full(f.body)
      modifies this
      ensures Valid() && ci == old(ci) && nCcalls == old(nCcalls) && errfunc == old(errfunc)
      ensures var r := TryBlocks.Call(Intended, f, Nil, old(nCcalls));
              out == old(out) + r.trace && (status.Fine? <==> r.outcome.Done?) && stack == Left(old(stack), r)
    {
      stack := stack + [f];
      assert stack[..|stack| - 1] == old(stack);
      FullAsMeant(f.body, Nil, nCcalls + 1);
      status := PCall(0);
    }

    /** luaD_seterrorobj. */
    method SetErrorObj(status: Status, oldtop: nat)
      requires status != Fine && oldtop <= |stack|
      modifies this`stack
      ensures stack == old(stack)[..oldtop] + [Carried(status, old(stack))]
    {
      var v := if status.ErrErr? || stack == [] then Text(InHandling) else stack[|stack| - 1];
      stack := stack[..oldtop] + [v];
    }

    /** The complaint tryBlock has about its arguments. */
    method CheckArgs() returns (complaint: seq<Message>)
      requires Valid()
      ensures BadArgs(stack[base..]) == if complaint == [] then Done else Thrown(Text(complaint[0]))
    {
      var args := |stack| - base;
      complaint := [];
      if args < 1 || args > 3 { return [WrongCount]; }
      if args == 1 && !At(1).Fun? {
        complaint := [NotOne];
      } else if args == 2 && (!At(1).Fun? || !At(2).Fun?) {
        complaint := [NotTwo];
      } else if args == 3 && (!At(1).Fun? || !At(3).Fun? || !(At(2) == Nil || At(2).Fun?)) {
        complaint := [NotThree];
      }
    }

    /** tryBlock, its arguments being its frame. */
    method TryBlock() returns (status: Status)
      requires Valid() && errfunc == 0
      modifies this
      ensures status.Fine? ==> Valid() && ci == old(ci) && nCcalls == old(nCcalls) && errfunc == 0
      ensures old(base) <= |stack| && stack[..old(base)] == old(stack)[..old(base)]
      ensures |old(ci)| <= |ci| && ci[..|old(ci)|] == old(ci)
      ensures status.ErrRun? ==> old(base) < |stack|
      ensures Went(AsWritten(CallAt(Written, old(nCcalls)), old(stack)[old(base)..]), status, stack, old(out), out)
      decreases MAX_HANDLING - nCcalls, 2, 3
    {
      ghost var args, call := stack[base..], CallAt(Written, nCcalls);
      var complaint := CheckArgs();
      if complaint != [] {
        stack := stack + [Text(complaint[0])];
        return ErrRun;
      }
      var err := TryAndCatch();
      err := Finally(err);
      status := if err then ErrRun else Fine;
    }

    /** The protected call of the third function. */
    method Finally(pending: bool) returns (err: bool)
      requires Valid() && (pending ==> base < |stack|)
      modifies this
      ensures Valid() && ci == old(ci) && nCcalls == old(nCcalls) && errfunc == old(errfunc)
      ensures base <= |stack| && stack[..base] == old(stack)[..base]
      ensures var s := old(stack)[base..];
              var last := if Slot(s, 2).Fun? then CallAt(Written, nCcalls)(Slot(s, 2), Nil) else Res([], Done);
              && out == old(out) + last.trace && err == (pending || last.outcome.Thrown?)
              && (err ==> base < |stack| && stack[|stack| - 1] == if pending then s[|s| - 1] else last.outcome.v)
      decreases MAX_HANDLING - nCcalls, 2, 2
    {
      err := pending;
      assert At(3) == Slot(stack[base..], 2);
      if At(3).Fun? {
        stack := stack + [At(3)];
        assert stack[..|stack| - 1] == old(stack);
        var errF := PCall(0);
        if errF != Fine {
          if err {
            stack := stack[..|stack| - 1];
          } else {
            err := true;
          }
        }
      }
    }

    /** The protected calls of the first and, after an error, of the second function. */
    method TryAndCatch() returns (err: bool)
      requires Valid() && BadArgs(stack[base..]).Done?
      modifies this
      ensures Valid() && ci == old(ci) && nCcalls == old(nCcalls) && errfunc == old(errfunc)
      ensures base <= |stack| && stack[..base] == old(stack)[..base]
      ensures var (t, s, e) := Handled(CallAt(Written, old(nCcalls)), old(stack)[base..]);
              out == old(out) + t && stack[base..] == s && err == e
      decreases MAX_HANDLING - nCcalls, 2, 2
    {
      ghost var args := stack[base..];
      stack := stack + [At(1)];
      assert stack[..|stack| - 1] == old(stack);
      var status := PCall(0);
      err := status != Fine;
      assert stack[base..] == Left(args, CallAt(Written, nCcalls)(args[0], Nil));
      if err && At(2).Fun? {
        stack := stack[..|stack| - 1] + [At(2), stack[|stack| - 1]];
        assert stack[..|stack| - 2] == old(stack);
        status := PCall(1);
        err := status != Fine;
      }
    }

    /** The value at an index of the frame. */
    function At(i: nat): Value
      requires 0 < i
      reads this
    {
      Slot(stack, base + i - 1)
    }
  }
}
