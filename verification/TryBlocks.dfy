/** What jlua.try means for programs whose functions emit, raise errors and try in turn
    (src/c/jlua/jlua.c). */
module TryBlocks {

  /** LUAI_MAXCCALLS, and the depth at which errors in error handling are given up. */
  const MAX_CCALLS := 200
  const MAX_HANDLING := 225

  datatype Message = Overflow | InHandling | WrongCount | NotOne | NotTwo | NotThree | Custom(id: int)

  datatype Value = Nil | Num(n: int) | Text(m: Message) | Fun(body: Body)

  /** The argument of the running function, nil if it got none, or a constant. */
  datatype Expr = Arg | Lit(v: Value)

  /** The body of a function. */
  datatype Body = Skip | Emit(n: int) | Raise(e: Expr) | Then(first: Body, second: Body) | Try(args: seq<Expr>)

  /** What can be seen of a run, and how it ends. */
  datatype Event = Emitted(n: int) | Called(body: Body, arg: Value)

  datatype Outcome = Done | Thrown(v: Value)

  datatype Res = Res(trace: seq<Event>, outcome: Outcome)

  /** How a function value runs when it is called with an argument. */
  type Caller = (Value, Value) -> Res

  function Eval(e: Expr, arg: Value): Value {
    if e.Arg? then arg else e.v
  }

  function EvalAll(es: seq<Expr>, arg: Value): (vs: seq<Value>)
    ensures |vs| == |es| && forall i :: 0 <= i < |es| ==> vs[i] == Eval(es[i], arg)
  {
    if es == [] then [] else [Eval(es[0], arg)] + EvalAll(es[1..], arg)
  }

  function After(t: seq<Event>, r: Res): Res {
    Res(t + r.trace, r.outcome)
  }

  function Slot(s: seq<Value>, i: nat): Value {
    if i < |s| then s[i] else Nil
  }

  /** The complaint about the arguments, if there is one. */
  function BadArgs(args: seq<Value>): (c: Outcome)
    ensures c.Done? <==> 1 <= |args| <= 3 && args[0].Fun? && (|args| == 2 ==> args[1].Fun?)
                         && (|args| == 3 ==> (args[1] == Nil || args[1].Fun?) && args[2].Fun?)
  {
    if |args| < 1 || |args| > 3 then Thrown(Text(WrongCount))
    else if |args| == 1 && !args[0].Fun? then Thrown(Text(NotOne))
    else if |args| == 2 && !(args[0].Fun? && args[1].Fun?) then Thrown(Text(NotTwo))
    else if |args| == 3 && !(args[0].Fun? && args[2].Fun?
          && (args[1] == Nil || args[1].Fun?)) then Thrown(Text(NotThree))
    else Done
  }

  // ----- What is meant -----

  /** Whether there is a function to catch errors. */
  predicate Catches(args: seq<Value>) {
    |args| >= 2 && args[1].Fun?
  }

  /** The body, and the catch function if the body raised. */
  function Caught(call: Caller, args: seq<Value>): Res
    requires BadArgs(args).Done?
  {
    var r := call(args[0], Nil);
    if r.outcome.Thrown? && Catches(args) then After(r.trace, call(args[1], r.outcome.v)) else r
  }

  /** The catch function runs if the body raises, with the error, and the finally function
      at the end in any case; an error pending then wins over one that it raises. */
  function Meaning(call: Caller, args: seq<Value>): Res {
    if BadArgs(args).Thrown? then Res([], BadArgs(args))
    else
      var r := Caught(call, args);
      if |args| < 3 then r
      else
        var last := call(args[2], Nil);
        Res(r.trace + last.trace, if r.outcome.Thrown? then r.outcome else last.outcome)
  }

  // ----- What the code does -----

  /** The stack of tryBlock after a protected call whose function and arguments were pushed
      on top of s. */
  function Left(s: seq<Value>, r: Res): seq<Value> {
    if r.outcome.Thrown? then s + [r.outcome.v] else s
  }

  /** The first two calls: the trace, the stack left, and whether an error is pending. */
  function Handled(call: Caller, args: seq<Value>): (seq<Event>, seq<Value>, bool)
    requires BadArgs(args).Done?
  {
    var r := call(args[0], Nil);
    var s := Left(args, r);
    if r.outcome.Thrown? && Slot(s, 1).Fun? then
      var c := call(Slot(s, 1), r.outcome.v);
      (r.trace + c.trace, Left(args, c), c.outcome.Thrown?)
    else (r.trace, s, r.outcome.Thrown?)
  }

  /** tryBlock looks for its functions in slots 2 and 3 of its frame, where an error may be. */
  function AsWritten(call: Caller, args: seq<Value>): Res {
    if BadArgs(args).Thrown? then Res([], BadArgs(args))
    else
      var (t, s, err) := Handled(call, args);
      if Slot(s, 2).Fun? then
        var last := call(Slot(s, 2), Nil);
        Res(t + last.trace, if err then Thrown(s[|s| - 1]) else last.outcome)
      else Res(t, if err then Thrown(s[|s| - 1]) else Done)
  }

  /** An error takes the place of a function that was not given: one raised by the body, of
      the catch function; one raised by the catch function, of the finally function. */
  predicate Misplaced(call: Caller, args: seq<Value>) {
    && BadArgs(args).Done?
    && |args| < 3
    && var r := Caught(call, args).outcome;
       r.Thrown? && r.v.Fun?
  }

  /** A call of a function shows, unless none can be made. */
  ghost predicate Shows(call: Caller) {
    || (forall f: Value, x: Value :: f.Fun? ==> call(f, x).trace != [])
    || exists m :: forall f: Value, x: Value :: f.Fun? ==> call(f, x) == Res([], Thrown(Text(m)))
  }

  /** The code does what is meant unless an error that is a function is misplaced. */
  lemma AsMeant(call: Caller, args: seq<Value>)
    requires Shows(call)
    ensures AsWritten(call, args) == Meaning(call, args) <==> !Misplaced(call, args)
  {
    if BadArgs(args).Done? {
      var r := call(args[0], Nil);
      if |args| == 1 && r.outcome.Thrown? && r.outcome.v.Fun? {
        assert call(r.outcome.v, r.outcome.v).trace != [];
        assert |AsWritten(call, args).trace| > |r.trace|;
      }
      if |args| == 2 && r.outcome.Thrown? {
        var c := call(args[1], r.outcome.v);
        if c.outcome.Thrown? && c.outcome.v.Fun? {
          assert call(c.outcome.v, Nil).trace != [];
          assert |AsWritten(call, args).trace| > |r.trace + c.trace|;
        }
      }
    }
  }

  // ----- Whole programs -----

  /** Programs as they run, and as they are meant to. */
  datatype How = Written | Intended

  /** A protected call of a function with an argument, n C calls being active. */
  function Call(how: How, f: Value, x: Value, n: nat): Res
    requires f.Fun?
    decreases MAX_HANDLING - n, 1
  {
    if n + 1 == MAX_CCALLS then Res([], Thrown(Text(Overflow)))
    else if n + 1 >= MAX_HANDLING then Res([], Thrown(Text(InHandling)))
    else After([Called(f.body, x)], Run(how, f.body, x, n + 1))
  }

  function CallAt(how: How, n: nat): Caller
    decreases MAX_HANDLING - n, 2
  {
    (f: Value, x: Value) => if f.Fun? then Call(how, f, x, n) else Res([], Done)
  }

  function Run(how: How, b: Body, arg: Value, n: nat): Res
    decreases MAX_HANDLING - n, 3, b
  {
    match b
    case Skip => Res([], Done)
    case Emit(k) => Res([Emitted(k)], Done)
    case Raise(e) => Res([], Thrown(Eval(e, arg)))
    case Then(p, q) =>
      var r := Run(how, p, arg, n);
      if r.outcome.Thrown? then r else After(r.trace, Run(how, q, arg, n))
    case Try(es) =>
      if how.Written? then AsWritten(CallAt(how, n), EvalAll(es, arg)) else Meaning(CallAt(how, n), EvalAll(es, arg))
  }

  lemma CallsShow(how: How, n: nat)
    ensures Shows(CallAt(how, n))
  {
    var m := if n + 1 == MAX_CCALLS then Overflow else InHandling;
    if n + 1 == MAX_CCALLS || n + 1 >= MAX_HANDLING {
      assert forall f: Value, x: Value :: f.Fun? ==> CallAt(how, n)(f, x) == Res([], Thrown(Text(m)));
    } else {
      forall f: Value, x: Value | f.Fun? ensures CallAt(how, n)(f, x).trace != [] {
        assert CallAt(how, n)(f, x).trace[0] == Called(f.body, x);
      }
    }
  }

  /** One try by itself: whatever its functions do, in exactly the tries where no error is
      misplaced the code does what is meant. */
  lemma TryAsMeant(how: How, args: seq<Value>, n: nat)
    ensures AsWritten(CallAt(how, n), args) == Meaning(CallAt(how, n), args) <==> !Misplaced(CallAt(how, n), args)
  {
    CallsShow(how, n);
    AsMeant(CallAt(how, n), args);
  }

  /** An input that shows it: the body raises a function, and the code calls it. */
  lemma CalledByMistake(n: nat)
    requires n < 100
    ensures var f, g := Fun(Raise(Lit(Fun(Emit(7))))), Fun(Emit(7)); var b := Try([Lit(f)]);
            && Run(Intended, b, Nil, n) == Res([Called(f.body, Nil)], Thrown(g))
            && Run(Written, b, Nil, n) == Res([Called(f.body, Nil), Called(g.body, g), Emitted(7)], Done)
  {
    var f, g := Fun(Raise(Lit(Fun(Emit(7))))), Fun(Emit(7));
    OneArg(f);
    forall how: How ensures Call(how, f, Nil, n) == Res([Called(f.body, Nil)], Thrown(g)) {
      assert Run(how, f.body, Nil, n + 1) == Res([], Thrown(g));
    }
    assert Run(Written, g.body, g, n + 1) == Res([Emitted(7)], Done);
    assert Call(Written, g, g, n) == Res([Called(g.body, g), Emitted(7)], Done);
    assert Left([f], Call(Written, f, Nil, n)) == [f, g];
    assert CallAt(Intended, n)(f, Nil) == Call(Intended, f, Nil, n);
    assert Caught(CallAt(Intended, n), [f]) == Call(Intended, f, Nil, n);
    assert Meaning(CallAt(Intended, n), [f]) == Call(Intended, f, Nil, n);
  }

  lemma OneArg(f: Value)
    ensures EvalAll([Lit(f)], Nil) == [f]
  {
  }

  /** In the whole run of a body as it is meant, no error is misplaced. */
  ghost predicate Straight(b: Body, arg: Value, n: nat)
    decreases MAX_HANDLING - n, 3, b
  {
    match b
    case Then(p, q) => Straight(p, arg, n) && (Run(Intended, p, arg, n).outcome.Done? ==> Straight(q, arg, n))
    case Try(es) =>
      var args, call := EvalAll(es, arg), CallAt(Intended, n);
      && !Misplaced(call, args)
      && (BadArgs(args).Done? ==>
            && StraightCall(args[0], Nil, n)
            && (var r := call(args[0], Nil).outcome; r.Thrown? && Catches(args) ==> StraightCall(args[1], r.v, n))
            && (|args| == 3 ==> StraightCall(args[2], Nil, n)))
    case _ => true
  }

  ghost predicate StraightCall(f: Value, x: Value, n: nat)
    decreases MAX_HANDLING - n, 1
  {
    f.Fun? && n + 1 != MAX_CCALLS && n + 1 < MAX_HANDLING ==> Straight(f.body, x, n + 1)
  }

  /** Such a run goes as it is meant, however deep its tries are nested. */
  lemma {:induction false} RunAsMeant(b: Body, arg: Value, n: nat)
    requires Straight(b, arg, n)
    ensures Run(Written, b, arg, n) == Run(Intended, b, arg, n)
    decreases MAX_HANDLING - n, 3, b
  {
    match b
    case Then(p, q) =>
      RunAsMeant(p, arg, n);
      if Run(Intended, p, arg, n).outcome.Done? { RunAsMeant(q, arg, n); }
    case Try(es) =>
      var args, call := EvalAll(es, arg), CallAt(Intended, n);
      if BadArgs(args).Done? {
        CallAsMeant(args[0], Nil, n);
        var r := call(args[0], Nil).outcome;
        if r.Thrown? && Catches(args) { CallAsMeant(args[1], r.v, n); }
        if |args| == 3 { CallAsMeant(args[2], Nil, n); }
      }
      TryAsMeant(Intended, args, n);
    case _ =>
  }

  lemma {:induction false} CallAsMeant(f: Value, x: Value, n: nat)
    requires StraightCall(f, x, n)
    ensures CallAt(Written, n)(f, x) == CallAt(Intended, n)(f, x)
    decreases MAX_HANDLING - n, 1
  {
    if f.Fun? && n + 1 != MAX_CCALLS && n + 1 < MAX_HANDLING { RunAsMeant(f.body, x, n + 1); }
  }

  // ----- Three arguments are enough -----

  /** No try is written with one or two arguments. */
  predicate Full(b: Body) {
    match b
    case Raise(e) => FullExpr(e)
    case Then(p, q) => Full(p) && Full(q)
    case Try(es) => |es| != 1 && |es| != 2 && forall i :: 0 <= i < |es| ==> FullExpr(es[i])
    case _ => true
  }

  predicate FullExpr(e: Expr) {
    e.Lit? ==> FullValue(e.v)
  }

  predicate FullValue(v: Value) {
    v.Fun? ==> Full(v.body)
  }

  ghost predicate FullOutcome(o: Outcome) {
    o.Thrown? ==> FullValue(o.v)
  }

  /** A program whose tries all have their three arguments runs as it is meant. */
  lemma FullAsMeant(b: Body, arg: Value, n: nat)
    requires Full(b) && FullValue(arg)
    ensures Run(Written, b, arg, n) == Run(Intended, b, arg, n)
  {
    FullStraight(b, arg, n);
    RunAsMeant(b, arg, n);
  }

  lemma {:induction false} FullStraight(b: Body, arg: Value, n: nat)
    requires Full(b) && FullValue(arg)
    ensures Straight(b, arg, n) && FullOutcome(Run(Intended, b, arg, n).outcome)
    decreases MAX_HANDLING - n, 3, b
  {
    match b
    case Then(p, q) =>
      FullStraight(p, arg, n);
      FullStraight(q, arg, n);
    case Try(es) =>
      var args, call := EvalAll(es, arg), CallAt(Intended, n);
      assert forall i :: 0 <= i < |args| ==> FullExpr(es[i]) && args[i] == Eval(es[i], arg);
      if BadArgs(args).Done? {
        FullCall(args[0], Nil, n);
        var r := call(args[0], Nil).outcome;
        if r.Thrown? && Catches(args) { FullCall(args[1], r.v, n); }
        FullCall(args[2], Nil, n);
      }
    case _ =>
  }

  lemma {:induction false} FullCall(f: Value, x: Value, n: nat)
    requires FullValue(f) && FullValue(x)
    ensures StraightCall(f, x, n) && FullOutcome(CallAt(Intended, n)(f, x).outcome)
    decreases MAX_HANDLING - n, 1
  {
    if f.Fun? && n + 1 != MAX_CCALLS && n + 1 < MAX_HANDLING { FullStraight(f.body, x, n + 1); }
  }

  // ----- What a try promises -----

  function Count(t: seq<Event>, k: int): (c: nat) {
    if t == [] then 0 else (if t[0] == Emitted(k) then 1 else 0) + Count(t[1..], k)
  }

  lemma {:induction false} CountConcat(t: seq<Event>, u: seq<Event>, k: int)
    ensures Count(t + u, k) == Count(t, k) + Count(u, k)
    decreases |t|
  {
    if t == [] {
      assert t + u == u;
    } else {
      assert (t + u)[0] == t[0] && (t + u)[1..] == t[1..] + u;
      CountConcat(t[1..], u, k);
    }
  }

  /** Number k is emitted nowhere in a body. */
  predicate Mute(b: Body, k: int) {
    match b
    case Skip => true
    case Emit(j) => j != k
    case Raise(e) => MuteExpr(e, k)
    case Then(p, q) => Mute(p, k) && Mute(q, k)
    case Try(es) => forall i :: 0 <= i < |es| ==> MuteExpr(es[i], k)
  }

  predicate MuteExpr(e: Expr, k: int) {
    e.Lit? ==> MuteValue(e.v, k)
  }

  predicate MuteValue(v: Value, k: int) {
    v.Fun? ==> Mute(v.body, k)
  }

  ghost predicate MuteRes(r: Res, k: int) {
    Count(r.trace, k) == 0 && (r.outcome.Thrown? ==> MuteValue(r.outcome.v, k))
  }

  lemma {:induction false} RunMute(b: Body, arg: Value, n: nat, k: int)
    requires Mute(b, k) && MuteValue(arg, k)
    ensures MuteRes(Run(Intended, b, arg, n), k)
    decreases MAX_HANDLING - n, 3, b
  {
    match b
    case Then(p, q) =>
      RunMute(p, arg, n, k);
      RunMute(q, arg, n, k);
      CountConcat(Run(Intended, p, arg, n).trace, Run(Intended, q, arg, n).trace, k);
    case Try(es) =>
      var args, call := EvalAll(es, arg), CallAt(Intended, n);
      assert forall i :: 0 <= i < |args| ==> MuteExpr(es[i], k) && args[i] == Eval(es[i], arg);
      if BadArgs(args).Done? {
        CaughtMute(args, n, k);
        if |args| == 3 {
          CallMute(args[2], Nil, n, k);
          CountConcat(Caught(call, args).trace, call(args[2], Nil).trace, k);
        }
      }
    case _ =>
  }

  lemma {:induction false} CaughtMute(args: seq<Value>, n: nat, k: int)
    requires BadArgs(args).Done? && MuteValue(args[0], k) && (|args| >= 2 ==> MuteValue(args[1], k))
    ensures MuteRes(Caught(CallAt(Intended, n), args), k)
    decreases MAX_HANDLING - n, 2
  {
    var r := CallAt(Intended, n)(args[0], Nil);
    CallMute(args[0], Nil, n, k);
    if r.outcome.Thrown? && Catches(args) {
      CallMute(args[1], r.outcome.v, n, k);
      CountConcat(r.trace, CallAt(Intended, n)(args[1], r.outcome.v).trace, k);
    }
  }

  lemma {:induction false} CallMute(f: Value, x: Value, n: nat, k: int)
    requires MuteValue(f, k) && MuteValue(x, k)
    ensures MuteRes(CallAt(Intended, n)(f, x), k)
    decreases MAX_HANDLING - n, 1
  {
    if f.Fun? && n + 1 != MAX_CCALLS && n + 1 < MAX_HANDLING { RunMute(f.body, x, n + 1, k); }
  }

  /** A function that first emits k, called once, emits it once. */
  lemma MarkedOnce(rest: Body, x: Value, n: nat, k: int)
    requires Mute(rest, k) && MuteValue(x, k) && n + 1 < MAX_CCALLS
    ensures var r := Call(Intended, Fun(Then(Emit(k), rest)), x, n);
            Count(r.trace, k) == 1 && r.outcome == Run(Intended, rest, x, n + 1).outcome
  {
    var b := Then(Emit(k), rest);
    RunMute(rest, x, n + 1, k);
    var t := Run(Intended, rest, x, n + 1).trace;
    assert Run(Intended, Emit(k), x, n + 1) == Res([Emitted(k)], Done);
    assert Run(Intended, b, x, n + 1).trace == [Emitted(k)] + t;
    assert Call(Intended, Fun(b), x, n).trace == [Called(b, x)] + ([Emitted(k)] + t);
    assert ([Emitted(k)] + t)[1..] == t;
    assert ([Called(b, x)] + ([Emitted(k)] + t))[1..] == [Emitted(k)] + t;
  }

  /** Of a try with three arguments the finally function runs exactly once, whatever body and
      catch function do; and the pending error is what is raised. */
  lemma FinallyOnce(b: Value, c: Value, rest: Body, n: nat, k: int)
    requires b.Fun? && (c == Nil || c.Fun?) && MuteValue(b, k) && MuteValue(c, k) && Mute(rest, k) && n + 1 < MAX_CCALLS
    ensures var args := [b, c, Fun(Then(Emit(k), rest))];
            var r, o := Meaning(CallAt(Intended, n), args), Caught(CallAt(Intended, n), args).outcome;
            && Count(r.trace, k) == 1
            && r.outcome == if o.Thrown? then o else Run(Intended, rest, Nil, n + 1).outcome
  {
    var args := [b, c, Fun(Then(Emit(k), rest))];
    CaughtMute(args, n, k);
    MarkedOnce(rest, Nil, n, k);
    CountConcat(Caught(CallAt(Intended, n), args).trace, CallAt(Intended, n)(args[2], Nil).trace, k);
  }

  /** The catch function runs, once, exactly if the body raises. */
  lemma CatchIfRaised(b: Value, rest: Body, f: Value, n: nat, k: int)
    requires b.Fun? && f.Fun? && MuteValue(b, k) && Mute(rest, k) && MuteValue(f, k) && n + 1 < MAX_CCALLS
    ensures var args := [b, Fun(Then(Emit(k), rest)), f];
            var r, o := Meaning(CallAt(Intended, n), args), Run(Intended, b.body, Nil, n + 1).outcome;
            Count(r.trace, k) == if o.Thrown? then 1 else 0
  {
    hide Run, Mute, Count;
    var args, call := [b, Fun(Then(Emit(k), rest)), f], CallAt(Intended, n);
    var r := call(b, Nil);
    CallMute(b, Nil, n, k);
    CallMute(f, Nil, n, k);
    CountConcat(Caught(call, args).trace, call(f, Nil).trace, k);
    if r.outcome.Thrown? {
      MarkedOnce(rest, r.outcome.v, n, k);
      CountConcat(r.trace, call(args[1], r.outcome.v).trace, k);
    }
  }

  /** A body inside tries that catch nothing. */
  function Wrapped(b: Body, finals: seq<Value>): Body {
    if finals == [] then b else Try([Lit(Fun(Wrapped(b, finals[1..]))), Lit(Nil), Lit(finals[0])])
  }

  /** An error that no try around it catches goes through all of them, to the nearest catch
      function outside. */
  lemma {:induction false} GoesThrough(b: Body, finals: seq<Value>, n: nat, x: Value)
    requires n + |finals| + 1 < MAX_CCALLS && forall i :: 0 <= i < |finals| ==> finals[i].Fun?
    requires Run(Intended, b, Nil, n + |finals|).outcome == Thrown(x)
    ensures Run(Intended, Wrapped(b, finals), Nil, n).outcome == Thrown(x)
    decreases |finals|
  {
    if finals != [] {
      GoesThrough(b, finals[1..], n + 1, x);
      var inner := Fun(Wrapped(b, finals[1..]));
      WrappedArgs(inner, finals[0]);
      assert CallAt(Intended, n)(inner, Nil).outcome == Thrown(x);
    }
  }

  lemma WrappedArgs(f: Value, last: Value)
    ensures EvalAll([Lit(f), Lit(Nil), Lit(last)], Nil) == [f, Nil, last]
  {
    OneArg(last);
    assert [Lit(f), Lit(Nil), Lit(last)][1..] == [Lit(Nil), Lit(last)];
    assert [Lit(Nil), Lit(last)][1..] == [Lit(last)];
    assert EvalAll([Lit(Nil), Lit(last)], Nil) == [Nil, last];
  }

  /** The nearest catch function gets the error. */
  lemma NearestCatch(b: Body, finals: seq<Value>, c: Value, last: Value, n: nat, x: Value)
    requires n + |finals| + 2 < MAX_CCALLS && (forall i :: 0 <= i < |finals| ==> finals[i].Fun?) && c.Fun? && last.Fun?
    requires Run(Intended, b, Nil, n + 1 + |finals|).outcome == Thrown(x)
    ensures var args := [Fun(Wrapped(b, finals)), c, last];
            Caught(CallAt(Intended, n), args) == After(CallAt(Intended, n)(args[0], Nil).trace, Call(Intended, c, x, n))
  {
    GoesThrough(b, finals, n + 1, x);
  }
}
