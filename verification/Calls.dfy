/** Function calls on the one stack that all activations share
    (src/c/lua/ldo.c, src/c/lua/lvm.c). */
module Calls {

  /** What a call needs to know of a function's prototype. */
  datatype Proto = Proto(numparams: nat, vararg: bool, needsArg: bool, maxstack: nat)

  /** An object may have a function to be called in its place. */
  datatype Value =
    | Nil
    | Data(id: nat)
    | ArgTable(elems: seq<Value>)
    | LuaFunction(p: Proto, id: nat)
    | CFunction(id: nat)
    | Object(id: nat, call: Value)

  datatype CallInfo = CallInfo(func: nat, base: nat, top: nat, nresults: int, savedpc: int, tailcalls: nat)

  const MULTRET := -1

  /** How luaD_precall ends. */
  datatype Pcr = PcrLua | PcrC | NotCallable | NoRoom

  /** The compiler makes room for the parameters, and for the arg table only in vararg functions. */
  predicate ProtoOk(p: Proto) {
    p.numparams + (if p.needsArg then 1 else 0) <= p.maxstack && (p.needsArg ==> p.vararg)
  }

  predicate IsFunction(v: Value) {
    v.LuaFunction? || v.CFunction?
  }

  /** What is called when v is, and with which arguments. */
  function Callee(v: Value): Value {
    if !IsFunction(v) && v.Object? then v.call else v
  }

  function Args(s: seq<Value>, func: nat, top: nat): seq<Value>
    requires func < top <= |s|
  {
    if IsFunction(s[func]) then s[func + 1..top] else s[func..top]
  }

  // --- What a call means -------------------------------------------------------------------

  function NilSlots(n: nat): (s: seq<Value>)
    ensures |s| == n && forall i :: 0 <= i < n ==> s[i] == Nil
  {
    seq(n, i => Nil)
  }

  /** Exactly n values: the rest is cut off, or nils are added. */
  function Padded(xs: seq<Value>, n: nat): (s: seq<Value>)
    ensures |s| == n
  {
    if |xs| >= n then xs[..n] else xs + NilSlots(n - |xs|)
  }

  /** The arguments past the fixed parameters. */
  function Extra(xs: seq<Value>, n: nat): seq<Value> {
    if |xs| > n then xs[n..] else []
  }

  /** The registers of function p when it is called with arguments xs. */
  function Entry(p: Proto, xs: seq<Value>): seq<Value>
    requires ProtoOk(p)
  {
    Padded(Padded(xs, p.numparams) + (if p.needsArg then [ArgTable(Extra(xs, p.numparams))] else []), p.maxstack)
  }

  /** What a call that wants so many results gets. */
  function Wanted(rs: seq<Value>, nresults: int): seq<Value>
    requires nresults >= MULTRET
  {
    if nresults == MULTRET then rs else Padded(rs, nresults)
  }

  /** One activation, as the program sees it: its function, the extra arguments it was given
      and, while it waits for a call to return, the registers below that call. */
  datatype Activation = Activation(fn: Value, extra: seq<Value>, saved: seq<Value>)

  function ExtraOf(fn: Value, xs: seq<Value>): seq<Value> {
    if fn.LuaFunction? && fn.p.vararg then Extra(xs, fn.p.numparams) else []
  }

  // --- Activations on the stack ------------------------------------------------------------

  ghost predicate FrameAt(stack: seq<Value>, c: CallInfo, a: Activation) {
    && c.func < c.base <= c.top <= |stack| && c.nresults >= MULTRET
    && stack[c.func] == a.fn
    && (a.fn.LuaFunction? ==>
          && ProtoOk(a.fn.p)
          && c.base == c.func + 1 + if a.fn.p.vararg then a.fn.p.numparams + |a.extra| else 0)
    && |a.extra| < c.base - c.func
    && stack[c.base - |a.extra|..c.base] == a.extra
  }

  /** Frame k + 1 starts where the saved registers of frame k end. */
  ghost predicate Above(stack: seq<Value>, c: CallInfo, a: Activation, d: CallInfo) {
    && c.base + |a.saved| == d.func <= |stack|
    && stack[c.base..d.func] == a.saved
    && (d.nresults >= 0 ==> d.func + d.nresults <= c.top)
  }

  ghost predicate Frames(stack: seq<Value>, ci: seq<CallInfo>, acts: seq<Activation>) {
    && 0 < |ci| == |acts|
    && (forall k :: 0 <= k < |ci| ==> FrameAt(stack, ci[k], acts[k]))
    && (forall k :: 0 <= k < |ci| - 1 ==> Above(stack, ci[k], acts[k], ci[k + 1]))
    && acts[|acts| - 1].saved == []
  }

  lemma FrameKept(s: seq<Value>, t: seq<Value>, c: CallInfo, a: Activation)
    requires FrameAt(s, c, a) && |s| <= |t| && c.base <= |s| && s[..c.base] == t[..c.base]
    ensures FrameAt(t, c, a)
  {
    assert t[c.func] == t[..c.base][c.func] == s[..c.base][c.func];
    assert t[c.base - |a.extra|..c.base] == t[..c.base][c.base - |a.extra|..];
    assert s[c.base - |a.extra|..c.base] == s[..c.base][c.base - |a.extra|..];
  }

  lemma {:induction false} BasesRise(stack: seq<Value>, ci: seq<CallInfo>, acts: seq<Activation>, j: nat, k: nat)
    requires Frames(stack, ci, acts) && j <= k < |ci|
    ensures ci[j].base <= ci[k].base
    ensures j < k ==> ci[j].base <= ci[k].func
    decreases k - j
  {
    if j < k {
      BasesRise(stack, ci, acts, j, k - 1);
      assert Above(stack, ci[k - 1], acts[k - 1], ci[k - 1 + 1]) && FrameAt(stack, ci[k], acts[k]);
    }
  }

  lemma Prefixes(s: seq<Value>, t: seq<Value>, m: nat, k: nat)
    requires k <= m <= |s| && m <= |t| && s[..m] == t[..m]
    ensures s[..k] == t[..k]
  {
    assert s[..k] == s[..m][..k] && t[..k] == t[..m][..k];
  }

  lemma ShortSlices(s: seq<Value>, t: seq<Value>, i: nat, j: nat, k: nat)
    requires i <= j <= k <= |s| <= |t| && t[..|s|] == s
    ensures t[i..j] == s[i..j] && t[j..k] == s[j..k]
  {
    forall x | 0 <= x < k ensures t[x] == s[x] { assert t[..|s|][x] == s[x]; }
  }

  lemma SameSlice(s: seq<Value>, t: seq<Value>, m: nat, i: nat, j: nat)
    requires i <= j <= m <= |s| && m <= |t| && s[..m] == t[..m]
    ensures s[i..j] == t[i..j]
  {
    forall x | 0 <= x < j ensures s[x] == t[x] { assert s[..m][x] == t[..m][x]; }
  }

  lemma SplitAt(s: seq<Value>, i: nat, j: nat, m: nat)
    requires i <= j <= m <= |s|
    ensures s[i..m][..j - i] == s[i..j] && s[i..m][j - i..] == s[j..m]
  {
  }

  lemma OneMore(s: seq<Value>, i: nat, j: nat)
    requires i <= j < |s|
    ensures s[i..j + 1] == s[i..j] + [s[j]]
  {
  }

  lemma Pushed(s: seq<Value>, i: nat, top: nat, v: Value)
    requires i <= top < |s|
    ensures s[top := v][i..top + 1] == s[i..top] + [v] && s[top := v][..top] == s[..top]
  {
  }

  /** What happens from the current base on leaves all activations as they are. */
  lemma FramesKept(s: seq<Value>, t: seq<Value>, ci: seq<CallInfo>, acts: seq<Activation>)
    requires Frames(s, ci, acts) && |s| <= |t|
    requires ci[|ci| - 1].base <= |s| && s[..ci[|ci| - 1].base] == t[..ci[|ci| - 1].base]
    ensures Frames(t, ci, acts)
  {
    var m := ci[|ci| - 1].base;
    forall k | 0 <= k < |ci| ensures FrameAt(t, ci[k], acts[k]) {
      BasesRise(s, ci, acts, k, |ci| - 1);
      Prefixes(s, t, m, ci[k].base);
      FrameKept(s, t, ci[k], acts[k]);
    }
    forall k | 0 <= k < |ci| - 1 ensures Above(t, ci[k], acts[k], ci[k + 1]) {
      BasesRise(s, ci, acts, k + 1, |ci| - 1);
      assert FrameAt(s, ci[k + 1], acts[k + 1]);
      AboveKept(s, t, ci, acts, m, k);
    }
  }

  lemma AboveKept(s: seq<Value>, t: seq<Value>, ci: seq<CallInfo>, acts: seq<Activation>, m: nat, k: nat)
    requires Frames(s, ci, acts) && |s| <= |t| && k < |ci| - 1 && ci[k + 1].func <= m <= |s| && s[..m] == t[..m]
    ensures Above(t, ci[k], acts[k], ci[k + 1])
  {
    assert Above(s, ci[k], acts[k], ci[k + 1]) && FrameAt(s, ci[k], acts[k]);
    var f := ci[k + 1].func;
    Prefixes(s, t, m, f);
    assert t[ci[k].base..f] == t[..f][ci[k].base..] && s[ci[k].base..f] == s[..f][ci[k].base..];
  }

  /** A new activation on top: the one below keeps the registers under it. */
  lemma FramesPushed(s: seq<Value>, ci: seq<CallInfo>, acts: seq<Activation>, pc: int, c: CallInfo, a: Activation)
    requires Frames(s, ci, acts) && FrameAt(s, c, a) && a.saved == []
    requires ci[|ci| - 1].base <= c.func && (c.nresults >= 0 ==> c.func + c.nresults <= ci[|ci| - 1].top)
    ensures var n := |ci| - 1;
            Frames(s, ci[n := ci[n].(savedpc := pc)] + [c], acts[n := acts[n].(saved := s[ci[n].base..c.func])] + [a])
  {
    var n := |ci| - 1;
    var di, bcts := ci[n := ci[n].(savedpc := pc)] + [c], acts[n := acts[n].(saved := s[ci[n].base..c.func])] + [a];
    forall k | 0 <= k < |di| ensures FrameAt(s, di[k], bcts[k]) {
      if k <= n { assert FrameAt(s, ci[k], acts[k]); }
    }
    forall k | 0 <= k < |di| - 1 ensures Above(s, di[k], bcts[k], di[k + 1]) {
      if k < n { assert Above(s, ci[k], acts[k], ci[k + 1]); }
    }
  }

  /** The activation on top goes. */
  lemma FramesPopped(s: seq<Value>, ci: seq<CallInfo>, acts: seq<Activation>)
    requires Frames(s, ci, acts) && 2 <= |ci|
    ensures var n := |ci| - 2; Frames(s, ci[..n + 1], acts[..n] + [acts[n].(saved := [])])
    ensures ci[|ci| - 2].base <= ci[|ci| - 1].func
    ensures s[ci[|ci| - 2].base..ci[|ci| - 1].func] == acts[|ci| - 2].saved
  {
    var n := |ci| - 2;
    var di, bcts := ci[..n + 1], acts[..n] + [acts[n].(saved := [])];
    assert Above(s, ci[n], acts[n], ci[n + 1]);
    forall k | 0 <= k < |di| ensures FrameAt(s, di[k], bcts[k]) { assert FrameAt(s, ci[k], acts[k]); }
    forall k | 0 <= k < |di| - 1 ensures Above(s, di[k], bcts[k], di[k + 1]) {
      assert Above(s, ci[k], acts[k], ci[k + 1]);
    }
  }

  // --- The abstract calls ------------------------------------------------------------------

  function Called(acts: seq<Activation>, kept: seq<Value>, fn: Value, xs: seq<Value>): seq<Activation>
    requires acts != []
  {
    acts[|acts| - 1 := acts[|acts| - 1].(saved := kept)] + [Activation(fn, ExtraOf(fn, xs), [])]
  }

  function Returned(acts: seq<Activation>): seq<Activation>
    requires 2 <= |acts|
  {
    acts[..|acts| - 2] + [acts[|acts| - 2].(saved := [])]
  }

  function Replaced(acts: seq<Activation>, fn: Value, xs: seq<Value>): seq<Activation>
    requires acts != []
  {
    acts[|acts| - 1 := Activation(fn, ExtraOf(fn, xs), [])]
  }

  /** Room every C function can count on. */
  const LUA_MINSTACK: nat := 20

  /** Slots kept in reserve past stack_last. */
  const EXTRA_STACK: nat := 5

  /** The size up to stack_last once there has to be room for n values above top. */
  function Grown(size: nat, top: nat, n: nat): nat {
    var stacksize := size + 1 + EXTRA_STACK;
    if size - top > n then size else if n <= stacksize then 2 * stacksize else stacksize + n
  }

  /** How many nils adjust_varargs pushes. */
  function Missing(p: Proto, actual: nat): nat {
    if actual < p.numparams then p.numparams - actual else 0
  }

  /** The frame of a Lua function fits below stack_last once luaD_precall has made room. */
  predicate FrameFits(size: nat, top: nat, p: Proto, actual: nat) {
    p.vararg && !p.needsArg ==> top + Missing(p, actual) + p.maxstack <= Grown(size, top, p.maxstack)
  }

  /** ... whatever the stack is like; below the arguments there are the function and at least
      one frame. */
  ghost predicate AlwaysFits(p: Proto, actual: nat) {
    forall size, top: nat :: actual + 2 <= top <= size ==> FrameFits(size, top, p, actual)
  }

  /** The room asked for does not count the nils for missing arguments of a vararg function:
      wherever it is called, the frame is sure to fit exactly when at most one is missing. */
  lemma SureToFit(p: Proto, actual: nat)
    requires p.vararg && !p.needsArg
    ensures AlwaysFits(p, actual) <==> Missing(p, actual) <= 1
  {
    if Missing(p, actual) > 1 {
      assert !FrameFits(actual + 3 + p.maxstack, actual + 2, p, actual);
    }
  }

  /** The frame ends within the block allocated, which has some slots past stack_last. */
  predicate FrameInBlock(size: nat, top: nat, p: Proto, actual: nat) {
    p.vararg && !p.needsArg ==> top + Missing(p, actual) + p.maxstack <= Grown(size, top, p.maxstack) + 1 + EXTRA_STACK
  }

  /** The slots past stack_last take up a frame that does not fit, on any stack, exactly when at
      most seven arguments are missing. */
  lemma SureInBlock(p: Proto, actual: nat)
    requires p.vararg && !p.needsArg
    ensures (forall size, top: nat :: actual + 2 <= top <= size ==> FrameInBlock(size, top, p, actual))
            <==> Missing(p, actual) <= EXTRA_STACK + 2
  {
    if Missing(p, actual) > EXTRA_STACK + 2 {
      assert !FrameInBlock(actual + 3 + p.maxstack, actual + 2, p, actual);
    }
  }

  lemma PaddedParts(xs: seq<Value>, ys: seq<Value>, n: nat, actual: nat)
    requires actual == (if |xs| < n then n else |xs|) && ys == xs + NilSlots(actual - |xs|)
    ensures Padded(xs, n) == ys[..n] && Extra(xs, n) == ys[n..]
  {
  }

  /** The parameters and the arg table, as far as they were given. */
  function Given(p: Proto, xs: seq<Value>): seq<Value> {
    if p.vararg then Padded(xs, p.numparams) + (if p.needsArg then [ArgTable(Extra(xs, p.numparams))] else [])
    else if |xs| > p.numparams then xs[..p.numparams] else xs
  }

  lemma EntryIs(p: Proto, xs: seq<Value>, regs: seq<Value>, given: nat)
    requires ProtoOk(p) && given <= |regs| == p.maxstack && regs == Given(p, xs) + NilSlots(|regs| - given)
          && given == |Given(p, xs)|
    ensures regs == Entry(p, xs)
  {
  }

  /** The stack from func on as the function at func finds it. */
  ghost predicate LaidOut(fn: Value, xs: seq<Value>, func: nat, base: nat, s: seq<Value>, top: nat) {
    && fn.LuaFunction? && ProtoOk(fn.p) && func < base <= top <= |s|
    && base == func + 1 + (if fn.p.vararg then fn.p.numparams + |ExtraOf(fn, xs)| else 0)
    && |ExtraOf(fn, xs)| < base - func
    && s[base - |ExtraOf(fn, xs)|..base] == ExtraOf(fn, xs)
    && s[base..top] == Entry(fn.p, xs)
  }

  lemma LaidOutBounds(fn: Value, xs: seq<Value>, func: nat, base: nat, s: seq<Value>, top: nat)
    requires LaidOut(fn, xs, func, base, s, top)
    ensures func < base <= top <= |s|
  {
  }

  lemma FixedGiven(s: seq<Value>, p: Proto, xs: seq<Value>, base: nat, top: nat)
    requires !p.vararg && base <= top <= |s| && s[base..top] == xs
    ensures s[base..if top > base + p.numparams then base + p.numparams else top] == Given(p, xs)
  {
    if top > base + p.numparams { assert s[base..base + p.numparams] == xs[..p.numparams]; }
  }

  /** Bounds of the two frames on top. */
  lemma FrameBounds(s: seq<Value>, ci: seq<CallInfo>, acts: seq<Activation>)
    requires Frames(s, ci, acts)
    ensures var c := ci[|ci| - 1];
          1 <= c.base && c.func < c.base <= c.top <= |s| && c.nresults >= MULTRET && c.func < |s|
    ensures 2 <= |ci| ==>
      (var n := |ci| - 1; ci[n - 1].base <= ci[n].func && (ci[n].nresults >= 0 ==> ci[n].func + ci[n].nresults <= |s|))
  {
    var n := |ci| - 1;
    assert FrameAt(s, ci[n], acts[n]);
    if 2 <= |ci| { assert Above(s, ci[n - 1], acts[n - 1], ci[n - 1 + 1]) && FrameAt(s, ci[n - 1], acts[n - 1]); }
  }

  lemma WantedMoved(s1: seq<Value>, s: seq<Value>, rs: seq<Value>, func: nat, res1: nat, res: nat, nresults: int)
    requires func <= res1 <= res <= |s| == |s1| && nresults >= MULTRET
    requires var n := if nresults == MULTRET || nresults > |rs| then |rs| else nresults;
          res1 == func + n && s1[func..res1] == rs[..n]
    requires nresults == MULTRET ==> res == res1
    requires nresults >= 0 ==> res == func + nresults
    requires (forall k :: 0 <= k < res1 ==> s[k] == s1[k]) && forall k :: res1 <= k < res ==> s[k] == Nil
    ensures s[func..res] == Wanted(rs, nresults)
  {
    assert s[func..res1] == s1[func..res1];
    assert s[func..res] == s[func..res1] + s[res1..res];
    assert s[res1..res] == NilSlots(res - res1);
  }

  /** The arguments of a vararg function in place: the extra ones below its base, the others
      from there on. */
  ghost predicate Adjusted(p: Proto, xs: seq<Value>, func: nat, base: nat, s: seq<Value>, top: nat) {
    var n := Extra(xs, p.numparams);
    && base == func + 1 + p.numparams + |n|
    && base + p.maxstack <= |s|
    && s[base - |n|..base] == n
    && top == base + p.numparams + (if p.needsArg then 1 else 0) <= |s|
    && s[base..top] == Padded(xs, p.numparams) + if p.needsArg then [ArgTable(n)] else []
  }

  lemma ArgumentsDone(p: Proto, xs: seq<Value>, ys: seq<Value>, func: nat, base: nat, s: seq<Value>, top: nat)
    requires p.numparams <= |ys| && Padded(xs, p.numparams) == ys[..p.numparams]
          && Extra(xs, p.numparams) == ys[p.numparams..]
    requires base == func + 1 + |ys| && base + p.maxstack <= |s|
    requires top == base + p.numparams + (if p.needsArg then 1 else 0) <= |s|
    requires s[func + 1 + p.numparams..base] == ys[p.numparams..]
    requires s[base..top] == ys[..p.numparams] + if p.needsArg then [ArgTable(ys[p.numparams..])] else []
    ensures Adjusted(p, xs, func, base, s, top)
  {
    hide Padded, Extra;
  }

  lemma GivenSize(p: Proto, xs: seq<Value>)
    requires ProtoOk(p)
    ensures |Given(p, xs)| <= p.maxstack
  {
  }

  lemma NewFrame(s0: seq<Value>, s: seq<Value>, func: nat, fn: Value, n: seq<Value>, c: CallInfo)
    requires func < |s0| && func < |s| && s0[..func + 1] == s[..func + 1] && s0[func] == fn
    requires c.func == func < c.base <= c.top <= |s| && c.nresults >= MULTRET && fn.LuaFunction? && ProtoOk(fn.p)
    requires c.base == func + 1 + (if fn.p.vararg then fn.p.numparams + |n| else 0) && |n| < c.base - func
          && s[c.base - |n|..c.base] == n
    ensures FrameAt(s, c, Activation(fn, n, []))
  {
    assert s[func] == s[..func + 1][func] == s0[..func + 1][func];
  }

  /** The frame just entered for a call of the function at func. */
  ghost predicate Entered(s: seq<Value>, ci: seq<CallInfo>, acts: seq<Activation>, pc: int, func: nat, nresults: int,
                          fn: Value, xs: seq<Value>,
                          s': seq<Value>, top': nat, ci': seq<CallInfo>, acts': seq<Activation>)
    requires func < |s| && 0 < |ci| == |acts| && fn.LuaFunction? && ProtoOk(fn.p)
  {
    var n := |ci| - 1;
    && |s| <= |s'| && s'[..func] == s[..func] && s'[func] == fn
    && ci[n].base <= func
    && acts' == Called(acts, s[ci[n].base..func], fn, xs)
    && |ci'| == n + 2 && ci'[..n] == ci[..n] && ci'[n] == ci[n].(savedpc := pc)
    && ci'[n + 1].func == func && ci'[n + 1].nresults == nresults && top' == ci'[n + 1].top <= |s'|
    && ci'[n + 1].base <= top' && s'[ci'[n + 1].base..top'] == Entry(fn.p, xs)
  }

  class LuaState {
    /** The slots up to stack_last. */
    var stack: seq<Value>
    var top: nat
    var base: nat
    /** The frames up to the current one. */
    var ci: seq<CallInfo>
    var savedpc: int
    ghost var acts: seq<Activation>

    ghost predicate Valid()
      reads this
    {
      && Frames(stack, ci, acts)
      && base == ci[|ci| - 1].base <= top <= |stack|
    }

    /** A new state: one C frame. */
    constructor (size: nat)
      requires 2 <= size
      ensures Valid() && |ci| == 1 && acts == [Activation(Nil, [], [])]
      ensures base == 1 == top && |stack| == size && ci[0].top == size
    {
      stack, top, base := NilSlots(size), 1, 1;
      ci, acts, savedpc := [CallInfo(0, 1, size, 0, 0, 0)], [Activation(Nil, [], [])], 0;
    }

    /** luaD_checkstack: room for n more values. */
    method CheckStack(n: nat)
      requires top <= |stack|
      modifies this`stack
      ensures |old(stack)| <= |stack| == Grown(|old(stack)|, top, n) && stack[..|old(stack)|] == old(stack)
      ensures top + n <= |stack|
    {
      if |stack| - top <= n {
        var stacksize := |stack| + 1 + EXTRA_STACK;
        stack := stack + NilSlots((if n <= stacksize then 2 * stacksize else stacksize + n) - |stack|);
      }
    }

    /** The program sets a slot of the current activation. */
    method SetSlot(i: nat, v: Value)
      requires Valid() && base <= i < |stack|
      modifies this`stack
      ensures Valid() && stack == old(stack)[i := v]
    {
      FramesKept(stack, stack[i := v], ci, acts);
      stack := stack[i := v];
    }

    method SetTop(t: nat)
      requires Valid() && base <= t <= |stack|
      modifies this`top
      ensures Valid() && top == t
    {
      top := t;
    }

    /** adjust_varargs: moves the fixed parameters above the extra arguments, and leaves nil where
        they were. It fails when the frame would not fit. */
    method AdjustVarargs(p: Proto, func: nat, actual0: nat) returns (ok: bool, newBase: nat)
      requires ProtoOk(p) && p.vararg && top == func + 1 + actual0 && top + p.maxstack <= |stack|
      modifies this`stack, this`top
      ensures |old(stack)| <= |stack| && stack[..func + 1] == old(stack)[..func + 1]
      ensures ok <==> p.needsArg || old(top) + Missing(p, actual0) + p.maxstack <= |old(stack)|
      ensures ok ==> Adjusted(p, old(stack)[func + 1..old(top)], func, newBase, stack, top)
      ensures ok ==> forall k :: func + 1 <= k < func + 1 + p.numparams && k < |stack| ==> stack[k] == Nil
    {
      hide Padded, Extra, NilSlots, Adjusted;
      ghost var s0, xs := stack, stack[func + 1..top];
      var actual := PadArguments(p.numparams, func, actual0);
      ghost var s, ys := stack, stack[func + 1..top];
      PaddedParts(xs, ys, p.numparams, actual);
      newBase := top;
      var extra := ArgTable(stack[func + 1 + p.numparams..top]);
      SplitAt(s, func + 1, func + 1 + p.numparams, top);
      if p.needsArg { CheckStack(p.maxstack); }
      ok := top + p.maxstack <= |stack|;
      Prefixes(s, stack, |s|, func + 1);
      if ok {
        ShortSlices(s, stack, func + 1, newBase, newBase);
        Place(p, func, extra, xs, ys);
      }
    }

    method Place(p: Proto, func: nat, extra: Value, ghost xs: seq<Value>, ghost ys: seq<Value>)
      requires ProtoOk(p) && func + 1 <= top && top + p.maxstack <= |stack| && stack[func + 1..top] == ys
      requires p.numparams <= |ys| && Padded(xs, p.numparams) == ys[..p.numparams]
            && Extra(xs, p.numparams) == ys[p.numparams..]
      requires extra == ArgTable(ys[p.numparams..])
      modifies this`stack, this`top
      ensures |stack| == |old(stack)| && stack[..func + 1] == old(stack)[..func + 1]
      ensures Adjusted(p, xs, func, old(top), stack, top)
      ensures forall k :: func + 1 <= k < func + 1 + p.numparams ==> stack[k] == Nil
    {
      hide Padded, Extra, NilSlots, Adjusted;
      ghost var u, newBase := stack, top;
      SplitAt(u, func + 1, func + 1 + p.numparams, top);
      Spread(p, func + 1, extra);
      ArgumentsDone(p, xs, ys, func, newBase, stack, top);
    }

    /** The fixed parameters, and the arg table if there is one, in their final place. */
    method Spread(p: Proto, fixed: nat, extra: Value)
      requires ProtoOk(p) && fixed + p.numparams <= top && top + p.maxstack <= |stack|
      modifies this`stack, this`top
      ensures |stack| == |old(stack)| && top == old(top) + p.numparams + (if p.needsArg then 1 else 0)
      ensures stack[..fixed] == old(stack)[..fixed]
      ensures stack[fixed + p.numparams..old(top)] == old(stack)[fixed + p.numparams..old(top)]
      ensures stack[old(top)..top] == old(stack)[fixed..fixed + p.numparams] + if p.needsArg then [extra] else []
      ensures forall k :: fixed <= k < fixed + p.numparams ==> stack[k] == Nil
    {
      ghost var newBase := top;
      MoveFixed(p.numparams, fixed);
      if p.needsArg {
        ghost var t := stack;
        stack := stack[top := extra];
        top := top + 1;
        Pushed(t, newBase, top - 1, extra);
        SameSlice(t, stack, top - 1, 0, fixed);
        SameSlice(t, stack, top - 1, fixed + p.numparams, newBase);
      }
    }

    /** Moves the fixed parameters to their final place. */
    method MoveFixed(numparams: nat, fixed: nat)
      requires fixed + numparams <= top && top + numparams <= |stack|
      modifies this`stack, this`top
      ensures |stack| == |old(stack)| && top == old(top) + numparams
      ensures stack[..fixed] == old(stack)[..fixed]
      ensures stack[fixed + numparams..old(top)] == old(stack)[fixed + numparams..old(top)]
      ensures stack[old(top)..top] == old(stack)[fixed..fixed + numparams]
      ensures forall k :: fixed <= k < fixed + numparams ==> stack[k] == Nil
    {
      ghost var s, newBase := stack, top;
      var i := 0;
      while i < numparams
        invariant 0 <= i <= numparams && top == newBase + i && |stack| == |s|
        invariant stack[..fixed] == s[..fixed]
        invariant forall k :: fixed + i <= k < newBase ==> stack[k] == s[k]
        invariant forall k :: fixed <= k < fixed + i ==> stack[k] == Nil
        invariant stack[newBase..top] == s[fixed..fixed + i]
      {
        ghost var was := stack;
        stack := stack[top := stack[fixed + i]];
        Pushed(was, newBase, top, s[fixed + i]);
        stack := stack[fixed + i := Nil];
        top := top + 1;
        i := i + 1;
        OneMore(s, fixed, fixed + i - 1);
      }
    }

    /** Missing arguments are nil. */
    method PadArguments(numparams: nat, func: nat, actual0: nat) returns (actual: nat)
      requires top == func + 1 + actual0 <= |stack| && func + 1 + numparams <= |stack|
      modifies this`stack, this`top
      ensures actual == (if actual0 < numparams then numparams else actual0)
            && top == func + 1 + actual <= |stack| == |old(stack)|
      ensures stack[..func + 1] == old(stack)[..func + 1]
      ensures stack[func + 1..top] == old(stack)[func + 1..old(top)] + NilSlots(actual - actual0)
    {
      actual := actual0;
      ghost var s := stack;
      while actual < numparams
        invariant actual0 <= actual && (actual <= numparams || actual == actual0)
              && top == func + 1 + actual <= |stack| == |s|
        invariant stack[..func + 1 + actual0] == s[..func + 1 + actual0]
        invariant forall k :: func + 1 + actual0 <= k < top ==> stack[k] == Nil
      {
        stack := stack[top := Nil];
        top := top + 1;
        actual := actual + 1;
      }
      Prefixes(stack, s, func + 1 + actual0, func + 1);
      assert stack[func + 1..func + 1 + actual0] == stack[..func + 1 + actual0][func + 1..];
    }

    // ----- Entering a function -----

    /** tryfuncTM: an object that is no function gives way to its __call function, and becomes
        the first argument. */
    method TryFuncTM(func: nat) returns (ok: bool)
      requires Valid() && base <= func < top && !IsFunction(stack[func])
      modifies this`stack, this`top
      ensures Valid() && ok == (old(stack)[func].Object? && IsFunction(old(stack)[func].call))
      ensures !ok ==> stack == old(stack) && top == old(top)
      ensures ok ==> top == old(top) + 1 && stack[func] == old(stack)[func].call
      ensures ok ==> stack[func + 1..top] == old(stack)[func..old(top)]
      ensures ok ==> |old(stack)| <= |stack| && stack[..func] == old(stack)[..func]
    {
      hide Frames;
      var v := stack[func];
      ok := v.Object? && IsFunction(v.call);
      if ok {
        ghost var s := stack;
        Insert(func, v.call);
        Prefixes(s, stack, func, base);
        FramesKept(s, stack, ci, acts);
      }
    }

    /** The values from func on make way for v. */
    method Insert(func: nat, v: Value)
      requires func <= top <= |stack|
      modifies this`stack, this`top
      ensures |old(stack)| <= |stack| && top == old(top) + 1 <= |stack|
      ensures stack[..func] == old(stack)[..func] && stack[func] == v
            && stack[func + 1..top] == old(stack)[func..old(top)]
    {
      ghost var s := stack;
      CheckStack(1);
      ShortSlices(s, stack, 0, func, top);
      OpenHole(func);
      top := top + 1;
      ghost var t := stack;
      stack := stack[func := v];
      assert stack[func + 1..top] == t[func + 1..top];
      assert stack[..func] == t[..func];
    }

    /** Moves the values from func on one slot up. */
    method OpenHole(func: nat)
      requires func <= top < |stack|
      modifies this`stack
      ensures |stack| == |old(stack)| && stack[..func] == old(stack)[..func]
      ensures stack[func + 1..top + 1] == old(stack)[func..top]
    {
      ghost var s := stack;
      var p := top;
      while p > func
        invariant func <= p <= top < |stack| == |s|
        invariant forall k :: 0 <= k <= p ==> stack[k] == s[k]
        invariant forall k :: p < k <= top ==> stack[k] == s[k - 1]
      {
        stack := stack[p := stack[p - 1]];
        p := p - 1;
      }
      assert forall k :: 0 <= k < func ==> stack[k] == s[k];
      forall k | 0 <= k < top - func ensures stack[func + 1..top + 1][k] == s[func..top][k] {
        assert stack[func + 1 + k] == s[func + 1 + k - 1];
      }
    }

    /** The other registers start as nil. */
    method NilRest(newTop: nat)
      requires top <= newTop <= |stack|
      modifies this`stack, this`top
      ensures |stack| == |old(stack)| && top == newTop && stack[..old(top)] == old(stack)[..old(top)]
      ensures stack[old(top)..top] == NilSlots(newTop - old(top))
    {
      ghost var s, top0 := stack, top;
      var st := top;
      while st < newTop
        invariant top == top0 <= st <= newTop <= |stack| == |s|
        invariant forall k :: 0 <= k < top ==> stack[k] == s[k]
        invariant forall k :: top <= k < st ==> stack[k] == Nil
      {
        stack := stack[st := Nil];
        st := st + 1;
      }
      top := newTop;
    }

    /** The part of luaD_precall that lays out the new frame. */
    method Arrange(func: nat) returns (ok: bool, newBase: nat)
      requires func < top <= |stack| && stack[func].LuaFunction? && ProtoOk(stack[func].p)
      modifies this`stack, this`top
      ensures ok == FrameFits(|old(stack)|, old(top), old(stack)[func].p, old(top) - func - 1)
      ensures |old(stack)| <= |stack| && stack[..func + 1] == old(stack)[..func + 1]
      ensures ok ==> LaidOut(old(stack)[func], old(stack)[func + 1..old(top)], func, newBase, stack, top)
    {
      hide Padded, Extra, NilSlots, LaidOut;
      ghost var s0, xs := stack, stack[func + 1..top];
      var fn := stack[func];
      var p := fn.p;
      CheckStack(p.maxstack);
      ghost var s := stack;
      ShortSlices(s0, s, 0, func + 1, top);
      newBase := func + 1;
      ok := true;
      if !p.vararg {
        FixedGiven(stack, p, xs, newBase, top);
        if top > newBase + p.numparams { top := newBase + p.numparams; }
      } else {
        ok, newBase := AdjustVarargs(p, func, top - func - 1);
        if !ok { return; }
      }
      NilAbove(fn, xs, func, newBase);
    }

    method NilAbove(fn: Value, ghost xs: seq<Value>, func: nat, newBase: nat)
      requires func < newBase <= top <= |stack| && fn.LuaFunction? && ProtoOk(fn.p)
            && newBase + fn.p.maxstack <= |stack|
      requires stack[newBase..top] == Given(fn.p, xs) && |ExtraOf(fn, xs)| < newBase - func
      requires newBase == func + 1 + if fn.p.vararg then fn.p.numparams + |ExtraOf(fn, xs)| else 0
      requires stack[newBase - |ExtraOf(fn, xs)|..newBase] == ExtraOf(fn, xs)
      modifies this`stack, this`top
      ensures |stack| == |old(stack)| && stack[..func + 1] == old(stack)[..func + 1]
      ensures LaidOut(fn, xs, func, newBase, stack, top)
    {
      ghost var s, top0, n := stack, top, ExtraOf(fn, xs);
      GivenSize(fn.p, xs);
      NilRest(newBase + fn.p.maxstack);
      forall k | 0 <= k < top0 ensures stack[k] == s[k] { assert stack[..top0][k] == s[..top0][k]; }
      assert stack[newBase..top] == stack[newBase..top0] + stack[top0..top];
      EntryIs(fn.p, xs, stack[newBase..top], top0 - newBase);
    }

    /** luaD_precall on a Lua function. It fails only when the frame does not fit. */
    method PrecallLua(func: nat, nresults: int) returns (ok: bool)
      requires Valid() && base <= func < top && stack[func].LuaFunction? && ProtoOk(stack[func].p)
      requires nresults >= MULTRET && (nresults >= 0 ==> func + nresults <= ci[|ci| - 1].top)
      modifies this
      ensures ok == FrameFits(|old(stack)|, old(top), old(stack)[func].p, old(top) - func - 1)
      ensures ok ==> Valid() && savedpc == 0
      ensures ok ==> Entered(old(stack), old(ci), old(acts), old(savedpc), func, nresults,
                             old(stack)[func], old(stack)[func + 1..old(top)], stack, top, ci, acts)
    {
      hide Frames, LaidOut, FrameAt;
      ghost var s0, fn, xs := stack, stack[func], stack[func + 1..top];
      var newBase;
      ok, newBase := Arrange(func);
      if !ok { return; }
      LaidOutBounds(fn, xs, func, newBase, stack, top);
      var c := CallInfo(func, newBase, top, nresults, 0, 0);
      EnterFrame(s0, stack, top, ci, acts, savedpc, fn, xs, c);
      acts := Called(acts, stack[base..func], fn, xs);
      ci := ci[|ci| - 1 := ci[|ci| - 1].(savedpc := savedpc)] + [c];
      base := newBase;
      savedpc := 0;
    }

    // ----- Leaving a function -----

    /** Moves up to nresults results down to res, and says how many are still wanted. */
    method MoveResults(res0: nat, first0: nat, wanted: int) returns (res: nat, i: int)
      requires res0 <= first0 <= top <= |stack| && wanted >= MULTRET
      modifies this`stack
      ensures |stack| == |old(stack)| && stack[..res0] == old(stack)[..res0]
      ensures var n := if wanted == MULTRET || wanted > top - first0 then top - first0 else wanted;
              res == res0 + n && i == wanted - n && stack[res0..res] == old(stack)[first0..first0 + n]
    {
      ghost var s := stack;
      res := res0;
      var first := first0;
      i := wanted;
      while i != 0 && first < top
        invariant res0 <= res && first == first0 + (res - res0) <= top && |stack| == |s| && i == wanted - (res - res0)
        invariant wanted >= 0 ==> i >= 0
        invariant forall k :: 0 <= k < res0 ==> stack[k] == s[k]
        invariant forall k :: first <= k < top ==> stack[k] == s[k]
        invariant stack[res0..res] == s[first0..first]
        decreases top - first
      {
        ghost var t := stack;
        stack := stack[res := stack[first]];
        Pushed(t, res0, res, s[first]);
        OneMore(s, first0, first);
        res := res + 1;
        first := first + 1;
        i := i - 1;
      }
    }

    /** The results that are missing are nil. */
    method FillNils(res0: nat, i0: int) returns (res: nat)
      requires res0 <= |stack| && res0 + i0 <= |stack|
      modifies this`stack
      ensures |stack| == |old(stack)| && res == if i0 > 0 then res0 + i0 else res0
      ensures (forall k :: 0 <= k < res0 ==> stack[k] == old(stack)[k]) && forall k :: res0 <= k < res ==>
            stack[k] == Nil
    {
      ghost var s := stack;
      res := res0;
      var i := i0;
      while i > 0
        invariant |stack| == |s| && res0 <= res <= |stack|
        invariant if i0 > 0 then i >= 0 && res + i == res0 + i0 else res == res0 && i == i0
        invariant forall k :: 0 <= k < res0 ==> stack[k] == s[k]
        invariant forall k :: res0 <= k < res ==> stack[k] == Nil
      {
        stack := stack[res := Nil];
        res := res + 1;
        i := i - 1;
      }
    }

    /** luaD_poscall: the results go to the place of the function, and the caller goes on. */
    method PosCall(firstResult: nat) returns (fixed: bool)
      requires Valid() && 2 <= |ci| && base <= firstResult <= top
      modifies this
      ensures Valid() && acts == Returned(old(acts)) && ci == old(ci)[..|old(ci)| - 1]
      ensures savedpc == ci[|ci| - 1].savedpc
      ensures var rs, c := Wanted(old(stack)[firstResult..old(top)], old(ci)[|old(ci)| - 1].nresults),
            old(ci)[|old(ci)| - 1];
              && top == c.func + |rs| && stack[c.func..top] == rs
              && base <= c.func && stack[base..c.func] == old(acts)[|old(acts)| - 2].saved
              && |stack| == |old(stack)| && stack[..c.func] == old(stack)[..c.func]
      ensures fixed == (old(ci)[|old(ci)| - 1].nresults != MULTRET)
    {
      hide FrameAt, Above;
      ghost var s0, ci0, acts0, top0, rs := stack, ci, acts, top, stack[firstResult..top];
      var c := ci[|ci| - 1];
      FrameBounds(stack, ci, acts);
      FramesPopped(stack, ci, acts);
      ci := ci[..|ci| - 1];
      acts := Returned(acts);
      base := ci[|ci| - 1].base;
      savedpc := ci[|ci| - 1].savedpc;
      var res, i := MoveResults(c.func, firstResult, c.nresults);
      ghost var s1, res1 := stack, res;
      res := FillNils(res, i);
      top := res;
      fixed := c.nresults != MULTRET;
      WantedMoved(s1, stack, rs, c.func, res1, res, c.nresults);
      assert stack[..c.func] == s0[..c.func];
      Prefixes(s0, stack, c.func, base);
      FramesKept(s0, stack, ci, acts);
    }

    // ----- Calling -----

    /** A C function has been called and has left these values in its frame, the last of them
        its results. */
    method CallC(func: nat, nresults: int, left: seq<Value>, results: seq<Value>)
      requires Valid() && base <= func < top && stack[func].CFunction?
      requires nresults >= MULTRET && (nresults >= 0 ==> func + nresults <= ci[|ci| - 1].top)
      modifies this
      ensures Valid() && acts == old(acts) && savedpc == old(savedpc)
      ensures Back(old(stack), old(ci), old(savedpc), func, Wanted(results, nresults), stack, top, ci)
    {
      hide Frames, FrameAt, Wanted;
      ghost var s0, ci0, acts0 := stack, ci, acts;
      NonEmpty(stack, ci, acts);
      FrameBounds(stack, ci, acts);
      CheckStack(LUA_MINSTACK);
      SameSlice(s0, stack, |s0|, 0, func);
      var c := CallInfo(func, func + 1, top + LUA_MINSTACK, nresults, 0, 0);
      EnterC(s0, stack, ci, acts, savedpc, c);
      acts := Called(acts, stack[base..func], stack[func], []);
      ci := ci[|ci| - 1 := ci[|ci| - 1].(savedpc := savedpc)] + [c];
      base := func + 1;
      RunC(left, results);
      ghost var ci1, acts1 := ci, acts;
      var fixed := PosCall(top - |results|);
      ReturnedC(ci0, acts0, ci1, acts1, s0[ci0[|ci0| - 1].base..func], s0[func], c, savedpc);
    }

    /** What the C function does: it replaces the slots of its own frame. */
    method RunC(left: seq<Value>, results: seq<Value>)
      requires Valid()
      modifies this`stack, this`top
      ensures Valid() && |old(stack)| <= |stack| && stack[..base] == old(stack)[..base]
      ensures top == base + |left| + |results| && stack[top - |results|..top] == results
    {
      hide Frames;
      ghost var s := stack;
      var t := stack[..base] + left + results;
      if |t| < |stack| {
        t := t + stack[|t|..];
      }
      assert t[base + |left|..base + |left| + |results|] == results;
      assert t[..base] == stack[..base];
      FramesKept(stack, t, ci, acts);
      stack := t;
      top := base + |left| + |results|;
    }

    /** luaD_precall: left and results are what the function leaves if it is a C function. */
    method Precall(func: nat, nresults: int, left: seq<Value>, results: seq<Value>) returns (r: Pcr)
      requires Valid() && base <= func < top && (Callee(stack[func]).LuaFunction? ==> ProtoOk(Callee(stack[func]).p))
      requires nresults >= MULTRET && (nresults >= 0 ==> func + nresults <= ci[|ci| - 1].top)
      modifies this
      ensures r == NotCallable <==> !IsFunction(Callee(old(stack)[func]))
      ensures r == NotCallable ==> unchanged(this)
      ensures r == NoRoom ==> Callee(old(stack)[func]).LuaFunction?
      ensures r == NoRoom ==> Missing(Callee(old(stack)[func]).p, |Args(old(stack), func, old(top))|) > 1
      ensures old(stack)[func].LuaFunction? ==>
                (r == PcrLua <==> FrameFits(|old(stack)|, old(top), old(stack)[func].p, old(top) - func - 1))
      ensures r == PcrLua ==> Callee(old(stack)[func]).LuaFunction? && Valid() && savedpc == 0
      ensures r == PcrLua ==> Entered(old(stack), old(ci), old(acts), old(savedpc), func, nresults,
                                      Callee(old(stack)[func]), Args(old(stack), func, old(top)), stack, top, ci, acts)
      ensures r == PcrC ==> Valid() && acts == old(acts) && savedpc == old(savedpc)
      ensures r == PcrC ==> Back(old(stack), old(ci), old(savedpc), func, Wanted(results, nresults), stack, top, ci)
    {
      hide Frames, FrameAt, Wanted, AlwaysFits, FrameFits, ProtoOk, Grown, Extra, Padded, Entry;
      ghost var s0, top0 := stack, top;
      FrameBounds(stack, ci, acts);
      assert 1 <= func;
      if !IsFunction(stack[func]) {
        var ok := TryFuncTM(func);
        if !ok { return NotCallable; }
      }
      ghost var s1, top1 := stack, top;
      SameSlice(s0, s1, func, base, func);
      if stack[func].CFunction? {
        CallC(func, nresults, left, results);
        SameSlice(s1, stack, func, 0, func);
        return PcrC;
      }
      ghost var p := stack[func].p;
      if p.vararg && !p.needsArg { SureToFit(p, top - func - 1); }
      var ok := PrecallLua(func, nresults);
      if !ok {
        FitFails(|s1|, top1, p, top1 - func - 1);
        return NoRoom;
      }
      r := PcrLua;
    }

    // ----- Lua instructions -----

    /** OP_VARARG: b extra arguments, or all of them, from register a on. */
    method VarArg(a: nat, b: int)
      requires Valid() && b >= MULTRET && acts[|acts| - 1].fn.LuaFunction? && acts[|acts| - 1].fn.p.vararg
      requires base + a <= top && (b >= 0 ==> base + a + b <= |stack|)
      modifies this`stack, this`top
      ensures var w, ra := Wanted(acts[|acts| - 1].extra, b), base + a;
              && ra + |w| <= |stack| && stack[ra..ra + |w|] == w
              && |old(stack)| <= |stack| && stack[..ra] == old(stack)[..ra]
              && top == if b == MULTRET then ra + |w| else old(top)
      ensures Valid()
    {
      hide Frames, FrameAt, NilSlots, Padded, Wanted;
      NonEmpty(stack, ci, acts);
      ExtraBelow(stack, ci, acts);
      ghost var s0, e, ra := stack, acts[|acts| - 1].extra, base + a;
      var n := base - ci[|ci| - 1].func - stack[ci[|ci| - 1].func].p.numparams - 1;
      var wanted := b;
      if b == MULTRET {
        CheckStack(n);
        wanted := n;
        top := base + a + n;
      }
      ghost var s := stack;
      SameSlice(s0, s, |s0|, 0, ra);
      SameSlice(s0, s, |s0|, base - n, base);
      WantedIs(e, b, wanted);
      CopyExtra(base + a, wanted, n);
      SameSlice(s, stack, ra, 0, ra);
      SameSlice(s0, stack, ra, 0, base);
      FramesKept(s0, stack, ci, acts);
    }

    /** Copies the n values below base, or as many as are wanted, with nils after them. */
    method CopyExtra(ra: nat, wanted: nat, n: nat)
      requires n <= base <= ra && ra + wanted <= |stack|
      modifies this`stack
      ensures |stack| == |old(stack)| && stack[..ra] == old(stack)[..ra]
      ensures stack[ra..ra + wanted] == Padded(old(stack)[base - n..base], wanted)
    {
      ghost var s := stack;
      var j := 0;
      while j < wanted
        invariant 0 <= j <= wanted && |stack| == |s|
        invariant forall k :: 0 <= k < ra ==> stack[k] == s[k]
        invariant forall k :: ra <= k < ra + j ==> stack[k] == if k - ra < n then s[base - n + (k - ra)] else Nil
      {
        if j < n {
          stack := stack[ra + j := stack[base - n + j]];
        } else {
          stack := stack[ra + j := Nil];
        }
        j := j + 1;
      }
      ghost var e := s[base - n..base];
      forall k | 0 <= k < wanted ensures stack[ra..ra + wanted][k] == Padded(e, wanted)[k] {
        assert stack[ra + k] == if k < n then s[base - n + k] else Nil;
      }
    }

    /** OP_TAILCALL, with the function in register a and the arguments up to the top. A Lua
        function takes the frame of its caller, however often. */
    method TailCall(a: nat, left: seq<Value>, results: seq<Value>) returns (r: Pcr)
      requires Valid() && base + a < top
            && (Callee(stack[base + a]).LuaFunction? ==> ProtoOk(Callee(stack[base + a]).p))
      modifies this
      ensures r == NotCallable <==> !IsFunction(Callee(old(stack)[old(base) + a]))
      ensures r == NoRoom ==> Callee(old(stack)[old(base) + a]).LuaFunction?
                              && Missing(Callee(old(stack)[old(base) + a]).p,
                                    |Args(old(stack), old(base) + a, old(top))|) > 1
      ensures r == PcrLua ==> Callee(old(stack)[old(base) + a]).LuaFunction? && Valid()
      ensures r == PcrLua ==> var fn, xs, c := Callee(old(stack)[old(base) + a]),
            Args(old(stack), old(base) + a, old(top)), old(ci)[|old(ci)| - 1];
                && acts == Replaced(old(acts), fn, xs)
                && |ci| == |old(ci)| && ci[..|ci| - 1] == old(ci)[..|ci| - 1]
                && ci[|ci| - 1].func == c.func && ci[|ci| - 1].nresults == c.nresults
                      && ci[|ci| - 1].tailcalls == c.tailcalls + 1
                && |old(stack)| <= |stack| && stack[..c.func] == old(stack)[..c.func] && stack[c.func] == fn
                && top == ci[|ci| - 1].top && stack[base..top] == Entry(fn.p, xs)
      ensures r == PcrLua ==> savedpc == 0 == ci[|ci| - 1].savedpc
      ensures r == PcrC ==> Valid() && acts == old(acts) && savedpc == old(savedpc)
      ensures r == PcrC ==> Back(old(stack), old(ci), old(savedpc), old(base) + a, results, stack, top, ci)
    {
      hide Frames, FrameAt, Entry, ProtoOk, Padded, Entered, Back;
      ghost var s0, ci0, acts0, pc0, fn, xs := stack, ci, acts, savedpc, Callee(stack[base + a]),
            Args(stack, base + a, top);
      NonEmpty(stack, ci, acts);
      FrameBounds(stack, ci, acts);
      r := Precall(base + a, MULTRET, left, results);
      if r == PcrLua { TakeOver(s0, ci0, acts0, pc0, old(base) + a, fn, xs); }
    }

    /** The new frame takes the place of its caller's. */
    method TakeOver(ghost s0: seq<Value>, ghost ci0: seq<CallInfo>, ghost acts0: seq<Activation>, ghost pc0: int,
          ghost func: nat,
                    ghost fn: Value, ghost xs: seq<Value>)
      requires Valid() && Frames(s0, ci0, acts0) && 0 < |ci0| == |acts0| && func < |s0| && fn.LuaFunction?
            && ProtoOk(fn.p)
      requires ci0[|ci0| - 1].func < |s0| && Entered(s0, ci0, acts0, pc0, func, MULTRET, fn, xs, stack, top, ci, acts)
      modifies this
      ensures Valid() && acts == Replaced(acts0, fn, xs) && |ci| == |ci0| && ci[..|ci| - 1] == ci0[..|ci0| - 1]
      ensures savedpc == old(savedpc) == ci[|ci| - 1].savedpc
      ensures var c, d := ci0[|ci0| - 1], ci[|ci| - 1];
              && d.func == c.func && d.nresults == c.nresults && d.tailcalls == c.tailcalls + 1
              && |s0| <= |stack| && stack[..c.func] == s0[..c.func] && stack[c.func] == fn
              && top == d.top && stack[base..top] == Entry(fn.p, xs)
    {
      hide Frames, FrameAt, Entry, ProtoOk, Padded;
      FrameBounds(stack, ci, acts);
      FrameBounds(s0, ci0, acts0);
      var d, pfunc := ci[|ci| - 1], ci[|ci| - 1].func;
      var c := ci[|ci| - 2];
      ghost var s1 := stack;
      var aux := MoveDown(c.func, pfunc);
      top := c.func + aux;
      var moved := CallInfo(c.func, c.func + (d.base - pfunc), top, c.nresults, savedpc, c.tailcalls + 1);
      SameSlice(s0, s1, pfunc, 0, c.func);
      FrameMoved(s0, ci0, acts0, s1, ci, acts, stack, fn, xs, moved);
      ci := ci[..|ci| - 2] + [moved];
      acts := Replaced(acts0, fn, xs);
      base := moved.base;
    }

    /** Moves the values from pfunc to the top down to func. */
    method MoveDown(func: nat, pfunc: nat) returns (aux: nat)
      requires func <= pfunc <= top <= |stack|
      modifies this`stack
      ensures aux == top - pfunc && |stack| == |old(stack)|
      ensures stack[..func] == old(stack)[..func] && stack[func..func + aux] == old(stack)[pfunc..top]
    {
      ghost var s := stack;
      aux := 0;
      while pfunc + aux < top
        invariant 0 <= aux <= top - pfunc && |stack| == |s| && top == old(top)
        invariant forall k :: 0 <= k < func ==> stack[k] == s[k]
        invariant forall k :: pfunc + aux <= k < |s| ==> stack[k] == s[k]
        invariant forall k :: func <= k < func + aux ==> stack[k] == s[k - func + pfunc]
        decreases top - aux
      {
        stack := stack[func + aux := stack[pfunc + aux]];
        aux := aux + 1;
      }
    }

    /** OP_RETURN, with b results from register a on, or all up to the top. */
    method Return(a: nat, b: int) returns (fixed: bool)
      requires Valid() && 2 <= |ci| && b >= MULTRET
      requires base + a <= (if b == MULTRET then top else base + a + b) <= |stack|
      modifies this
      ensures Valid() && acts == Returned(old(acts)) && ci == old(ci)[..|old(ci)| - 1]
            && savedpc == ci[|ci| - 1].savedpc
      ensures var c, ra := old(ci)[|old(ci)| - 1], old(base) + a;
              var rs := Wanted(old(stack)[ra..if b == MULTRET then old(top) else ra + b], c.nresults);
              && c.func + |rs| <= |stack| && stack[c.func..c.func + |rs|] == rs
              && base <= c.func && stack[base..c.func] == old(acts)[|old(acts)| - 2].saved
              && stack[..c.func] == old(stack)[..c.func]
              && top == if c.nresults != MULTRET
                    && acts[|acts| - 1].fn.LuaFunction? then ci[|ci| - 1].top else c.func + |rs|
    {
      hide Frames, Wanted;
      if b != MULTRET { top := base + a + b; }
      fixed := PosCall(base + a);
      NonEmpty(stack, ci, acts);
      FrameBounds(stack, ci, acts);
      FunctionThere(stack, ci, acts);
      if stack[ci[|ci| - 1].func].LuaFunction? && fixed { top := ci[|ci| - 1].top; }
    }
  }

  lemma EnterFrame(s0: seq<Value>, s: seq<Value>, top: nat, ci: seq<CallInfo>, acts: seq<Activation>, pc: int,
        fn: Value,
                   xs: seq<Value>, c: CallInfo)
    requires Frames(s0, ci, acts) && c.func < |s0| <= |s| && s[..c.func + 1] == s0[..c.func + 1] && s0[c.func] == fn
    requires fn.LuaFunction? && ProtoOk(fn.p) && LaidOut(fn, xs, c.func, c.base, s, top) && c.top == top
          && c.nresults >= MULTRET
    requires ci[|ci| - 1].base <= c.func && (c.nresults >= 0 ==> c.func + c.nresults <= ci[|ci| - 1].top)
    ensures 0 < |ci| == |acts|
    ensures var n := |ci| - 1;
            && Frames(s, ci[n := ci[n].(savedpc := pc)] + [c], Called(acts, s[ci[n].base..c.func], fn, xs))
            && s[ci[n].base..c.func] == s0[ci[n].base..c.func]
            && s[..c.func] == s0[..c.func] && s[c.func] == fn
            && s[c.base..top] == Entry(fn.p, xs)
  {
    var n := |ci| - 1;
    Prefixes(s0, s, c.func + 1, ci[n].base);
    hide Frames, Entry, FrameAt;
    FramesKept(s0, s, ci, acts);
    NewFrame(s0, s, c.func, fn, ExtraOf(fn, xs), c);
    FramesPushed(s, ci, acts, pc, c, Activation(fn, ExtraOf(fn, xs), []));
    forall k | 0 <= k < c.func ensures s[k] == s0[k] { assert s[..c.func + 1][k] == s0[..c.func + 1][k]; }
  }

  /** The caller is back, with the results in the place of the function. */
  ghost predicate Back(s: seq<Value>, ci: seq<CallInfo>, pc: int, func: nat, rs: seq<Value>, s': seq<Value>, top': nat,
        ci': seq<CallInfo>)
    requires func < |s| && 0 < |ci|
  {
    && ci' == ci[|ci| - 1 := ci[|ci| - 1].(savedpc := pc)]
    && |s| <= |s'| && s'[..func] == s[..func]
    && top' == func + |rs| <= |s'| && s'[func..top'] == rs
  }

  lemma NonEmpty(s: seq<Value>, ci: seq<CallInfo>, acts: seq<Activation>)
    requires Frames(s, ci, acts)
    ensures 0 < |ci| == |acts| && acts[|acts| - 1].saved == []
  {
  }

  lemma EnterC(s0: seq<Value>, s: seq<Value>, ci: seq<CallInfo>, acts: seq<Activation>, pc: int, c: CallInfo)
    requires Frames(s0, ci, acts) && c.func < |s0| <= |s| && s[..|s0|] == s0 && s0[c.func].CFunction?
    requires c.base == c.func + 1 <= c.top <= |s| && c.nresults >= MULTRET
    requires ci[|ci| - 1].base <= c.func && (c.nresults >= 0 ==> c.func + c.nresults <= ci[|ci| - 1].top)
    ensures 0 < |ci| == |acts|
    ensures var n := |ci| - 1;
            && Frames(s, ci[n := ci[n].(savedpc := pc)] + [c], Called(acts, s[ci[n].base..c.func], s[c.func], []))
            && s[ci[n].base..c.func] == s0[ci[n].base..c.func] && s[c.func] == s0[c.func]
  {
    var n := |ci| - 1;
    SameSlice(s, s0, |s0|, ci[n].base, c.func);
    SameSlice(s, s0, |s0|, 0, ci[n].base);
    assert s[c.func] == s[..|s0|][c.func];
    FramesKept(s0, s, ci, acts);
    FramesPushed(s, ci, acts, pc, c, Activation(s[c.func], [], []));
  }

  lemma ReturnedC(ci0: seq<CallInfo>, acts0: seq<Activation>, ci1: seq<CallInfo>, acts1: seq<Activation>,
        kept: seq<Value>,
                  fn: Value, c: CallInfo, pc: int)
    requires 0 < |ci0| == |acts0| && acts0[|acts0| - 1].saved == [] && acts1 == Called(acts0, kept, fn, [])
    requires ci1 == ci0[|ci0| - 1 := ci0[|ci0| - 1].(savedpc := pc)] + [c]
    ensures Returned(acts1) == acts0 && ci1[..|ci1| - 1] == ci0[|ci0| - 1 := ci0[|ci0| - 1].(savedpc := pc)]
  {
  }

  lemma FitFails(size: nat, top: nat, p: Proto, actual: nat)
    requires !FrameFits(size, top, p, actual) && actual + 2 <= top <= size
    ensures p.vararg && !p.needsArg && Missing(p, actual) > 1
  {
    if p.vararg && !p.needsArg { SureToFit(p, actual); }
  }

  lemma WantedIs(rs: seq<Value>, nresults: int, n: nat)
    requires nresults >= MULTRET && n == if nresults == MULTRET then |rs| else nresults
    ensures Wanted(rs, nresults) == Padded(rs, n)
  {
  }

  lemma ExtraBelow(s: seq<Value>, ci: seq<CallInfo>, acts: seq<Activation>)
    requires Frames(s, ci, acts) && acts[|acts| - 1].fn.LuaFunction? && acts[|acts| - 1].fn.p.vararg
    ensures var c, a := ci[|ci| - 1], acts[|acts| - 1];
            && c.func < c.base <= |s| && s[c.func] == a.fn
            && |a.extra| == c.base - c.func - 1 - a.fn.p.numparams && s[c.base - |a.extra|..c.base] == a.extra
  {
    assert FrameAt(s, ci[|ci| - 1], acts[|acts| - 1]);
  }

  lemma FunctionThere(s: seq<Value>, ci: seq<CallInfo>, acts: seq<Activation>)
    requires Frames(s, ci, acts)
    ensures var c := ci[|ci| - 1]; c.func < |s| && s[c.func] == acts[|acts| - 1].fn
  {
    assert FrameAt(s, ci[|ci| - 1], acts[|acts| - 1]);
  }

  /** The frame on top is replaced. */
  lemma FramesReplaced(s: seq<Value>, t: seq<Value>, ci: seq<CallInfo>, acts: seq<Activation>, c: CallInfo,
        a: Activation)
    requires Frames(s, ci, acts) && |s| <= |t| && FrameAt(t, c, a) && a.saved == []
    requires c.func == ci[|ci| - 1].func <= |s| && c.nresults == ci[|ci| - 1].nresults && s[..c.func] == t[..c.func]
    ensures Frames(t, ci[..|ci| - 1] + [c], acts[..|ci| - 1] + [a])
  {
    var n := |ci| - 1;
    var di, bcts := ci[..n] + [c], acts[..n] + [a];
    forall k | 0 <= k < n ensures FrameAt(t, ci[k], acts[k]) {
      BasesRise(s, ci, acts, k, n);
      Prefixes(s, t, c.func, ci[k].base);
      FrameKept(s, t, ci[k], acts[k]);
    }
    forall k | 0 <= k < n ensures Above(t, di[k], bcts[k], di[k + 1]) {
      BasesRise(s, ci, acts, k + 1, n);
      assert FrameAt(s, ci[k + 1], acts[k + 1]);
      AboveKept(s, t, ci, acts, c.func, k);
    }
  }

  lemma Window(s: seq<Value>, i: nat, m: nat, j: nat, k: nat)
    requires i <= j <= k <= m <= |s|
    ensures s[i..m][j - i..k - i] == s[j..k]
  {
    forall x | 0 <= x < k - j ensures s[i..m][j - i..k - i][x] == s[j..k][x] {
      assert s[i..m][j - i + x] == s[j + x];
    }
  }

  lemma FrameShifted(s: seq<Value>, t: seq<Value>, c: CallInfo, a: Activation, d: CallInfo)
    requires FrameAt(s, c, a) && d.func <= c.func && |t| == |s| && d.nresults >= MULTRET
    requires d.base == c.base - (c.func - d.func) && d.top == c.top - (c.func - d.func)
    requires t[d.func..d.top] == s[c.func..c.top]
    ensures FrameAt(t, d, a) && t[d.base..d.top] == s[c.base..c.top]
  {
    hide ProtoOk, Entry, Padded, Extra;
    var u, n := t[d.func..d.top], |a.extra|;
    assert t[d.func] == u[0] && s[c.func] == u[0];
    Window(t, d.func, d.top, d.base - n, d.base);
    Window(s, c.func, c.top, c.base - n, c.base);
    assert t[d.base - n..d.base] == a.extra;
    Window(t, d.func, d.top, d.base, d.top);
    Window(s, c.func, c.top, c.base, c.top);
  }

  /** The frame of a tail call, moved down onto that of the caller. */
  lemma FrameMoved(s0: seq<Value>, ci0: seq<CallInfo>, acts0: seq<Activation>, s1: seq<Value>, ci1: seq<CallInfo>,
        acts1: seq<Activation>,
                   t: seq<Value>, fn: Value, xs: seq<Value>, d: CallInfo)
    requires Frames(s0, ci0, acts0) && Frames(s1, ci1, acts1) && fn.LuaFunction? && ProtoOk(fn.p)
    requires |ci1| == |ci0| + 1 && acts1[|acts1| - 1] == Activation(fn, ExtraOf(fn, xs), [])
    requires var c, e := ci0[|ci0| - 1], ci1[|ci1| - 1];
             && c.func <= e.func < e.base <= e.top <= |s1| == |t| && |s0| <= |s1| && s0[..c.func] == s1[..c.func]
             && d.func == c.func <= |s0| && d.nresults == c.nresults
             && d.base == e.base - (e.func - d.func) && d.top == e.top - (e.func - d.func)
             && t[..c.func] == s1[..c.func] && t[d.func..d.top] == s1[e.func..e.top]
             && s1[e.base..e.top] == Entry(fn.p, xs)
    ensures Frames(t, ci0[..|ci0| - 1] + [d], Replaced(acts0, fn, xs))
    ensures d.func < d.base <= d.top <= |t| && t[d.base..d.top] == Entry(fn.p, xs) && t[d.func] == fn
          && t[..d.func] == s0[..d.func]
  {
    hide Entry;
    var c, e := ci0[|ci0| - 1], ci1[|ci1| - 1];
    var a := Activation(fn, ExtraOf(fn, xs), []);
    assert FrameAt(s1, e, acts1[|acts1| - 1]) && FrameAt(s0, c, acts0[|acts0| - 1]);
    FrameShifted(s1, t, e, a, d);
    FramesReplaced(s0, t, ci0, acts0, d, a);
    assert Replaced(acts0, fn, xs) == acts0[..|ci0| - 1] + [a];
  }

  // --- Whole runs --------------------------------------------------------------------------

  datatype Op = OpCall(kept: seq<Value>, fn: Value, xs: seq<Value>) | OpTail(fn: Value, xs: seq<Value>) | OpReturn

  /** One call, tail call or return; the first activation does not return. */
  function Step(acts: seq<Activation>, op: Op): (next: seq<Activation>)
    requires acts != []
    ensures next != []
  {
    match op
    case OpCall(kept, fn, xs) => Called(acts, kept, fn, xs)
    case OpTail(fn, xs) => Replaced(acts, fn, xs)
    case OpReturn => if 2 <= |acts| then Returned(acts) else acts
  }

  function Run(acts: seq<Activation>, ops: seq<Op>): (last: seq<Activation>)
    requires acts != []
    ensures last != []
    decreases |ops|
  {
    if ops == [] then acts else Run(Step(acts, ops[0]), ops[1..])
  }

  /** All through the run, activation d waits for a call to return. */
  predicate Waits(acts: seq<Activation>, ops: seq<Op>, d: nat)
    decreases |ops|
  {
    d + 2 <= |acts| && (ops != [] ==> Waits(Step(acts, ops[0]), ops[1..], d))
  }

  /** Whatever is called, tail called or returned from above them, activations that wait keep
      their functions, their extra arguments and their registers. */
  lemma {:induction false} RunKeeps(acts: seq<Activation>, ops: seq<Op>, d: nat)
    requires Waits(acts, ops, d)
    ensures d + 2 <= |Run(acts, ops)| && Run(acts, ops)[..d + 1] == acts[..d + 1]
    decreases |ops|
  {
    if ops != [] {
      RunKeeps(Step(acts, ops[0]), ops[1..], d);
      assert Step(acts, ops[0])[..d + 1] == acts[..d + 1];
    }
  }

  /** Tail calls, however many, add no activation. */
  lemma {:induction false} TailCallsStay(acts: seq<Activation>, ops: seq<Op>)
    requires acts != [] && forall i :: 0 <= i < |ops| ==> ops[i].OpTail?
    ensures |Run(acts, ops)| == |acts| && Run(acts, ops)[..|acts| - 1] == acts[..|acts| - 1]
    decreases |ops|
  {
    if ops != [] {
      assert ops[0].OpTail?;
      TailCallsStay(Step(acts, ops[0]), ops[1..]);
    }
  }

  // --- A frame that does not fit -----------------------------------------------------------

  /** A new thread has room for 39 values below stack_last. Two arguments are missing, and the
      frame of the vararg function called would end one slot past stack_last. The code does not
      stop there: it goes on in the slots kept in reserve, which are enough here but not for
      more than seven missing arguments (SureInBlock). */
  method TwoMissing() returns (ok: bool)
    ensures !ok
  {
    var L := new LuaState(39);
    L.SetSlot(1, LuaFunction(Proto(2, true, false, 36), 0));
    L.SetTop(2);
    ok := L.PrecallLua(1, 0);
  }
}
