/** Local variables given the values of expressions, one statement after the other. */
module CodeGenLocals {
  import opened LuaMachine
  import opened CodeGen
  import opened CodeGenExec
  import opened CodeGenProof
  import opened CodeGenClose
  import opened CodeGenOps
  import opened CodeGenJoin
  import opened CodeGenCorrect

  /** An expression compiled into the next register. */
  function NextReg(fs: Fun, x: Expr): (r: Fun)
    ensures fs.ks <= r.ks
  {
    var (g, e) := Compile(fs, x);
    Exp2NextReg(g, e).0
  }

  /** Expressions compiled into the next registers. */
  function NextRegs(fs: Fun, xs: seq<Expr>): (r: Fun)
    ensures fs.ks <= r.ks
    decreases |xs|
  {
    if xs == [] then fs else NextRegs(NextReg(fs, xs[0]), xs[1..])
  }

  lemma {:induction false} NextRegsMore(fs: Fun, xs: seq<Expr>, x: Expr)
    ensures NextRegs(fs, xs + [x]) == NextReg(NextRegs(fs, xs), x)
    decreases |xs|
  {
    hide NextReg;
    if xs == [] {
      assert (xs + [x])[1..] == [];
    } else {
      assert (xs + [x])[1..] == xs[1..] + [x];
      NextRegsMore(NextReg(fs, xs[0]), xs[1..], x);
    }
  }

  ghost predicate AllScoped(xs: seq<Expr>, n: int) {
    forall x :: x in xs ==> Scoped(x, n)
  }

  lemma NextRegOk(f0: Fun, x: Expr)
    requires CodeOk(f0) && Scoped(x, f0.nactvar)
    ensures var g := NextReg(f0, x); CodeOk(g) && Grown(f0, g) && g.freereg == f0.freereg + 1
  {
    hide Exp2NextReg, Compile, Grown, CodeOk;
    CompileOk(f0, x);
    var (g, e) := Compile(f0, x);
    Exp2NextRegOk(f0, g, e);
    InNextReg(f0, Exp2NextReg(g, e).0);
  }

  lemma InNextReg(f0: Fun, g: Fun)
    requires Inv(f0, g, Exp(VNonReloc(f0.freereg), [], []))
    ensures CodeOk(g) && Grown(f0, g) && g.freereg == f0.freereg + 1
  {
  }

  lemma {:induction false} NextRegsOk(f0: Fun, xs: seq<Expr>)
    requires CodeOk(f0) && AllScoped(xs, f0.nactvar)
    ensures var g := NextRegs(f0, xs); CodeOk(g) && Grown(f0, g) && g.freereg == f0.freereg + |xs|
    decreases |xs|
  {
    hide NextReg, CodeOk, OldAt;
    if xs == [] {
      Unchanged(f0);
    } else {
      var f1 := NextReg(f0, xs[0]);
      NextRegOk(f0, xs[0]);
      assert f1.nactvar == f0.nactvar;
      NextRegsOk(f1, xs[1..]);
      GrownTrans(f0, f1, NextRegs(f0, xs));
    }
  }

  lemma Unchanged(fs: Fun)
    requires CodeOk(fs)
    ensures Grown(fs, fs)
  {
  }

  /** The code that follows in h leaves alone what the code of f1 leaves in the registers up to
      its own: the first part runs as it did, and the rest goes on. */
  lemma ThenRuns(f0: Fun, f1: Fun, h: Fun, m: Machine, regs: Regs) returns (p: Regs)
    requires CodeOk(f0) && CodeOk(f1) && CodeOk(h) && Grown(f0, f1) && Grown(f1, h) && Entry(f0, h.code, regs)
    requires Exec(f1.code, m, |f0.code|, regs).pc == |f1.code|
    ensures Exec(h.code, m, |f0.code|, regs) == Exec(h.code, m, |f1.code|, p) && Entry(f1, h.code, p)
    ensures Same(f1.freereg, Exec(f1.code, m, |f0.code|, regs).regs, p)
  {
    hide CodeOk, Grown, Entry;
    OldExec(f0, f1, h, m, regs);
    assert h.code[..|h.code|] == h.code;
    GrownLonger(f1, h);
    JoinExec(f0, f1, h, h.code, m, regs);
    p := Exec(h.code[..|f1.code|], m, |f0.code|, regs).regs;
  }

  lemma GrownLonger(f1: Fun, h: Fun)
    requires Grown(f1, h)
    ensures |f1.code| <= |h.code| && f1.ks <= h.ks
  {
  }

  /** A list of expressions compiled one after the other: run from where the first one starts,
      the code ends with the value of each in its register. */
  lemma {:induction false} ListCorrect(f0: Fun, xs: seq<Expr>, m: Machine, regs: Regs)
    requires CodeOk(f0) && AllScoped(xs, f0.nactvar)
    requires var h := NextRegs(f0, xs); h.ks <= m.ks && Entry(f0, h.code, regs)
    ensures var h := NextRegs(f0, xs);
            var o := Exec(h.code, m, |f0.code|, regs);
            && o.pc == |h.code| && Same(f0.freereg, regs, o.regs)
            && forall i :: 0 <= i < |xs| ==> Get(o.regs, f0.freereg + i) == Eval(xs[i], m, regs)
    decreases |xs|
  {
    hide Exec, CodeOk, Grown, Entry, NextReg;
    var f1, h := f0, NextRegs(f0, xs);
    if xs == [] {
      AtEnd(h.code, m, regs);
    } else {
      f1 := NextReg(f0, xs[0]);
      NextRegOk(f0, xs[0]);
      SameLocals(f0, f1);
      NextRegsOk(f1, xs[1..]);
      FirstRuns(f0, xs[0], h, m, regs);
      var p := ThenRuns(f0, f1, h, m, regs);
      ListCorrect(f1, xs[1..], m, p);
      var o := Exec(h.code, m, |f0.code|, regs);
      forall i | 0 <= i < |xs| ensures Get(o.regs, f0.freereg + i) == Eval(xs[i], m, regs) {
        if i > 0 {
          assert xs[1..][i - 1] == xs[i] && Get(o.regs, f1.freereg + (i - 1)) == Eval(xs[i], m, p);
          EvalSame(xs[i], f0.nactvar, m, regs, p);
        }
      }
    }
  }

  lemma AtEnd(c: Code, m: Machine, regs: Regs)
    ensures Exec(c, m, |c|, regs) == Outcome(|c|, regs)
  {
  }

  lemma SameLocals(f0: Fun, f1: Fun)
    requires CodeOk(f0) && Grown(f0, f1)
    ensures 0 <= f1.nactvar == f0.nactvar <= f0.freereg
  {
  }

  lemma FirstRuns(f0: Fun, x: Expr, h: Fun, m: Machine, regs: Regs)
    requires CodeOk(f0) && Scoped(x, f0.nactvar)
    requires Grown(NextReg(f0, x), h) && h.ks <= m.ks && Entry(f0, h.code, regs)
    ensures var f1 := NextReg(f0, x);
            var o := Exec(f1.code, m, |f0.code|, regs);
            o.pc == |f1.code| && Get(o.regs, f0.freereg) == Eval(x, m, regs) && Same(f0.freereg, regs, o.regs)
  {
    hide Exec, CodeOk, Entry;
    NextRegOk(f0, x);
    EntryFirst(f0, NextReg(f0, x), h, regs);
    hide Grown;
    ExpressionCorrect(f0, x, m, regs);
  }

  // ----- Statements -----

  /** The registers of a statement's values become locals. */
  function Activate(fs: Fun): Fun {
    fs.(nactvar := fs.freereg)
  }

  /** Local statements; each gives as many variables the values of as many expressions. */
  function Locals(fs: Fun, stats: seq<seq<Expr>>): (r: Fun)
    ensures fs.ks <= r.ks
    decreases |stats|
  {
    if stats == [] then fs else Locals(Activate(NextRegs(fs, stats[0])), stats[1..])
  }

  lemma {:induction false} LocalsMore(fs: Fun, stats: seq<seq<Expr>>, xs: seq<Expr>)
    ensures Locals(fs, stats + [xs]) == Activate(NextRegs(Locals(fs, stats), xs))
    decreases |stats|
  {
    hide NextRegs;
    if stats == [] {
      assert (stats + [xs])[1..] == [];
    } else {
      assert (stats + [xs])[1..] == stats[1..] + [xs];
      LocalsMore(Activate(NextRegs(fs, stats[0])), stats[1..], xs);
    }
  }

  /** Each statement sees the locals of those before it. */
  ghost predicate StatsScoped(stats: seq<seq<Expr>>, n: nat)
    decreases |stats|
  {
    stats == [] || (AllScoped(stats[0], n) && StatsScoped(stats[1..], n + |stats[0]|))
  }

  /** Registers from n on have got these values. */
  function Bind(regs: Regs, n: int, vs: seq<Value>): (r: Regs)
    ensures forall i :: Get(r, i) == if n <= i < n + |vs| then vs[i - n] else Get(regs, i)
  {
    map i | i in regs.Keys + (set j | n <= j < n + |vs| && InRange(j, n, |vs|)) ::
      if n <= i < n + |vs| then vs[i - n] else regs[i]
  }

  predicate InRange(j: int, n: int, k: nat) {
    n <= j < n + k
  }

  /** What the statements do to the registers: all values of one are computed before its
      variables get them. */
  function After(stats: seq<seq<Expr>>, m: Machine, regs: Regs, n: nat): Regs
    decreases |stats|
  {
    if stats == [] then regs
    else
      var vs := seq(|stats[0]|, i requires 0 <= i < |stats[0]| => Eval(stats[0][i], m, regs));
      After(stats[1..], m, Bind(regs, n, vs), n + |stats[0]|)
  }

  /** How many variables the statements declare. */
  function Declared(stats: seq<seq<Expr>>): nat
    decreases |stats|
  {
    if stats == [] then 0 else |stats[0]| + Declared(stats[1..])
  }

  lemma {:induction false} StatsFirst(stats: seq<seq<Expr>>, n: nat, k: nat)
    requires StatsScoped(stats, n) && k < |stats|
    ensures StatsScoped(stats[..k], n) && AllScoped(stats[k], n + Declared(stats[..k]))
    decreases k
  {
    if k > 0 {
      StatsFirst(stats[1..], n + |stats[0]|, k - 1);
      assert stats[..k][1..] == stats[1..][..k - 1];
    }
  }

  lemma {:induction false} DeclaredMore(stats: seq<seq<Expr>>, xs: seq<Expr>)
    ensures Declared(stats + [xs]) == Declared(stats) + |xs|
    decreases |stats|
  {
    if stats == [] {
      assert (stats + [xs])[1..] == [];
    } else {
      assert (stats + [xs])[1..] == stats[1..] + [xs];
      DeclaredMore(stats[1..], xs);
    }
  }

  lemma {:induction false} LocalsOk(f0: Fun, stats: seq<seq<Expr>>)
    requires CodeOk(f0) && f0.freereg == f0.nactvar && StatsScoped(stats, f0.nactvar)
    ensures var h := Locals(f0, stats);
            CodeOk(h) && h.freereg == h.nactvar == f0.nactvar + Declared(stats) && Grown(f0, h.(nactvar := f0.nactvar))
    decreases |stats|
  {
    hide OldAt, NextRegs, AllScoped;
    if stats == [] {
      Unchanged(f0);
    } else {
      var f1 := NextRegs(f0, stats[0]);
      NextRegsOk(f0, stats[0]);
      Activated(f1);
      LocalsOk(Activate(f1), stats[1..]);
      LocalsGrown(f0, f1, Locals(f0, stats));
    }
  }

  lemma Activated(fs: Fun)
    requires CodeOk(fs)
    ensures CodeOk(Activate(fs))
  {
  }

  lemma LocalsGrown(f0: Fun, f1: Fun, h: Fun)
    requires CodeOk(f0) && CodeOk(f1) && CodeOk(h) && Grown(f0, f1) && f0.freereg <= f1.freereg <= h.freereg
    requires Grown(Activate(f1), h.(nactvar := f1.freereg))
    ensures var k := h.(nactvar := f0.nactvar); CodeOk(k) && Grown(f1, k) && Grown(f0, k)
  {
    var k := h.(nactvar := f0.nactvar);
    assert Grown(f1, k) by {
      forall i | 0 <= i < |f1.code| ensures OldAt(f1, k, i) {
        assert OldAt(Activate(f1), h.(nactvar := f1.freereg), i);
      }
    }
    GrownTrans(f0, f1, k);
  }

  lemma {:induction false} AfterSame(stats: seq<seq<Expr>>, m: Machine, r0: Regs, r1: Regs, n: nat)
    requires StatsScoped(stats, n) && Same(n, r0, r1)
    ensures Same(n + Declared(stats), After(stats, m, r0, n), After(stats, m, r1, n))
    decreases |stats|
  {
    if stats != [] {
      var xs := stats[0];
      var vs0 := seq(|xs|, i requires 0 <= i < |xs| => Eval(xs[i], m, r0));
      var vs1 := seq(|xs|, i requires 0 <= i < |xs| => Eval(xs[i], m, r1));
      forall i | 0 <= i < |xs| ensures vs0[i] == vs1[i] { EvalSame(xs[i], n, m, r0, r1); }
      assert vs0 == vs1;
      AfterSame(stats[1..], m, Bind(r0, n, vs0), Bind(r1, n, vs1), n + |xs|);
    }
  }

  /** Local statements, compiled one after the other, do what they mean: run from where the
      first starts, the code comes out at its end with every variable given its value. */
  lemma {:induction false} LocalsCorrect(f0: Fun, stats: seq<seq<Expr>>, m: Machine, regs: Regs)
    requires CodeOk(f0) && f0.freereg == f0.nactvar && StatsScoped(stats, f0.nactvar)
    requires var h := Locals(f0, stats); h.ks <= m.ks && Entry(f0, h.code, regs)
    ensures var h := Locals(f0, stats);
            var o := Exec(h.code, m, |f0.code|, regs);
            o.pc == |h.code| && Same(h.nactvar, After(stats, m, regs, f0.nactvar), o.regs)
    decreases |stats|
  {
    hide Exec, CodeOk, Grown, Entry, NextRegs, AllScoped;
    var h := Locals(f0, stats);
    LocalsOk(f0, stats);
    NotNegative(f0);
    if stats == [] {
      AtEnd(h.code, m, regs);
    } else {
      var xs, f1 := stats[0], NextRegs(f0, stats[0]);
      var k := h.(nactvar := f0.nactvar);
      NextRegsOk(f0, xs);
      Activated(f1);
      LocalsOk(Activate(f1), stats[1..]);
      LocalsGrown(f0, f1, h);
      EntryFirst(f0, f1, k, regs);
      ListCorrect(f0, xs, m, regs);
      var p := ThenRuns(f0, f1, k, m, regs);
      EntryActivated(f1, h.code, p);
      LocalsCorrect(Activate(f1), stats[1..], m, p);
      var vs := seq(|xs|, i requires 0 <= i < |xs| => Eval(xs[i], m, regs));
      ListBound(f0, f1, xs, m, regs, vs, Exec(f1.code, m, |f0.code|, regs).regs, p);
      AfterSame(stats[1..], m, Bind(regs, f0.nactvar, vs), p, f1.freereg);
    }
  }

  lemma NotNegative(fs: Fun)
    requires CodeOk(fs)
    ensures 0 <= fs.nactvar <= fs.freereg
  {
  }

  lemma EntryActivated(fs: Fun, c: Code, regs: Regs)
    requires CodeOk(fs) && Entry(fs, c, regs)
    ensures Entry(Activate(fs), c, regs)
  {
  }

  lemma ListBound(f0: Fun, f1: Fun, xs: seq<Expr>, m: Machine, regs: Regs, vs: seq<Value>, q: Regs, p: Regs)
    requires |vs| == |xs| && f1.freereg == f0.freereg + |xs| && 0 <= f0.freereg
    requires forall i :: 0 <= i < |xs| ==> vs[i] == Eval(xs[i], m, regs) == Get(q, f0.freereg + i)
    requires Same(f0.freereg, regs, q) && Same(f1.freereg, q, p)
    ensures Same(f1.freereg, Bind(regs, f0.freereg, vs), p)
  {
    forall r | f0.freereg <= r < f1.freereg ensures Get(p, r) == vs[r - f0.freereg] {
      assert Get(q, f0.freereg + (r - f0.freereg)) == vs[r - f0.freereg];
    }
  }
}
