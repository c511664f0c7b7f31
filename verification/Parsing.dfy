/** The expression parser, which generates the code of an expression while it reads the
    tokens (src/c/lua/lparser.c). */
module Parsing {
  import opened LuaMachine
  import opened CodeGen
  import opened CodeGenExec
  import opened CodeGenProof
  import opened CodeGenCorrect
  import opened CodeGenLocals
  import opened StoredCode
  import opened JumpLists
  import opened FuncStates
  import G = Grammar

  /** Tokens whose code is modelled: no arithmetic, length or concatenation. */
  predicate PlainToken(t: G.Token, n: int) {
    && !t.LenTok? && (t.Op? ==> t.b.Logic?)
    && (t.Atom? ==> Scoped(t.x, n))
  }

  predicate Plain(ts: seq<G.Token>, n: int) {
    forall i :: 0 <= i < |ts| ==> PlainToken(ts[i], n)
  }

  predicate Compilable(t: G.Tree) {
    match t
    case Simple(_) => true
    case Paren(s) => Compilable(s)
    case Unary(u, s) => u.Negation? && Compilable(s)
    case Binary(b, l, r) => b.Logic? && Compilable(l) && Compilable(r)
  }

  /** The expression of a tree. */
  function Lower(t: G.Tree): Expr
    requires Compilable(t)
  {
    match t
    case Simple(x) => x
    case Paren(s) => EParen(Lower(s))
    case Unary(_, s) => ENot(Lower(s))
    case Binary(b, l, r) => EBin(b.op, Lower(l), Lower(r))
  }

  lemma {:induction false} PlainTree(t: G.Tree, n: int)
    requires Plain(G.Yield(t), n)
    ensures Compilable(t) && Scoped(Lower(t), n)
    decreases t
  {
    var y := G.Yield(t);
    match t
    case Simple(x) =>
      assert y[0] == G.Atom(x);
    case Paren(s) =>
      PlainPart(y, [G.LPar], G.Yield(s), [G.RPar], n);
      PlainTree(s, n);
    case Unary(u, s) =>
      PlainPart(y, [y[0]], G.Yield(s), [], n);
      assert PlainToken(y[0], n);
      PlainTree(s, n);
    case Binary(b, l, r) =>
      PlainPart(y, [], G.Yield(l), [G.Op(b)] + G.Yield(r), n);
      PlainPart(y, G.Yield(l) + [G.Op(b)], G.Yield(r), [], n);
      assert y[|G.Yield(l)|] == G.Op(b);
      PlainTree(l, n);
      PlainTree(r, n);
  }

  lemma PlainPart(all: seq<G.Token>, a: seq<G.Token>, b: seq<G.Token>, c: seq<G.Token>, n: int)
    requires all == a + b + c && Plain(all, n)
    ensures Plain(b, n) && Plain(c, n)
  {
    forall i | 0 <= i < |b| ensures PlainToken(b[i], n) { assert b[i] == all[|a| + i]; }
    forall i | 0 <= i < |c| ensures PlainToken(c[i], n) { assert c[i] == all[|a| + |b| + i]; }
  }

  /** What was read and what is left are plain. */
  lemma PlainParsed(ts: seq<G.Token>, limit: nat, depth: int, n: int)
    requires Plain(ts, n)
    ensures var p := G.SubExpr(ts, limit, depth);
            p.Ok? ==> Compilable(p.t) && Scoped(Lower(p.t), n) && Plain(p.rest, n)
  {
    G.ParsedWell(ts, limit, depth);
    var p := G.SubExpr(ts, limit, depth);
    if p.Ok? {
      assert ts == [] + G.Yield(p.t) + p.rest;
      PlainPart(ts, [], G.Yield(p.t), p.rest, n);
      PlainTree(p.t, n);
    }
  }

  lemma PlainTail(ts: seq<G.Token>, n: int)
    requires Plain(ts, n) && ts != []
    ensures Plain(ts[1..], n)
  {
    PlainPart(ts, [ts[0]], ts[1..], [], n);
  }

  /** Whatever the second operand is, what posfix makes of it and x is the code of the whole. */
  ghost predicate Continues(f0: Fun, op: BinOp, l: Expr, f1: Fun, x: Exp) {
    forall r: Expr :: var (f3, e2) := Compile(f1, r); Posfix(f3, op, x, e2) == Compile(f0, EBin(op, l, r))
  }

  lemma Continued(f0: Fun, op: BinOp, l: Expr, f1: Fun, x: Exp, r: Expr)
    requires Continues(f0, op, l, f1, x)
    ensures var (f3, e2) := Compile(f1, r); Posfix(f3, op, x, e2) == Compile(f0, EBin(op, l, r))
  {
  }

  lemma KeptThen(f0: Fun, c: RawCode, d: RawCode, e: RawCode)
    requires Kept(f0, c, d) && Kept(f0, d, e)
    ensures Kept(f0, c, e)
  {
  }

  class Parser {
    const fs: FuncState
    var ts: seq<G.Token>
    var nCcalls: int

    constructor (fs: FuncState, ts: seq<G.Token>, nCcalls: int)
      ensures this.fs == fs && this.ts == ts && this.nCcalls == nCcalls
    {
      this.fs, this.ts, this.nCcalls := fs, ts, nCcalls;
    }

    /** The code of tree t has been generated after f0, its value described by e. */
    ghost predicate Produced(e: ExpDesc, t: G.Tree, f0: Fun, c0: RawCode)
      reads fs, e
    {
      && Compilable(t) && Scoped(Lower(t), fs.nactvar)
      && fs.InOrder(f0, e) && Kept(f0, c0, fs.code) && (fs.fun, e.exp) == Compile(f0, Lower(t))
    }

    /** A parse went as it should. */
    ghost predicate Went(p: G.Parsed, why: G.Maybe<G.Complaint>, e: ExpDesc, n: int, f0: Fun, c0: RawCode)
      reads this, fs, e
    {
      match p
      case Ok(t, rest) => why == G.None && ts == rest && nCcalls == n && Produced(e, t, f0, c0) && Plain(ts, fs.nactvar)
      case Err(w) => why == G.Some(w)
    }

    ghost predicate Ready()
      reads this, fs
    {
      fs.Valid() && CodeOk(fs.fun) && Plain(ts, fs.nactvar)
    }

    method SubExpr(limit: nat) returns (why: G.Maybe<G.Complaint>, e: ExpDesc)
      requires Ready()
      modifies this, fs
      ensures fresh(e) && Went(G.SubExpr(old(ts), limit, old(nCcalls)), why, e, old(nCcalls), old(fs.fun), old(fs.code))
      decreases |ts|, 2
    {
      hide G.SimpleExp, G.Expand, Produced, Plain;
      ghost var f0, c0, n0, all := fs.fun, fs.code, nCcalls, ts;
      nCcalls := nCcalls + 1;
      if nCcalls > G.MAX_LEVELS {
        e := new ExpDesc(VNil);
        return G.Some(G.TooManyLevels), e;
      }
      ghost var t: G.Tree;
      if G.GetUnOpr(G.First(ts)).Some? {
        why, e, t := UnaryExp();
      } else {
        why, e, t := SimpleExp();
      }
      if why.None? {
        why := Expand(e, t, limit, f0, c0);
        nCcalls := nCcalls - 1;
      }
    }

    /** A unary operator and its operand. */
    method UnaryExp() returns (why: G.Maybe<G.Complaint>, e: ExpDesc, ghost t: G.Tree)
      requires Ready() && G.GetUnOpr(G.First(ts)).Some?
      modifies this, fs
      ensures fresh(e)
      ensures var q := G.SubExpr(old(ts)[1..], G.UNARY_PRIORITY, old(nCcalls));
              && (q.Ok? ==> t == G.Unary(G.GetUnOpr(G.First(old(ts))).v, q.t))
              && Went(if q.Ok? then G.Ok(t, q.rest) else q, why, e, old(nCcalls), old(fs.fun), old(fs.code))
      decreases |ts|, 1
    {
      hide G.SubExpr;
      ghost var f0, c0, u := fs.fun, fs.code, G.GetUnOpr(G.First(ts)).v;
      assert PlainToken(ts[0], fs.nactvar);
      PlainTail(ts, fs.nactvar);
      ghost var q := G.SubExpr(ts[1..], G.UNARY_PRIORITY, nCcalls);
      ts := ts[1..];
      t := G.Unary(u, if q.Ok? then q.t else G.Simple(ENil));
      why, e := SubExpr(G.UNARY_PRIORITY);
      if why.None? { Negate(e, q.t, f0, c0); }
    }

    method Negate(e: ExpDesc, ghost t: G.Tree, ghost f0: Fun, ghost c0: RawCode)
      requires Produced(e, t, f0, c0)
      modifies fs, e
      ensures Produced(e, G.Unary(G.Negation, t), f0, c0)
    {
      fs.NegateExp(e, f0);
    }

    method SimpleExp() returns (why: G.Maybe<G.Complaint>, e: ExpDesc, ghost t: G.Tree)
      requires Ready()
      modifies this, fs
      ensures fresh(e)
      ensures var q := G.SimpleExp(old(ts), old(nCcalls) - 1);
              (q.Ok? ==> t == q.t) && Went(q, why, e, old(nCcalls), old(fs.fun), old(fs.code))
      decreases |ts|, 1
    {
      hide G.SubExpr;
      ghost var f0, q := fs.fun, G.SimpleExp(ts, nCcalls - 1);
      t := if q.Ok? then q.t else G.Simple(ENil);
      match G.First(ts)
      case Atom(x) =>
        assert PlainToken(ts[0], fs.nactvar);
        PlainTail(ts, fs.nactvar);
        ts := ts[1..];
        CompileOk(f0, x);
        e := fs.CompileExpr(x);
        why := if G.IsPrefix(G.Simple(x)) && G.Suffixed(ts) then G.Some(G.NotModelled) else G.None;
      case LPar =>
        why, e := ParenExp();
      case _ =>
        e := new ExpDesc(VNil);
        why := G.Some(G.UnexpectedSymbol);
    }

    /** An expression in parentheses. */
    method ParenExp() returns (why: G.Maybe<G.Complaint>, e: ExpDesc)
      requires Ready() && G.First(ts).LPar?
      modifies this, fs
      ensures fresh(e)
      ensures Went(G.SimpleExp(old(ts), old(nCcalls) - 1), why, e, old(nCcalls), old(fs.fun), old(fs.code))
      decreases |ts|, 0
    {
      hide G.SubExpr;
      ghost var f0 := fs.fun;
      PlainTail(ts, fs.nactvar);
      ts := ts[1..];
      why, e := SubExpr(0);
      if why.Some? { return; }
      why := CloseParen(e, G.SubExpr(old(ts)[1..], 0, nCcalls).t, f0, old(fs.code));
    }

    method CloseParen(e: ExpDesc, ghost t: G.Tree, ghost f0: Fun, ghost c0: RawCode) returns (why: G.Maybe<G.Complaint>)
      requires Produced(e, t, f0, c0) && Plain(ts, fs.nactvar)
      modifies this, fs, e
      ensures Went(if G.First(old(ts)) != G.RPar then G.Err(G.MissingParenthesis) else G.Primary(G.Paren(t),
            old(ts)[1..]),
                   why, e, old(nCcalls), f0, c0)
    {
      hide Produced;
      if G.First(ts) != G.RPar { return G.Some(G.MissingParenthesis); }
      PlainTail(ts, fs.nactvar);
      ts := ts[1..];
      Discharge(e, t, f0, c0);
      why := if G.Suffixed(ts) then G.Some(G.NotModelled) else G.None;
    }

    method Discharge(e: ExpDesc, ghost t: G.Tree, ghost f0: Fun, ghost c0: RawCode)
      requires Produced(e, t, f0, c0)
      modifies fs, e
      ensures Produced(e, G.Paren(t), f0, c0) && fs.nactvar == old(fs.nactvar)
    {
      ghost var c := fs.code;
      DischargeVarsOk(f0, fs.fun, e.exp);
      fs.DischargeVariables(e, f0);
      assert Kept(f0, c, fs.code);
    }

    /** Goes on while operators bind tighter than limit. */
    method Expand(e: ExpDesc, ghost t0: G.Tree, limit: nat, ghost f0: Fun, ghost c0: RawCode)
      returns (why: G.Maybe<G.Complaint>)
      requires Produced(e, t0, f0, c0) && Plain(ts, fs.nactvar)
      modifies this, fs, e
      ensures Went(G.Expand(t0, old(ts), limit, old(nCcalls) - 1), why, e, old(nCcalls), f0, c0)
      decreases |ts|, 1
    {
      hide G.SubExpr, Produced, Plain;
      why := G.None;
      ghost var t := t0;
      while G.GetBinOpr(G.First(ts)).Some? && G.LeftPriority(G.GetBinOpr(G.First(ts)).v) > limit
        invariant why.None? && |ts| <= |old(ts)| && nCcalls == old(nCcalls)
        invariant Produced(e, t, f0, c0) && Plain(ts, fs.nactvar)
        invariant G.Expand(t0, old(ts), limit, nCcalls - 1) == G.Expand(t, ts, limit, nCcalls - 1)
        decreases |ts|
      {
        ghost var b, q := ts[0].b, G.SubExpr(ts[1..], G.RightPriority(ts[0].b), nCcalls);
        why := Operand(e, t, f0, c0);
        if why.Some? { return; }
        t := G.Binary(b, t, q.t);
      }
    }

    /** A binary operator and its second operand. */
    method Operand(e: ExpDesc, ghost t: G.Tree, ghost f0: Fun, ghost c0: RawCode) returns (why: G.Maybe<G.Complaint>)
      requires Produced(e, t, f0, c0) && Plain(ts, fs.nactvar) && G.First(ts).Op?
      modifies this, fs, e
      ensures var q := G.SubExpr(old(ts)[1..], G.RightPriority(old(ts)[0].b), old(nCcalls));
              Went(if q.Ok? then G.Ok(G.Binary(old(ts)[0].b, t, q.t), q.rest) else q, why, e, old(nCcalls), f0, c0)
      decreases |ts|, 0
    {
      hide G.SubExpr, Produced;
      assert PlainToken(ts[0], fs.nactvar);
      PlainTail(ts, fs.nactvar);
      var b := ts[0].b;
      ts := ts[1..];
      why := Apply(b.op, G.RightPriority(b), e, t, f0, c0);
    }

    method Apply(op: BinOp, right: nat, e: ExpDesc, ghost t: G.Tree, ghost f0: Fun, ghost c0: RawCode)
      returns (why: G.Maybe<G.Complaint>)
      requires Produced(e, t, f0, c0) && Plain(ts, fs.nactvar)
      modifies this, fs, e
      ensures var q := G.SubExpr(old(ts), right, old(nCcalls));
              Went(if q.Ok? then G.Ok(G.Binary(G.Logic(op), t, q.t), q.rest) else q, why, e, old(nCcalls), f0, c0)
      decreases |ts|, 4
    {
      hide G.SubExpr, Infix, Posfix, CodeComp, Plain, Continues, Grown, CodeOk, Kept, ExpOk, RegsOk,
            Rep, FuncState.InOrder, FuncState.Prefixed, FuncState.Valid;
      ghost var q := G.SubExpr(ts, right, nCcalls);
      PlainParsed(ts, right, nCcalls, fs.nactvar);
      StartBinary(op, e, t, f0, c0);
      ghost var f1, x1, c1 := fs.fun, e.exp, fs.code;
      why := Second(op, right, e, f0);
      if q.Ok? {
        Continued(f0, op, Lower(t), f1, x1, Lower(q.t));
        KeptThen(f0, c0, c1, fs.code);
      }
    }

    /** The first operand becomes what it must be before the second is compiled. */
    method StartBinary(op: BinOp, e: ExpDesc, ghost t: G.Tree, ghost f0: Fun, ghost c0: RawCode)
      requires Produced(e, t, f0, c0)
      modifies fs, e
      ensures fs.Prefixed(op, f0, e) && CodeOk(fs.fun) && Kept(f0, c0, fs.code)
      ensures Continues(f0, op, Lower(t), fs.fun, e.exp) && fs.nactvar == old(fs.nactvar)
    {
      hide Infix, Posfix, CodeComp;
      ghost var c := fs.code;
      fs.DoInfix(op, e, f0);
      forall r: Expr { PosfixIs(f0, op, Lower(t), r, e.exp); }
      assert Kept(f0, c, fs.code);
    }

    /** The second operand, and the operation. */
    method Second(op: BinOp, right: nat, e: ExpDesc, ghost f0: Fun) returns (why: G.Maybe<G.Complaint>)
      requires fs.Prefixed(op, f0, e) && CodeOk(fs.fun) && Plain(ts, fs.nactvar)
      modifies this, fs, e
      ensures match G.SubExpr(old(ts), right, old(nCcalls))
              case Ok(r, rest) =>
                && why == G.None && ts == rest && nCcalls == old(nCcalls) && Plain(ts, fs.nactvar)
                && fs.InOrder(f0, e) && Kept(f0, old(fs.code), fs.code) && fs.nactvar == old(fs.nactvar)
                && Compilable(r) && Scoped(Lower(r), fs.nactvar)
                && var (f3, e2) := Compile(old(fs.fun), Lower(r)); (fs.fun, e.exp) == Posfix(f3, op, old(e.exp), e2)
              case Err(w) => why == G.Some(w)
      decreases |ts|, 3
    {
      hide G.SubExpr;
      ghost var f1, c1, x1 := fs.fun, fs.code, e.exp;
      var e2: ExpDesc;
      why, e2 := SubExpr(right);
      if why.None? {
        OperandKept(op, f0, f1, c1, fs.code, e.k, e.t, e.f, x1);
        KeptEarlier(f0, f1, c1, fs.code);
        fs.DoPosfix(op, e, e2, f0, f1);
      }
    }

    /** Reads an expression and gets its value into the next register: the code generated
        computes the value of the tree that the priorities give the tokens. */
    method ExprToNextReg() returns (why: G.Maybe<G.Complaint>, reg: int)
      requires Ready()
      modifies this, fs
      ensures match G.SubExpr(old(ts), 0, old(nCcalls))
              case Err(w) => why == G.Some(w)
              case Ok(t, rest) =>
                && why == G.None && ts == rest && nCcalls == old(nCcalls) && Ready() && Compilable(t)
                && reg == old(fs.freereg) && fs.freereg == reg + 1 && Kept(old(fs.fun), old(fs.code), fs.code)
                && fs.fun == NextReg(old(fs.fun), Lower(t)) && Grown(old(fs.fun), fs.fun) && old(fs.ks) <= fs.ks
                && Computes(fs, old(fs.fun), t, reg)
    {
      hide G.SubExpr, Plain, CodeOk;
      ghost var f0, c0, q := fs.fun, fs.code, G.SubExpr(ts, 0, nCcalls);
      reg := 0;
      var e: ExpDesc;
      why, e := SubExpr(0);
      if why.None? {
        ghost var c := fs.code;
        reg := fs.MoveToNextReg(e, Lower(q.t), f0);
        KeptThen(f0, c0, c, fs.code);
      }
    }
  }

  /** The stored code from where f0 ended leaves the value of tree t in the register. */
  ghost predicate Computes(fs: FuncState, f0: Fun, t: G.Tree, reg: int)
    reads fs
  {
    Compilable(t) && forall m: Machine, regs: Regs :: fs.ks <= m.ks && Entry(f0, fs.fun.code, regs) ==>
      var o := Exec(Resolved(fs.code, fs.fun.jpc), m, |f0.code|, regs);
      o.pc == |fs.code| && Get(o.regs, reg) == Eval(Lower(t), m, regs) && Same(reg, regs, o.regs)
  }
}
