/** Expressions as token sequences and as trees, and how subexpr goes from the one to the
    other by the priorities of the operators (src/c/lua/lparser.c). */
module Grammar {
  import opened CodeGen

  datatype BinOpr = Add | Sub | Mul | Div | Mod | Pow | Concat | Logic(op: BinOp)

  datatype UnOpr = Minus | Negation | Length

  predicate IsLeaf(x: Expr) {
    !x.EParen? && !x.ENot? && !x.EBin?
  }

  type Leaf = x: Expr | IsLeaf(x) witness ENil

  /** Names are resolved. Suffix stands for what would continue a name or a parenthesis as an
      index or a call; Stop for everything else. */
  datatype Token = Atom(x: Leaf) | LPar | RPar | NotTok | LenTok | Op(b: BinOpr) | Suffix | Stop

  datatype Maybe<T> = None | Some(v: T)

  function First(ts: seq<Token>): Token {
    if ts == [] then Stop else ts[0]
  }

  function GetUnOpr(t: Token): Maybe<UnOpr> {
    match t
    case NotTok => Some(Negation)
    case LenTok => Some(Length)
    case Op(Sub) => Some(Minus)
    case _ => None
  }

  function GetBinOpr(t: Token): Maybe<BinOpr> {
    if t.Op? then Some(t.b) else None
  }

  function LeftPriority(b: BinOpr): nat {
    match b
    case Add => 6
    case Sub => 6
    case Mul => 7
    case Div => 7
    case Mod => 7
    case Pow => 10
    case Concat => 5
    case Logic(op) => if op.And? then 2 else if op.Or? then 1 else 3
  }

  function RightPriority(b: BinOpr): nat {
    match b
    case Pow => 9
    case Concat => 4
    case _ => LeftPriority(b)
  }

  const UNARY_PRIORITY := 8
  const MAX_LEVELS := 200

  datatype Tree = Simple(x: Leaf) | Paren(t: Tree) | Unary(u: UnOpr, t: Tree) | Binary(b: BinOpr, l: Tree, r: Tree)

  /** The tokens of a tree. */
  function Yield(t: Tree): seq<Token> {
    match t
    case Simple(x) => [Atom(x)]
    case Paren(s) => [LPar] + Yield(s) + [RPar]
    case Unary(u, s) => [match u case Minus => Op(Sub) case Negation => NotTok case Length => LenTok] + Yield(s)
    case Binary(b, l, r) => Yield(l) + [Op(b)] + Yield(r)
  }

  // ----- subexpr -----

  datatype Complaint = TooManyLevels | UnexpectedSymbol | MissingParenthesis | NotModelled

  datatype Parsed = Ok(t: Tree, rest: seq<Token>) | Err(why: Complaint)

  /** The next token makes an index or a call of a name or parenthesis. */
  predicate Suffixed(ts: seq<Token>) {
    First(ts).LPar? || First(ts).Suffix? || (First(ts).Atom? && First(ts).x.EStr?)
  }

  predicate IsPrefix(t: Tree) {
    t.Paren? || (t.Simple? && (t.x.ELocal? || t.x.EUpval?))
  }

  /** The tree of the longest expression whose operators bind tighter than limit; depth levels
      are active. */
  function SubExpr(ts: seq<Token>, limit: nat, depth: int): (p: Parsed)
    ensures p.Ok? ==> |p.rest| < |ts|
    decreases |ts|, 2
  {
    if depth + 1 > MAX_LEVELS then Err(TooManyLevels)
    else
      var u := GetUnOpr(First(ts));
      var p := if u.Some? then
                 var q := SubExpr(ts[1..], UNARY_PRIORITY, depth + 1);
                 if q.Ok? then Ok(Unary(u.v, q.t), q.rest) else q
               else SimpleExp(ts, depth);
      if p.Ok? then Expand(p.t, p.rest, limit, depth) else p
  }

  function SimpleExp(ts: seq<Token>, depth: int): (p: Parsed)
    ensures p.Ok? ==> |p.rest| < |ts|
    decreases |ts|, 1
  {
    match First(ts)
    case Atom(x) => Primary(Simple(x), ts[1..])
    case LPar =>
      var q := SubExpr(ts[1..], 0, depth + 1);
      if q.Err? then q
      else if First(q.rest) != RPar then Err(MissingParenthesis)
      else Primary(Paren(q.t), q.rest[1..])
    case _ => Err(UnexpectedSymbol)
  }

  function Primary(t: Tree, rest: seq<Token>): Parsed {
    if IsPrefix(t) && Suffixed(rest) then Err(NotModelled) else Ok(t, rest)
  }

  /** Goes on while the next operator binds tighter than limit. */
  function Expand(left: Tree, ts: seq<Token>, limit: nat, depth: int): (p: Parsed)
    ensures p.Ok? ==> |p.rest| <= |ts|
    decreases |ts|, 1
  {
    var b := GetBinOpr(First(ts));
    if b.None? || LeftPriority(b.v) <= limit then Ok(left, ts)
    else
      var q := SubExpr(ts[1..], RightPriority(b.v), depth + 1);
      if q.Ok? then Expand(Binary(b.v, left, q.t), q.rest, limit, depth) else q
  }

  // ----- What the trees are -----

  /** Operator b, coming after t, does not bind to a part of t. */
  predicate Stops(t: Tree, b: BinOpr) {
    match t
    case Unary(_, s) => LeftPriority(b) <= UNARY_PRIORITY && Stops(s, b)
    case Binary(c, _, r) => LeftPriority(b) <= RightPriority(c) && Stops(r, b)
    case _ => true
  }

  /** The tree respects the priorities, and its operators outside parentheses and operands bind
      tighter than limit. */
  predicate Fits(t: Tree, limit: nat) {
    match t
    case Simple(_) => true
    case Paren(s) => Fits(s, 0)
    case Unary(_, s) => Fits(s, UNARY_PRIORITY)
    case Binary(b, l, r) => LeftPriority(b) > limit && Fits(l, limit) && Stops(l, b) && Fits(r, RightPriority(b))
  }

  /** How many activations of subexpr it takes. */
  function Levels(t: Tree): (n: nat)
    ensures n > 0
  {
    match t
    case Simple(_) => 1
    case Paren(s) => 1 + Levels(s)
    case Unary(_, s) => 1 + Levels(s)
    case Binary(_, l, r) => if Levels(l) > 1 + Levels(r) then Levels(l) else 1 + Levels(r)
  }

  /** The last operand of a tree. */
  function Last(t: Tree): Tree {
    match t
    case Unary(_, s) => Last(s)
    case Binary(_, _, r) => Last(r)
    case _ => t
  }

  /** Nothing in ts continues t. */
  predicate EndsAt(t: Tree, ts: seq<Token>) {
    && (GetBinOpr(First(ts)).Some? ==> Stops(t, GetBinOpr(First(ts)).v))
    && !(IsPrefix(Last(t)) && Suffixed(ts))
  }

  predicate Below(ts: seq<Token>, limit: nat) {
    GetBinOpr(First(ts)).Some? ==> LeftPriority(GetBinOpr(First(ts)).v) <= limit
  }

  /** Tokens ts are those of t and then rest, and t respects the priorities and ends there. */
  ghost predicate ReadTo(t: Tree, rest: seq<Token>, ts: seq<Token>, limit: nat, depth: int) {
    ts == Yield(t) + rest && Fits(t, limit) && EndsAt(t, rest) && depth + Levels(t) <= MAX_LEVELS
  }

  /** What subexpr returns is a tree of the tokens it read that respects the priorities, and it
      stops no sooner than it must. */
  lemma {:induction false} ParsedWell(ts: seq<Token>, limit: nat, depth: int)
    ensures var p := SubExpr(ts, limit, depth); p.Ok? ==> ReadTo(p.t, p.rest, ts, limit, depth) && Below(p.rest, limit)
    decreases |ts|, 2
  {
    hide ReadTo, Below;
    if depth + 1 <= MAX_LEVELS {
      var u := GetUnOpr(First(ts));
      if u.Some? {
        ParsedWell(ts[1..], UNARY_PRIORITY, depth + 1);
        var q := SubExpr(ts[1..], UNARY_PRIORITY, depth + 1);
        if q.Ok? {
          UnaryWell(u.v, q.t, q.rest, ts, limit, depth);
          ExpandedWell(Unary(u.v, q.t), q.rest, limit, depth, ts);
        }
      } else {
        SimpleWell(ts, limit, depth);
        var q := SimpleExp(ts, depth);
        if q.Ok? { ExpandedWell(q.t, q.rest, limit, depth, ts); }
      }
    }
  }

  lemma UnaryWell(u: UnOpr, t: Tree, rest: seq<Token>, ts: seq<Token>, limit: nat, depth: int)
    requires ts != [] && GetUnOpr(ts[0]) == Some(u)
    requires ReadTo(t, rest, ts[1..], UNARY_PRIORITY, depth + 1) && Below(rest, UNARY_PRIORITY)
    ensures ReadTo(Unary(u, t), rest, ts, limit, depth)
  {
    assert ts == [ts[0]] + (Yield(t) + rest);
    assert Yield(Unary(u, t)) == [ts[0]] + Yield(t);
  }

  lemma ParenWell(t: Tree, rest: seq<Token>, ts: seq<Token>, limit: nat, depth: int)
    requires ts != [] && ts[0] == LPar && rest != [] && rest[0] == RPar && !Suffixed(rest[1..])
    requires ReadTo(t, rest, ts[1..], 0, depth + 1)
    ensures ReadTo(Paren(t), rest[1..], ts, limit, depth)
  {
    assert ts == [LPar] + ts[1..] && rest == [RPar] + rest[1..];
    assert ts == Yield(Paren(t)) + rest[1..];
  }

  lemma BinaryWell(b: BinOpr, l: Tree, r: Tree, rest: seq<Token>, ts: seq<Token>, all: seq<Token>, limit: nat,
        depth: int)
    requires ts != [] && ts[0] == Op(b) && LeftPriority(b) > limit && ReadTo(l, ts, all, limit, depth)
    requires ReadTo(r, rest, ts[1..], RightPriority(b), depth + 1) && Below(rest, RightPriority(b))
    ensures ReadTo(Binary(b, l, r), rest, all, limit, depth)
  {
    assert ts == [Op(b)] + (Yield(r) + rest);
    assert all == Yield(Binary(b, l, r)) + rest;
  }

  lemma {:induction false} SimpleWell(ts: seq<Token>, limit: nat, depth: int)
    requires depth + 1 <= MAX_LEVELS
    ensures var p := SimpleExp(ts, depth); p.Ok? ==> ReadTo(p.t, p.rest, ts, limit, depth)
    decreases |ts|, 1
  {
    if First(ts).LPar? {
      hide ReadTo, Below;
      ParsedWell(ts[1..], 0, depth + 1);
      var q := SubExpr(ts[1..], 0, depth + 1);
      hide SubExpr;
      if q.Ok? && First(q.rest) == RPar && !Suffixed(q.rest[1..]) { ParenWell(q.t, q.rest, ts, limit, depth); }
    } else if First(ts).Atom? {
      assert ts == [ts[0]] + ts[1..];
    }
  }

  lemma {:induction false} ExpandedWell(left: Tree, ts: seq<Token>, limit: nat, depth: int, all: seq<Token>)
    requires ReadTo(left, ts, all, limit, depth)
    ensures var p := Expand(left, ts, limit, depth); p.Ok? ==>
          ReadTo(p.t, p.rest, all, limit, depth) && Below(p.rest, limit)
    decreases |ts|, 1
  {
    hide ReadTo;
    var b := GetBinOpr(First(ts));
    if b.Some? && LeftPriority(b.v) > limit {
      ParsedWell(ts[1..], RightPriority(b.v), depth + 1);
      var q := SubExpr(ts[1..], RightPriority(b.v), depth + 1);
      hide SubExpr;
      if q.Ok? {
        BinaryWell(b.v, left, q.t, q.rest, ts, all, limit, depth);
        ExpandedWell(Binary(b.v, left, q.t), q.rest, limit, depth, all);
      }
    }
  }

  /** Every tree that respects the priorities is read back from its tokens, unless it takes
      too many levels. */
  lemma {:induction false} ReadsBack(t: Tree, limit: nat, depth: int, rest: seq<Token>)
    requires Fits(t, limit) && EndsAt(t, rest)
    ensures ReadBack(t, limit, depth, rest)
    decreases t
  {
    hide ReadBack;
    match t
    case Simple(x) =>
      SimpleBack(x, limit, depth, rest);
    case Paren(s) =>
      ReadsBack(s, 0, depth + 1, [RPar] + rest);
      ParenBack(s, limit, depth, rest);
    case Unary(u, s) =>
      ReadsBack(s, UNARY_PRIORITY, depth + 1, rest);
      UnaryBack(u, s, limit, depth, rest);
    case Binary(b, l, r) =>
      var more := [Op(b)] + (Yield(r) + rest);
      ReadsBack(l, limit, depth, more);
      ReadsBack(r, RightPriority(b), depth + 1, rest);
      BinaryBack(b, l, r, limit, depth, rest);
  }

  ghost predicate ReadBack(t: Tree, limit: nat, depth: int, rest: seq<Token>) {
    SubExpr(Yield(t) + rest, limit, depth)
    == if depth + Levels(t) <= MAX_LEVELS then Expand(t, rest, limit, depth) else Err(TooManyLevels)
  }

  lemma SimpleBack(x: Leaf, limit: nat, depth: int, rest: seq<Token>)
    requires EndsAt(Simple(x), rest)
    ensures ReadBack(Simple(x), limit, depth, rest)
  {
    assert (Yield(Simple(x)) + rest)[1..] == rest;
  }

  lemma ParenBack(s: Tree, limit: nat, depth: int, rest: seq<Token>)
    requires EndsAt(Paren(s), rest) && ReadBack(s, 0, depth + 1, [RPar] + rest)
    ensures ReadBack(Paren(s), limit, depth, rest)
  {
    assert (Yield(Paren(s)) + rest)[1..] == Yield(s) + ([RPar] + rest);
    assert ([RPar] + rest)[1..] == rest;
  }

  lemma UnaryBack(u: UnOpr, s: Tree, limit: nat, depth: int, rest: seq<Token>)
    requires EndsAt(Unary(u, s), rest) && ReadBack(s, UNARY_PRIORITY, depth + 1, rest)
    ensures ReadBack(Unary(u, s), limit, depth, rest)
  {
    assert (Yield(Unary(u, s)) + rest)[1..] == Yield(s) + rest;
    assert Below(rest, UNARY_PRIORITY);
  }

  lemma BinaryBack(b: BinOpr, l: Tree, r: Tree, limit: nat, depth: int, rest: seq<Token>)
    requires LeftPriority(b) > limit && EndsAt(Binary(b, l, r), rest)
    requires ReadBack(l, limit, depth, [Op(b)] + (Yield(r) + rest)) && ReadBack(r, RightPriority(b), depth + 1, rest)
    ensures ReadBack(Binary(b, l, r), limit, depth, rest)
  {
    hide SubExpr, EndsAt;
    assert Yield(Binary(b, l, r)) + rest == Yield(l) + ([Op(b)] + (Yield(r) + rest));
    ExpandsBack(b, l, r, limit, depth, rest);
  }

  lemma ExpandsBack(b: BinOpr, l: Tree, r: Tree, limit: nat, depth: int, rest: seq<Token>)
    requires LeftPriority(b) > limit && EndsAt(Binary(b, l, r), rest)
    requires SubExpr(Yield(r) + rest, RightPriority(b), depth + 1)
             == if depth + 1 + Levels(r) <= MAX_LEVELS then Expand(r, rest, RightPriority(b),
                   depth + 1) else Err(TooManyLevels)
    ensures Expand(l, [Op(b)] + (Yield(r) + rest), limit, depth)
            == if depth + 1 + Levels(r) <= MAX_LEVELS then Expand(Binary(b, l, r), rest, limit,
                  depth) else Err(TooManyLevels)
  {
    hide SubExpr, Yield, Levels;
    assert ([Op(b)] + (Yield(r) + rest))[1..] == Yield(r) + rest;
    assert Below(rest, RightPriority(b));
  }

  /** Tokens have at most one tree that respects the priorities. */
  lemma Unambiguous(s: Tree, t: Tree)
    requires Fits(s, 0) && Fits(t, 0) && Yield(s) == Yield(t)
    ensures s == t
  {
    var depth: int := 0 - Levels(s) - Levels(t);
    assert Yield(s) + [] == Yield(s) && Yield(t) + [] == Yield(t);
    ReadsBack(s, 0, depth, []);
    ReadsBack(t, 0, depth, []);
  }
}
