/** The precedence of operators as section 2.5.6 of the Lua 5.1 manual has it, and that the parser
    reads trees by it. */
module Precedence {
  import opened CodeGen
  import opened Grammar

  /** From lower to higher. */
  const GROUPS: seq<set<BinOpr>> := [
    {Logic(Or)},
    {Logic(And)},
    {Logic(Lt), Logic(Gt), Logic(Le), Logic(Ge), Logic(Ne), Logic(Eq)},
    {Concat},
    {Add, Sub},
    {Mul, Div, Mod},
    {Pow}]

  ghost predicate Later(c: BinOpr, b: BinOpr) {
    exists i, j :: 0 <= i < j < |GROUPS| && b in GROUPS[i] && c in GROUPS[j]
  }

  ghost predicate SameGroup(b: BinOpr, c: BinOpr) {
    exists i :: 0 <= i < |GROUPS| && b in GROUPS[i] && c in GROUPS[i]
  }

  predicate RightAssociative(b: BinOpr) {
    b.Concat? || b.Pow?
  }

  /** In x b y c z the operand y belongs to c. */
  ghost predicate BindsFirst(b: BinOpr, c: BinOpr) {
    Later(c, b) || (SameGroup(b, c) && RightAssociative(b))
  }

  /** The group of an operator. */
  function Place(b: BinOpr): (i: nat)
    ensures i < |GROUPS| && b in GROUPS[i]
  {
    match b
    case Add => 4
    case Sub => 4
    case Mul => 5
    case Div => 5
    case Mod => 5
    case Pow => 6
    case Concat => 3
    case Logic(op) => if op.And? then 1 else if op.Or? then 0 else 2
  }

  lemma OnePlace(b: BinOpr, i: nat)
    requires i < |GROUPS| && b in GROUPS[i]
    ensures i == Place(b)
  {
  }

  lemma ByPlace(b: BinOpr, c: BinOpr)
    ensures Later(c, b) <==> Place(b) < Place(c)
    ensures SameGroup(b, c) <==> Place(b) == Place(c)
  {
    hide Place;
    if Later(c, b) {
      var i, j :| 0 <= i < j < |GROUPS| && b in GROUPS[i] && c in GROUPS[j];
      OnePlace(b, i);
      OnePlace(c, j);
    }
    if SameGroup(b, c) {
      var i :| 0 <= i < |GROUPS| && b in GROUPS[i] && c in GROUPS[i];
      OnePlace(b, i);
      OnePlace(c, i);
    }
  }

  /** The numbers in the table of priorities stand for this order. */
  lemma PrioritiesMean(b: BinOpr, c: BinOpr)
    ensures LeftPriority(c) > RightPriority(b) <==> BindsFirst(b, c)
    ensures LeftPriority(c) > UNARY_PRIORITY <==> c == Pow
    ensures LeftPriority(b) > 0 && RightPriority(b) > 0
  {
    ByPlace(b, c);
  }

  // ----- Trees that respect the order -----

  /** Operator b, coming after t, gets all of t as its operand. */
  ghost predicate EndsBefore(t: Tree, b: BinOpr) {
    match t
    case Unary(_, s) => b != Pow && EndsBefore(s, b)
    case Binary(c, _, r) => !BindsFirst(c, b) && EndsBefore(r, b)
    case _ => true
  }

  /** Operator b, coming before t, gets all of t as its operand. */
  ghost predicate StartsAfter(t: Tree, b: BinOpr) {
    match t
    case Binary(c, l, _) => BindsFirst(b, c) && StartsAfter(l, b)
    case _ => true
  }

  /** A unary operator before t gets all of t: only `^` binds tighter. */
  predicate PowersOnly(t: Tree) {
    match t
    case Binary(c, l, _) => c == Pow && PowersOnly(l)
    case _ => true
  }

  ghost predicate Proper(t: Tree) {
    match t
    case Simple(_) => true
    case Paren(s) => Proper(s)
    case Unary(_, s) => Proper(s) && PowersOnly(s)
    case Binary(b, l, r) => Proper(l) && Proper(r) && EndsBefore(l, b) && StartsAfter(r, b)
  }

  /** The operators at the left of t bind tighter than limit. */
  predicate Above(t: Tree, limit: nat) {
    match t
    case Binary(b, l, _) => LeftPriority(b) > limit && Above(l, limit)
    case _ => true
  }

  lemma {:induction false} StopsMeans(t: Tree, b: BinOpr)
    ensures Stops(t, b) <==> EndsBefore(t, b)
  {
    hide BindsFirst;
    match t
    case Unary(_, s) =>
      PrioritiesMean(b, b);
      StopsMeans(s, b);
    case Binary(c, _, r) =>
      PrioritiesMean(c, b);
      StopsMeans(r, b);
    case _ =>
  }

  lemma {:induction false} AboveMeans(t: Tree, b: BinOpr)
    ensures Above(t, RightPriority(b)) <==> StartsAfter(t, b)
    ensures Above(t, UNARY_PRIORITY) <==> PowersOnly(t)
    ensures Above(t, 0)
  {
    hide BindsFirst;
    if t.Binary? {
      PrioritiesMean(b, t.b);
      PrioritiesMean(t.b, t.b);
      AboveMeans(t.l, b);
    }
  }

  /** To respect the priorities is to respect the order. */
  lemma {:induction false} FitsMeans(t: Tree, limit: nat)
    ensures Fits(t, limit) <==> Proper(t) && Above(t, limit)
  {
    hide EndsBefore, StartsAfter, Stops, LeftPriority, RightPriority;
    match t
    case Simple(_) =>
    case Paren(s) =>
      FitsMeans(s, 0);
      AboveMeans(s, Pow);
    case Unary(_, s) =>
      FitsMeans(s, UNARY_PRIORITY);
      AboveMeans(s, Pow);
    case Binary(b, l, r) =>
      FitsMeans(l, limit);
      FitsMeans(r, RightPriority(b));
      StopsMeans(l, b);
      AboveMeans(r, b);
  }

  /** The tree that subexpr returns has the tokens read and respects the order of the manual. */
  lemma ParsedProper(ts: seq<Token>, depth: int)
    ensures var p := SubExpr(ts, 0, depth); p.Ok? ==> Proper(p.t) && ts == Yield(p.t) + p.rest
  {
    hide SubExpr, Proper, EndsAt;
    ParsedWell(ts, 0, depth);
    var p := SubExpr(ts, 0, depth);
    if p.Ok? { FitsMeans(p.t, 0); }
  }

  /** Each tree that respects it is read from its tokens, if it takes no more levels than there
      are. */
  lemma ProperParsed(t: Tree, depth: int)
    requires Proper(t)
    ensures SubExpr(Yield(t), 0, depth) == if depth + Levels(t) <= MAX_LEVELS then Ok(t, []) else Err(TooManyLevels)
  {
    hide SubExpr, Proper;
    FitsMeans(t, 0);
    AboveMeans(t, Pow);
    assert Yield(t) + [] == Yield(t);
    ReadsBack(t, 0, depth, []);
  }

  /** A tree of two leaves. */
  function Pair(b: BinOpr, x: Leaf, y: Leaf): Tree {
    Binary(b, Simple(x), Simple(y))
  }

  lemma PairIs(b: BinOpr, x: Leaf, y: Leaf)
    ensures Proper(Pair(b, x, y)) && Yield(Pair(b, x, y)) == [Atom(x), Op(b), Atom(y)] && Levels(Pair(b, x, y)) == 2
  {
  }

  lemma RightPair(b: BinOpr, x: Leaf, c: BinOpr, y: Leaf, z: Leaf)
    requires BindsFirst(b, c)
    ensures var t := Binary(b, Simple(x), Pair(c, y, z));
            Proper(t) && Yield(t) == [Atom(x), Op(b), Atom(y), Op(c), Atom(z)] && Levels(t) == 3
  {
    hide BindsFirst;
    PairIs(c, y, z);
    assert StartsAfter(Simple(y), b);
  }

  lemma LeftPair(b: BinOpr, x: Leaf, c: BinOpr, y: Leaf, z: Leaf)
    requires !BindsFirst(b, c)
    ensures var t := Binary(c, Pair(b, x, y), Simple(z));
            Proper(t) && Yield(t) == [Atom(x), Op(b), Atom(y), Op(c), Atom(z)] && Levels(t) == 2
  {
    hide BindsFirst;
    PairIs(b, x, y);
    assert EndsBefore(Simple(y), c);
  }

  /** Two operators between three operands: the one that binds first gets the operand between. */
  lemma TwoOperators(x: Leaf, b: BinOpr, y: Leaf, c: BinOpr, z: Leaf, depth: int)
    requires depth + 3 <= MAX_LEVELS
    ensures SubExpr([Atom(x), Op(b), Atom(y), Op(c), Atom(z)], 0, depth)
            == Ok(if BindsFirst(b, c) then Binary(b, Simple(x), Binary(c, Simple(y), Simple(z)))
                  else Binary(c, Binary(b, Simple(x), Simple(y)), Simple(z)), [])
  {
    hide SubExpr, BindsFirst, Proper, Yield, Levels;
    if BindsFirst(b, c) {
      RightPair(b, x, c, y, z);
      ProperParsed(Binary(b, Simple(x), Pair(c, y, z)), depth);
    } else {
      LeftPair(b, x, c, y, z);
      ProperParsed(Binary(c, Pair(b, x, y), Simple(z)), depth);
    }
  }

  lemma UnaryOfPair(u: UnOpr, x: Leaf, z: Leaf)
    ensures var t := Unary(u, Pair(Pow, x, z));
            Proper(t) && Yield(t) == Yield(Unary(u, Simple(x))) + [Op(Pow), Atom(z)] && Levels(t) == 3
  {
    PairIs(Pow, x, z);
  }

  lemma LeafLevels(u: UnOpr, x: Leaf)
    ensures Levels(Simple(x)) == 1 && Levels(Unary(u, Simple(x))) == 2
  {
    assert Levels(Simple(x)) == 1;
  }

  lemma PairOfUnary(u: UnOpr, x: Leaf, c: BinOpr, z: Leaf)
    requires c != Pow
    ensures var t := Binary(c, Unary(u, Simple(x)), Simple(z));
            Proper(t) && Yield(t) == Yield(Unary(u, Simple(x))) + [Op(c), Atom(z)] && Levels(t) == 2
  {
    var s := Unary(u, Simple(x));
    LeafLevels(u, x);
    LeafLevels(u, z);
    assert Proper(s) && EndsBefore(Simple(x), c);
  }

  /** A unary operator binds tighter than every binary one but `^`. */
  lemma UnaryFirst(u: UnOpr, x: Leaf, c: BinOpr, z: Leaf, depth: int)
    requires depth + 3 <= MAX_LEVELS
    ensures SubExpr(Yield(Unary(u, Simple(x))) + [Op(c), Atom(z)], 0, depth)
            == Ok(if c == Pow then Unary(u, Binary(c, Simple(x), Simple(z)))
                  else Binary(c, Unary(u, Simple(x)), Simple(z)), [])
  {
    hide SubExpr, BindsFirst, Proper, Yield, Levels;
    if c == Pow {
      UnaryOfPair(u, x, z);
      ProperParsed(Unary(u, Pair(Pow, x, z)), depth);
    } else {
      PairOfUnary(u, x, c, z);
      ProperParsed(Binary(c, Unary(u, Simple(x)), Simple(z)), depth);
    }
  }
}
