/** Printing syntax trees with as few parentheses as the grammar allows, and what it says about parsing. */
module TransformPrinting {
  import opened TransformGrammar

  predicate IsSum(e: Expr) {
    e.Bin? && (e.op.Add? || e.op.Sub?)
  }

  predicate IsProduct(e: Expr) {
    e.Bin? && (e.op.Mul? || e.op.Div?)
  }

  function ToSum(e: Expr): (s: Sum)
    ensures SumTree(s) == e
    decreases e, 3
  {
    if IsSum(e) then MoreSum(ToSum(e.l), e.op.Add?, ToProduct(e.r)) else OneProduct(ToProduct(e))
  }

  function ToProduct(e: Expr): (p: Product)
    ensures ProductTree(p) == e
    decreases e, 2
  {
    if IsProduct(e) then MoreProduct(ToProduct(e.l), e.op.Mul?, ToUnary(e.r)) else OneUnary(ToUnary(e))
  }

  function ToUnary(e: Expr): (u: Unary)
    ensures UnaryTree(u) == e
    decreases e, 1
  {
    if e.Neg? then Unary(true, ToPrimary(e.e)) else Unary(false, ToPrimary(e))
  }

  function ToPrimary(e: Expr): (p: Primary)
    ensures PrimaryTree(p) == e
    decreases e, 0
  {
    match e
    case Lit(raw) => Literal(raw)
    case Var(name) => Variable(name)
    case Min(a, b) => MinCall(ToSum(a), ToSum(b))
    case Max(a, b) => MaxCall(ToSum(a), ToSum(b))
    case Round(x) => RoundCall(ToSum(x))
    case Neg(x) =>
      var p := OneUnary(Unary(true, ToPrimary(x)));
      assert ProductTree(p) == e;
      Parens(OneProduct(p))
    case Bin(op, l, r) =>
      if op.Add? || op.Sub? then
        var s := MoreSum(ToSum(l), op.Add?, ToProduct(r));
        assert SumTree(s) == e;
        Parens(s)
      else
        var p := MoreProduct(ToProduct(l), op.Mul?, ToUnary(r));
        assert ProductTree(p) == e;
        Parens(OneProduct(p))
  }

  /** Printed with minimal parentheses, every tree is accepted and evaluates to its own value. */
  lemma PrintedIsRead<N>(ar: Arith<N>, env: map<string, N>, e: Expr)
    ensures Run(ar, env, SumTokens(ToSum(e))) == Value(ar, env, e)
  {
    RunsTree(ar, env, ToSum(e));
  }

  lemma Levels(e: Expr)
    ensures |SumTokens(ToSum(e))| <= |ProductTokens(ToProduct(e))| <= |UnaryTokens(ToUnary(e))| <=
            |PrimaryTokens(ToPrimary(e))|
  {
    if IsSum(e) {
      assert ToPrimary(e) == Parens(ToSum(e));
    } else if IsProduct(e) {
      assert ToPrimary(e) == Parens(OneProduct(ToProduct(e)));
    } else if e.Neg? {
      assert ToPrimary(e) == Parens(OneProduct(OneUnary(ToUnary(e))));
    }
  }

  /** No other way of writing the same tree uses fewer tokens. */
  lemma {:induction false} MinimalSum(s: Sum)
    ensures |SumTokens(ToSum(SumTree(s)))| <= |SumTokens(s)|
  {
    match s
    case OneProduct(p) => MinimalProduct(p); Levels(ProductTree(p));
    case MoreSum(l, plus, r) => MinimalSum(l); MinimalProduct(r);
  }

  lemma {:induction false} MinimalProduct(p: Product)
    ensures |ProductTokens(ToProduct(ProductTree(p)))| <= |ProductTokens(p)|
  {
    match p
    case OneUnary(u) => MinimalUnary(u); Levels(UnaryTree(u));
    case MoreProduct(l, star, r) => MinimalProduct(l); MinimalUnary(r);
  }

  lemma {:induction false} MinimalUnary(u: Unary)
    ensures |UnaryTokens(ToUnary(UnaryTree(u)))| <= |UnaryTokens(u)|
  {
    MinimalPrimary(u.p);
    Levels(PrimaryTree(u.p));
  }

  lemma {:induction false} MinimalPrimary(p: Primary)
    ensures |PrimaryTokens(ToPrimary(PrimaryTree(p)))| <= |PrimaryTokens(p)|
  {
    match p
    case Literal(raw) =>
    case Variable(name) =>
    case MinCall(a, b) => MinimalSum(a); MinimalSum(b);
    case MaxCall(a, b) => MinimalSum(a); MinimalSum(b);
    case RoundCall(s) => MinimalSum(s);
    case Parens(s) => MinimalSum(s); InParens(SumTree(s));
  }

  lemma InParens(e: Expr)
    ensures |PrimaryTokens(ToPrimary(e))| <= |SumTokens(ToSum(e))| + 2
  {
    if e.Bin? || e.Neg? {
      assert ToPrimary(e) == Parens(ToSum(e)) by {
        if IsProduct(e) {
          assert ToSum(e) == OneProduct(ToProduct(e));
        } else if e.Neg? {
          assert ToSum(e) == OneProduct(OneUnary(ToUnary(e)));
        }
      }
      var s := ToSum(e);
      assert PrimaryTokens(Parens(s)) == [LParen] + SumTokens(s) + [RParen];
    } else {
      Levels(e);
      assert ToSum(e) == OneProduct(OneUnary(Unary(false, ToPrimary(e))));
    }
  }

  // ----- Unambiguity, by running the parser on the arithmetic that only builds trees -----

  const TREES: Arith<Expr> := Arith(raw => Lit(raw), Lit("1"), (op, a, b) => Bin(op, a, b), a => Neg(a),
                             (a, b) => Min(a, b), (a, b) => Max(a, b), a => Round(a), a => false, a => true)

  function Names(e: Expr): set<string> {
    match e
    case Lit(_) => {}
    case Var(name) => {name}
    case Neg(x) => Names(x)
    case Bin(_, l, r) => Names(l) + Names(r)
    case Min(a, b) => Names(a) + Names(b)
    case Max(a, b) => Names(a) + Names(b)
    case Round(x) => Names(x)
  }

  lemma {:induction false} TreesBuildThemselves(e: Expr, names: set<string>)
    requires Names(e) <= names
    ensures Value(TREES, map n | n in names :: Var(n), e) == Ok(e)
  {
    match e
    case Lit(_) =>
    case Var(_) =>
    case Neg(x) => TreesBuildThemselves(x, names);
    case Bin(_, l, r) => TreesBuildThemselves(l, names); TreesBuildThemselves(r, names);
    case Min(a, b) => TreesBuildThemselves(a, names); TreesBuildThemselves(b, names);
    case Max(a, b) => TreesBuildThemselves(a, names); TreesBuildThemselves(b, names);
    case Round(x) => TreesBuildThemselves(x, names);
  }

  /** The same tokens never stand for two different syntax trees. */
  lemma Unambiguous(s: Sum, t: Sum)
    requires SumTokens(s) == SumTokens(t)
    ensures SumTree(s) == SumTree(t)
  {
    var names := Names(SumTree(s)) + Names(SumTree(t));
    TreesBuildThemselves(SumTree(s), names);
    TreesBuildThemselves(SumTree(t), names);
    RunsTree(TREES, map n | n in names :: Var(n), s);
    RunsTree(TREES, map n | n in names :: Var(n), t);
  }
}
