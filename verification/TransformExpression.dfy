/** Upload-time validation and run-time evaluation of transform expressions. */
module TransformExpression {
  import opened TransformGrammar
  import opened TransformLexer
  import opened TransformParser
  import opened TransformPrinting

  /** What evaluating the text gives: read it, run it, refuse a non-finite result. */
  function Evaluated<N>(ar: Arith<N>, expression: string, env: map<string, N>): Result<N> {
    var ts :- Lex(expression);
    var v :- Run(ar, env, ts);
    if ar.isFinite(v) then Ok(v) else Err(NonFinite)
  }

  function Ones<N>(ar: Arith<N>, names: seq<string>): map<string, N> {
    map n | n in names :: ar.one
  }

  predicate Accepted<N>(ar: Arith<N>, expression: string, names: seq<string>) {
    Lex(expression).Ok? && Run(ar, Ones(ar, names), Lex(expression).value).Ok?
  }

  lemma NoEOF(s: string)
    requires Lex(s).Ok?
    ensures EOF !in Lex(s).value
  {
    LexWellFormed(s);
  }

  method BuildValidationVariables<N>(ar: Arith<N>, allowedVariables: seq<string>) returns (m: map<string, N>)
    ensures m == Ones(ar, allowedVariables)
  {
    m := map[];
    for i := 0 to |allowedVariables|
      invariant m == Ones(ar, allowedVariables[..i])
    {
      assert allowedVariables[..i + 1] == allowedVariables[..i] + [allowedVariables[i]];
      m := m[allowedVariables[i] := ar.one];
    }
    assert allowedVariables[..|allowedVariables|] == allowedVariables;
  }

  method ValidateTransformExpression<N>(ar: Arith<N>, expression: string, names: seq<string>) returns (ok: bool)
    ensures ok == Accepted(ar, expression, names)
  {
    var tokens := Tokenize(expression);
    if tokens.Err? {
      return false;
    }
    NoEOF(expression);
    var ts := tokens.value[..|tokens.value| - 1];
    assert ts == Lex(expression).value;
    var variables := BuildValidationVariables(ar, names);
    var parser := new Parser(ar, ts, variables);
    var r := parser.Evaluate();
    ok := r.Ok?;
  }

  method EvaluateTransform<N>(ar: Arith<N>, expression: string, variables: map<string, N>) returns (r: Result<N>)
    ensures r == Evaluated(ar, expression, variables)
  {
    var tokens :- Tokenize(expression);
    NoEOF(expression);
    var ts := tokens[..|tokens| - 1];
    assert ts == Lex(expression).value;
    var parser := new Parser(ar, ts, variables);
    var v :- parser.Evaluate();
    r := if !ar.isFinite(v) then Err(NonFinite) else Ok(v);
  }

  // ----- When a tree has a value -----

  /** The trees that stand to the right of a division sign, anywhere in `e`. */
  function Divisors(e: Expr): set<Expr> {
    match e
    case Lit(_) => {}
    case Var(_) => {}
    case Neg(x) => Divisors(x)
    case Bin(op, l, r) => Divisors(l) + Divisors(r) + (if op.Div? then {r} else {})
    case Min(a, b) => Divisors(a) + Divisors(b)
    case Max(a, b) => Divisors(a) + Divisors(b)
    case Round(x) => Divisors(x)
  }

  /** No divisor in `e` evaluates to zero. */
  ghost predicate DivisorsNonZero<N>(ar: Arith<N>, env: map<string, N>, e: Expr) {
    forall d | d in Divisors(e) :: Value(ar, env, d).Ok? ==> !ar.isZero(Value(ar, env, d).value)
  }

  /** A tree whose names are bound has a value exactly when none of its divisors is zero, and only a
      division by zero can keep it from having one. */
  lemma {:induction false} ValueExists<N>(ar: Arith<N>, env: map<string, N>, e: Expr)
    requires Names(e) <= env.Keys
    ensures Value(ar, env, e).Ok? <==> DivisorsNonZero(ar, env, e)
    ensures Value(ar, env, e).Err? ==> Value(ar, env, e) == Err(DivisionByZero)
  {
    match e
    case Lit(_) =>
    case Var(_) =>
    case Neg(x) => ValueExists(ar, env, x);
    case Bin(op, l, r) => ValueExists(ar, env, l); ValueExists(ar, env, r);
    case Min(a, b) => ValueExists(ar, env, a); ValueExists(ar, env, b);
    case Max(a, b) => ValueExists(ar, env, a); ValueExists(ar, env, b);
    case Round(x) => ValueExists(ar, env, x);
  }

  lemma {:induction false} ValueNeedsNames<N>(ar: Arith<N>, env: map<string, N>, e: Expr)
    requires Value(ar, env, e).Ok?
    ensures Names(e) <= env.Keys
  {
    match e
    case Lit(_) =>
    case Var(_) =>
    case Neg(x) => ValueNeedsNames(ar, env, x);
    case Bin(op, l, r) => ValueNeedsNames(ar, env, l); ValueNeedsNames(ar, env, r);
    case Min(a, b) => ValueNeedsNames(ar, env, a); ValueNeedsNames(ar, env, b);
    case Max(a, b) => ValueNeedsNames(ar, env, a); ValueNeedsNames(ar, env, b);
    case Round(x) => ValueNeedsNames(ar, env, x);
  }

  /** `expression` is the text of tree `s`. */
  ghost predicate Reads(expression: string, s: Sum) {
    Lex(expression) == Ok(SumTokens(s))
  }

  /** The validator accepts exactly the texts of the grammar that use only the allowed names and in which
      no divisor is zero once every name stands for one. */
  lemma AcceptedExactly<N>(ar: Arith<N>, expression: string, names: seq<string>)
    ensures Accepted(ar, expression, names) <==>
            exists s :: Reads(expression, s) && (forall n | n in Names(SumTree(s)) :: n in names) &&
                        DivisorsNonZero(ar, Ones(ar, names), SumTree(s))
  {
    var ones := Ones(ar, names);
    if Accepted(ar, expression, names) {
      var ts := Lex(expression).value;
      RunsExactlyTheGrammar(ar, ones, ts, Run(ar, ones, ts).value);
      var s :| ts == SumTokens(s) && Value(ar, ones, SumTree(s)).Ok?;
      ValueNeedsNames(ar, ones, SumTree(s));
      ValueExists(ar, ones, SumTree(s));
      assert Reads(expression, s);
    }
    forall s | Reads(expression, s) && (forall n | n in Names(SumTree(s)) :: n in names) &&
               DivisorsNonZero(ar, ones, SumTree(s))
      ensures Accepted(ar, expression, names)
    {
      ValueExists(ar, ones, SumTree(s));
      RunsTree(ar, ones, s);
    }
  }

  /** Progress: an accepted expression, run with any numbers for its names, fails by a division by zero or
      a non-finite result or not at all. */
  lemma Progress<N>(ar: Arith<N>, expression: string, names: seq<string>, env: map<string, N>)
    requires Accepted(ar, expression, names) && forall n | n in names :: n in env
    ensures var r := Evaluated(ar, expression, env);
            r.Ok? || r == Err(DivisionByZero) || r == Err(NonFinite)
  {
    AcceptedExactly(ar, expression, names);
    var s :| Reads(expression, s) && forall n | n in Names(SumTree(s)) :: n in names;
    ValueExists(ar, env, SumTree(s));
    RunsTree(ar, env, s);
  }

  /** The text of a tree, printed with minimal parentheses. */
  function Printed(e: Expr): string {
    Render(SumTokens(ToSum(e)))
  }

  /** Every literal of `e` is a numeral and every name an identifier. */
  predicate Writable(e: Expr) {
    match e
    case Lit(raw) => WellFormed(Number(raw))
    case Var(name) => WellFormed(Identifier(name))
    case Neg(x) => Writable(x)
    case Bin(_, l, r) => Writable(l) && Writable(r)
    case Min(a, b) => Writable(a) && Writable(b)
    case Max(a, b) => Writable(a) && Writable(b)
    case Round(x) => Writable(x)
  }

  ghost predicate AllWellFormed(ts: seq<Token>) {
    forall t | t in ts :: WellFormed(t)
  }

  lemma {:induction false} SumWritable(s: Sum)
    requires Writable(SumTree(s))
    ensures AllWellFormed(SumTokens(s))
  {
    match s
    case OneProduct(p) => ProductWritable(p);
    case MoreSum(l, _, r) => SumWritable(l); ProductWritable(r);
  }

  lemma {:induction false} ProductWritable(p: Product)
    requires Writable(ProductTree(p))
    ensures AllWellFormed(ProductTokens(p))
  {
    match p
    case OneUnary(u) => UnaryWritable(u);
    case MoreProduct(l, _, r) => ProductWritable(l); UnaryWritable(r);
  }

  lemma {:induction false} UnaryWritable(u: Unary)
    requires Writable(UnaryTree(u))
    ensures AllWellFormed(UnaryTokens(u))
  {
    PrimaryWritable(u.p);
  }

  lemma {:induction false} PrimaryWritable(p: Primary)
    requires Writable(PrimaryTree(p))
    ensures AllWellFormed(PrimaryTokens(p))
  {
    match p
    case Literal(_) =>
    case Variable(_) =>
    case MinCall(a, b) => SumWritable(a); SumWritable(b);
    case MaxCall(a, b) => SumWritable(a); SumWritable(b);
    case RoundCall(s) => SumWritable(s);
    case Parens(s) => SumWritable(s);
  }

  lemma PrintedReads(e: Expr)
    requires Writable(e)
    ensures Reads(Printed(e), ToSum(e))
  {
    SumWritable(ToSum(e));
    LexRender(SumTokens(ToSum(e)));
  }

  /** From text to number: printing a tree and evaluating the text gives the tree's value. */
  lemma PrintedEvaluates<N>(ar: Arith<N>, env: map<string, N>, e: Expr)
    requires Writable(e)
    ensures Evaluated(ar, Printed(e), env) ==
            match Value(ar, env, e) case Err(x) => Err(x) case Ok(v) => if ar.isFinite(v) then Ok(v) else Err(NonFinite)
  {
    PrintedReads(e);
    PrintedIsRead(ar, env, e);
  }

  /** For a printed tree over the allowed names, acceptance comes down to the divisors at one. */
  lemma PrintedAccepted<N>(ar: Arith<N>, e: Expr, names: seq<string>)
    requires Writable(e) && forall n | n in Names(e) :: n in names
    ensures Accepted(ar, Printed(e), names) <==> DivisorsNonZero(ar, Ones(ar, names), e)
  {
    PrintedReads(e);
    PrintedIsRead(ar, Ones(ar, names), e);
    ValueExists(ar, Ones(ar, names), e);
  }

  /** `1 / (a - b)` is refused at upload in every arithmetic where one minus one is zero, although it
      evaluates for all a and b whose difference is not zero. */
  lemma RefusedThoughItRuns<N>(ar: Arith<N>, env: map<string, N>)
    requires ar.isZero(ar.binary(Sub, ar.one, ar.one))
    requires "a" in env && "b" in env && !ar.isZero(ar.binary(Sub, env["a"], env["b"]))
    requires ar.isFinite(ar.binary(Div, ar.literal("1"), ar.binary(Sub, env["a"], env["b"])))
    ensures var text := Printed(Bin(Div, Lit("1"), Bin(Sub, Var("a"), Var("b"))));
            !Accepted(ar, text, ["a", "b"]) && Evaluated(ar, text, env).Ok?
  {
    var d := Bin(Sub, Var("a"), Var("b"));
    var e := Bin(Div, Lit("1"), d);
    var names := ["a", "b"];
    assert Writable(d) && Writable(e);
    PrintedAccepted(ar, e, names);
    assert d in Divisors(e);
    var ones := Ones(ar, names);
    assert "a" in names && "b" in names;
    assert Value(ar, ones, d) == Ok(ar.binary(Sub, ar.one, ar.one));
    PrintedEvaluates(ar, env, e);
    assert Value(ar, env, d) == Ok(ar.binary(Sub, env["a"], env["b"]));
  }
}
