/** What each token does in an expression, and some expressions from text to value. */
module TransformMeaning {
  import opened TransformGrammar
  import opened TransformLexer
  import opened TransformTokens
  import opened TransformExpression

  /** Two operands, left before right; a division by zero fails. */
  function Both<N>(ar: Arith<N>, op: BinOp, a: Result<N>, b: Result<N>): Result<N> {
    match (a, b)
    case (Ok(x), Ok(y)) => if op.Div? && ar.isZero(y) then Err(DivisionByZero) else Ok(ar.binary(op, x, y))
    case (Ok(_), Err(e)) => Err(e)
    case (Err(e), _) => Err(e)
  }

  function RunSum<N>(ar: Arith<N>, env: map<string, N>, s: Sum): Result<N> {
    Run(ar, env, SumTokens(s))
  }

  function RunProduct<N>(ar: Arith<N>, env: map<string, N>, p: Product): Result<N> {
    Run(ar, env, ProductTokens(p))
  }

  function RunUnary<N>(ar: Arith<N>, env: map<string, N>, u: Unary): Result<N> {
    Run(ar, env, UnaryTokens(u))
  }

  function RunPrimary<N>(ar: Arith<N>, env: map<string, N>, p: Primary): Result<N> {
    Run(ar, env, PrimaryTokens(p))
  }

  lemma OneUnaryIs(u: Unary)
    ensures SumTokens(OneProduct(OneUnary(u))) == UnaryTokens(u) && SumTree(OneProduct(OneUnary(u))) == UnaryTree(u)
  {
    assert ProductTokens(OneUnary(u)) == UnaryTokens(u) && ProductTree(OneUnary(u)) == UnaryTree(u);
  }

  lemma RunsAre<N>(ar: Arith<N>, env: map<string, N>)
    ensures forall s :: RunSum(ar, env, s) == Value(ar, env, SumTree(s))
    ensures forall p :: RunProduct(ar, env, p) == Value(ar, env, ProductTree(p))
    ensures forall u :: RunUnary(ar, env, u) == Value(ar, env, UnaryTree(u))
    ensures forall p :: RunPrimary(ar, env, p) == Value(ar, env, PrimaryTree(p))
  {
    forall s ensures RunSum(ar, env, s) == Value(ar, env, SumTree(s)) {
      RunsTree(ar, env, s);
    }
    forall p ensures RunProduct(ar, env, p) == Value(ar, env, ProductTree(p)) {
      RunsTree(ar, env, OneProduct(p));
    }
    forall u ensures RunUnary(ar, env, u) == Value(ar, env, UnaryTree(u)) {
      RunsTree(ar, env, OneProduct(OneUnary(u)));
      OneUnaryIs(u);
    }
    forall p ensures RunPrimary(ar, env, p) == Value(ar, env, PrimaryTree(p)) {
      var u := Unary(false, p);
      RunsTree(ar, env, OneProduct(OneUnary(u)));
      OneUnaryIs(u);
      assert UnaryTokens(u) == PrimaryTokens(p);
    }
  }

  /** A plus adds the product after it to all that stands before it, and a minus takes it away. */
  lemma SumsMean<N>(ar: Arith<N>, env: map<string, N>, s: Sum, p: Product)
    ensures Run(ar, env, SumTokens(s) + [Plus] + ProductTokens(p)) ==
            Both(ar, Add, RunSum(ar, env, s), RunProduct(ar, env, p))
    ensures Run(ar, env, SumTokens(s) + [Minus] + ProductTokens(p)) ==
            Both(ar, Sub, RunSum(ar, env, s), RunProduct(ar, env, p))
  {
    RunsAre(ar, env);
    RunsTree(ar, env, MoreSum(s, true, p));
    RunsTree(ar, env, MoreSum(s, false, p));
  }

  /** A star multiplies all of the product before it by what follows, and a slash divides it. */
  lemma ProductsMean<N>(ar: Arith<N>, env: map<string, N>, p: Product, u: Unary)
    ensures Run(ar, env, ProductTokens(p) + [Star] + UnaryTokens(u)) ==
            Both(ar, Mul, RunProduct(ar, env, p), RunUnary(ar, env, u))
    ensures Run(ar, env, ProductTokens(p) + [Slash] + UnaryTokens(u)) ==
            Both(ar, Div, RunProduct(ar, env, p), RunUnary(ar, env, u))
  {
    RunsAre(ar, env);
    RunsTree(ar, env, OneProduct(MoreProduct(p, true, u)));
    RunsTree(ar, env, OneProduct(MoreProduct(p, false, u)));
  }

  function Mapped<N>(f: N -> N, a: Result<N>): Result<N> {
    match a case Ok(x) => Ok(f(x)) case Err(e) => Err(e)
  }

  function MappedBoth<N>(f: (N, N) -> N, a: Result<N>, b: Result<N>): Result<N> {
    match (a, b)
    case (Ok(x), Ok(y)) => Ok(f(x, y))
    case (Ok(_), Err(e)) => Err(e)
    case (Err(e), _) => Err(e)
  }

  /** A minus in front negates, parentheses group, numbers are literals and names are looked up. */
  lemma OperandsMean<N>(ar: Arith<N>, env: map<string, N>, p: Primary, s: Sum, raw: string)
    ensures Run(ar, env, [Minus] + PrimaryTokens(p)) == Mapped(ar.neg, RunPrimary(ar, env, p))
    ensures Run(ar, env, [LParen] + SumTokens(s) + [RParen]) == RunSum(ar, env, s)
    ensures Run(ar, env, [Number(raw)]) == Ok(ar.literal(raw))
    ensures Run(ar, env, [Identifier(raw)]) == if raw in env then Ok(env[raw]) else Err(Unbound(raw))
  {
    RunsAre(ar, env);
    var u := Unary(true, p);
    RunsTree(ar, env, OneProduct(OneUnary(u)));
    OneUnaryIs(u);
    assert UnaryTokens(u) == [Minus] + PrimaryTokens(p);
    assert RunPrimary(ar, env, Parens(s)) == Value(ar, env, PrimaryTree(Parens(s)));
    assert RunPrimary(ar, env, Literal(raw)) == Value(ar, env, PrimaryTree(Literal(raw)));
    assert RunPrimary(ar, env, Variable(raw)) == Value(ar, env, PrimaryTree(Variable(raw)));
  }

  /** The three functions. */
  lemma CallsMean<N>(ar: Arith<N>, env: map<string, N>, a: Sum, b: Sum)
    ensures Run(ar, env, [MathMin, LParen] + SumTokens(a) + [Comma] + SumTokens(b) + [RParen]) ==
            MappedBoth(ar.min, RunSum(ar, env, a), RunSum(ar, env, b))
    ensures Run(ar, env, [MathMax, LParen] + SumTokens(a) + [Comma] + SumTokens(b) + [RParen]) ==
            MappedBoth(ar.max, RunSum(ar, env, a), RunSum(ar, env, b))
    ensures Run(ar, env, [MathRound, LParen] + SumTokens(a) + [RParen]) == Mapped(ar.round, RunSum(ar, env, a))
  {
    RunsAre(ar, env);
    assert RunPrimary(ar, env, MinCall(a, b)) == Value(ar, env, PrimaryTree(MinCall(a, b)));
    assert RunPrimary(ar, env, MaxCall(a, b)) == Value(ar, env, PrimaryTree(MaxCall(a, b)));
    assert RunPrimary(ar, env, RoundCall(a)) == Value(ar, env, PrimaryTree(RoundCall(a)));
  }

  // ----- From text to value -----

  function Finished<N>(ar: Arith<N>, r: Result<N>): Result<N> {
    if r.Ok? && !ar.isFinite(r.value) then Err(NonFinite) else r
  }

  predicate Operator(op: string, t: Token) {
    (op == "+" && t == Plus) || (op == "-" && t == Minus) || (op == "*" && t == Star) || (op == "/" && t == Slash)
  }

  /** A name ends before anything but a word character and a point. */
  lemma NameEnds(name: string, rest: string)
    requires Name(name) && rest != "" && !WordChar(rest[0]) && rest[0] != '.'
    ensures Ends(Identifier(name), rest)
  {
    var s, k := name + rest, if |name| <= 4 then |name| else 4;
    assert s[k] == if |name| <= 4 then rest[0] else name[k];
    assert WordChar('M') && WordChar('a') && WordChar('t') && WordChar('h') && !WordChar('.');
    assert s[k] != "Math.min"[k] && s[k] != "Math.max"[k] && s[k] != "Math.round"[k];
  }

  lemma OperatorRead(name: string, op: string, t: Token, rest: string)
    requires Name(name) && Operator(op, t)
    ensures Lex(name + (op + rest)) == Prefixed([Identifier(name)], Prefixed([t], Lex(rest)))
  {
    assert (op + rest)[0] == op[0];
    NameEnds(name, op + rest);
    ReadInFull(op, t, rest);
    ReadInFull(name, Identifier(name), op + rest);
  }

  /** A name, an operator without spaces, and a decimal fraction. */
  lemma TextIsTokens(name: string, op: string, t: Token, number: string)
    requires Name(name) && Operator(op, t) && Lex(number) == Ok([Number(number)])
    ensures Lex(name + op + number) == Ok([Identifier(name), t, Number(number)])
  {
    OperatorRead(name, op, t, number);
    PrefixedThree(Identifier(name), t, Number(number));
    assert name + op + number == name + (op + number);
  }

  lemma PrefixedThree(a: Token, b: Token, c: Token)
    ensures Prefixed([a], Prefixed([b], Ok([c]))) == Ok([a, b, c])
  {
    assert [a] + ([b] + [c]) == [a, b, c];
  }

  /** `value * 0.01` and its like: the name's value, the operation, and the literal as written. */
  lemma ScaledText<N>(ar: Arith<N>, name: string, d: string, f: string, env: map<string, N>)
    requires Name(name) && name in env && Digits(d) && Digits(f)
    ensures var number := d + "." + f;
            var x, y := env[name], ar.literal(number);
            Evaluated(ar, name + "+" + number, env) == Finished(ar, Ok(ar.binary(Add, x, y))) &&
            Evaluated(ar, name + "-" + number, env) == Finished(ar, Ok(ar.binary(Sub, x, y))) &&
            Evaluated(ar, name + "*" + number, env) == Finished(ar, Ok(ar.binary(Mul, x, y))) &&
            Evaluated(ar, name + "/" + number, env) ==
            if ar.isZero(y) then Err(DivisionByZero) else Finished(ar, Ok(ar.binary(Div, x, y)))
  {
    ScaledBy(ar, name, "+", Plus, Add, d, f, env);
    ScaledBy(ar, name, "-", Minus, Sub, d, f, env);
    ScaledBy(ar, name, "*", Star, Mul, d, f, env);
    ScaledBy(ar, name, "/", Slash, Div, d, f, env);
  }

  lemma ScaledBy<N>(ar: Arith<N>, name: string, op: string, t: Token, binary: BinOp, d: string, f: string,
                    env: map<string, N>)
    requires Name(name) && name in env && Digits(d) && Digits(f) && Operator(op, t)
    requires (t, binary) in {(Plus, Add), (Minus, Sub), (Star, Mul), (Slash, Div)}
    ensures Evaluated(ar, name + op + (d + "." + f), env) ==
            Finished(ar, Both(ar, binary, Ok(env[name]), Ok(ar.literal(d + "." + f))))
  {
    NumbersAreRead(d, f);
    TextIsTokens(name, op, t, d + "." + f);
    TwoOperands(ar, name, t, binary, d + "." + f, env);
  }

  lemma TwoOperands<N>(ar: Arith<N>, name: string, t: Token, binary: BinOp, number: string, env: map<string, N>)
    requires name in env && (t, binary) in {(Plus, Add), (Minus, Sub), (Star, Mul), (Slash, Div)}
    ensures Run(ar, env, [Identifier(name), t, Number(number)]) ==
            Both(ar, binary, Ok(env[name]), Ok(ar.literal(number)))
  {
    var x, y := Unary(false, Variable(name)), Unary(false, Literal(number));
    assert UnaryTokens(x) == [Identifier(name)] && UnaryTokens(y) == [Number(number)];
    assert [Identifier(name)] + [t] + [Number(number)] == [Identifier(name), t, Number(number)];
    OperandsMean(ar, env, Variable(name), OneProduct(OneUnary(x)), name);
    OperandsMean(ar, env, Variable(name), OneProduct(OneUnary(x)), number);
    if t == Plus || t == Minus {
      SumsMean(ar, env, OneProduct(OneUnary(x)), OneUnary(y));
    } else {
      ProductsMean(ar, env, OneUnary(x), y);
    }
  }
}
