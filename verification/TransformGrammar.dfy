/** The restricted transform expressions: tokenizer, one-pass parser-evaluator and upload-time validator.

    Numbers are left abstract: an `Arith` supplies the operations, so every statement holds of IEEE
    doubles, of reals and of any other arithmetic. */
module TransformGrammar {

  datatype Error = Forbidden(c: char) | Syntax | Unbound(name: string) | DivisionByZero | NonFinite

  datatype Result<+T> = Ok(value: T) | Err(error: Error) {
    predicate IsFailure() {
      Err?
    }

    function PropagateFailure<U>(): Result<U>
      requires Err?
    {
      Err(error)
    }

    function Extract(): T
      requires Ok?
    {
      value
    }
  }

  datatype Token =
    | Number(raw: string) | Identifier(raw: string)
    | MathMin | MathMax | MathRound
    | Plus | Minus | Star | Slash | LParen | RParen | Comma
    | EOF

  datatype BinOp = Add | Sub | Mul | Div

  datatype Arith<!N> = Arith(
    literal: string -> N, one: N,
    binary: (BinOp, N, N) -> N, neg: N -> N,
    min: (N, N) -> N, max: (N, N) -> N, round: N -> N,
    isZero: N -> bool, isFinite: N -> bool)

  // ----- Syntax trees and their meaning -----

  datatype Expr =
    | Lit(raw: string)
    | Var(name: string)
    | Neg(e: Expr)
    | Bin(op: BinOp, l: Expr, r: Expr)
    | Min(a: Expr, b: Expr)
    | Max(a: Expr, b: Expr)
    | Round(e: Expr)

  /** The value of a tree: operands left to right, and a division by zero fails. */
  function Value<N>(ar: Arith<N>, env: map<string, N>, e: Expr): Result<N> {
    match e
    case Lit(raw) => Ok(ar.literal(raw))
    case Var(name) => if name in env then Ok(env[name]) else Err(Unbound(name))
    case Neg(x) => var v :- Value(ar, env, x); Ok(ar.neg(v))
    case Bin(op, l, r) => var a :- Value(ar, env, l); var b :- Value(ar, env, r); Apply(ar, op, a, b)
    case Min(a, b) => var x :- Value(ar, env, a); var y :- Value(ar, env, b); Ok(ar.min(x, y))
    case Max(a, b) => var x :- Value(ar, env, a); var y :- Value(ar, env, b); Ok(ar.max(x, y))
    case Round(x) => var v :- Value(ar, env, x); Ok(ar.round(v))
  }

  function Apply<N>(ar: Arith<N>, op: BinOp, a: N, b: N): Result<N> {
    if op == Div && ar.isZero(b) then Err(DivisionByZero) else Ok(ar.binary(op, a, b))
  }

  // ----- The grammar, as trees that keep every token -----

  datatype Sum = OneProduct(p: Product) | MoreSum(left: Sum, plus: bool, right: Product)
  datatype Product = OneUnary(u: Unary) | MoreProduct(left: Product, star: bool, right: Unary)
  datatype Unary = Unary(negated: bool, p: Primary)
  datatype Primary =
    | Literal(raw: string)
    | Variable(name: string)
    | MinCall(a: Sum, b: Sum)
    | MaxCall(a: Sum, b: Sum)
    | RoundCall(s: Sum)
    | Parens(s: Sum)

  function SumTokens(s: Sum): seq<Token> {
    match s
    case OneProduct(p) => ProductTokens(p)
    case MoreSum(l, plus, r) => SumTokens(l) + [if plus then Plus else Minus] + ProductTokens(r)
  }

  function ProductTokens(p: Product): seq<Token> {
    match p
    case OneUnary(u) => UnaryTokens(u)
    case MoreProduct(l, star, r) => ProductTokens(l) + [if star then Star else Slash] + UnaryTokens(r)
  }

  function UnaryTokens(u: Unary): seq<Token> {
    (if u.negated then [Minus] else []) + PrimaryTokens(u.p)
  }

  function PrimaryTokens(p: Primary): seq<Token> {
    match p
    case Literal(raw) => [Number(raw)]
    case Variable(name) => [Identifier(name)]
    case MinCall(a, b) => [MathMin, LParen] + SumTokens(a) + [Comma] + SumTokens(b) + [RParen]
    case MaxCall(a, b) => [MathMax, LParen] + SumTokens(a) + [Comma] + SumTokens(b) + [RParen]
    case RoundCall(s) => [MathRound, LParen] + SumTokens(s) + [RParen]
    case Parens(s) => [LParen] + SumTokens(s) + [RParen]
  }

  function SumTree(s: Sum): Expr {
    match s
    case OneProduct(p) => ProductTree(p)
    case MoreSum(l, plus, r) => Bin(if plus then Add else Sub, SumTree(l), ProductTree(r))
  }

  function ProductTree(p: Product): Expr {
    match p
    case OneUnary(u) => UnaryTree(u)
    case MoreProduct(l, star, r) => Bin(if star then Mul else Div, ProductTree(l), UnaryTree(r))
  }

  function UnaryTree(u: Unary): Expr {
    if u.negated then Neg(PrimaryTree(u.p)) else PrimaryTree(u.p)
  }

  function PrimaryTree(p: Primary): Expr {
    match p
    case Literal(raw) => Lit(raw)
    case Variable(name) => Var(name)
    case MinCall(a, b) => Min(SumTree(a), SumTree(b))
    case MaxCall(a, b) => Max(SumTree(a), SumTree(b))
    case RoundCall(s) => Round(SumTree(s))
    case Parens(s) => SumTree(s)
  }

  // ----- The parser-evaluator, as functions of the tokens still to read (the final EOF left off) -----

  function Peek(ts: seq<Token>): Token {
    if ts == [] then EOF else ts[0]
  }

  function FSum<N>(ar: Arith<N>, env: map<string, N>, ts: seq<Token>): (r: Result<(N, seq<Token>)>)
    ensures r.Ok? ==> |r.value.1| < |ts|
    decreases |ts|, 4
  {
    var (v, rest) :- FProduct(ar, env, ts);
    FSumLoop(ar, env, v, rest)
  }

  function FSumLoop<N>(ar: Arith<N>, env: map<string, N>, left: N, ts: seq<Token>): (r: Result<(N, seq<Token>)>)
    ensures r.Ok? ==> |r.value.1| <= |ts|
    decreases |ts|, 0
  {
    if Peek(ts).Plus? || Peek(ts).Minus? then
      var (right, rest) :- FProduct(ar, env, ts[1..]);
      FSumLoop(ar, env, ar.binary(if ts[0].Plus? then Add else Sub, left, right), rest)
    else Ok((left, ts))
  }

  function FProduct<N>(ar: Arith<N>, env: map<string, N>, ts: seq<Token>): (r: Result<(N, seq<Token>)>)
    ensures r.Ok? ==> |r.value.1| < |ts|
    decreases |ts|, 3
  {
    var (v, rest) :- FUnary(ar, env, ts);
    FProductLoop(ar, env, v, rest)
  }

  function FProductLoop<N>(ar: Arith<N>, env: map<string, N>, left: N, ts: seq<Token>): (r: Result<(N, seq<Token>)>)
    ensures r.Ok? ==> |r.value.1| <= |ts|
    decreases |ts|, 0
  {
    if Peek(ts).Star? || Peek(ts).Slash? then
      var (right, rest) :- FUnary(ar, env, ts[1..]);
      var v :- Apply(ar, if ts[0].Star? then Mul else Div, left, right);
      FProductLoop(ar, env, v, rest)
    else Ok((left, ts))
  }

  function FUnary<N>(ar: Arith<N>, env: map<string, N>, ts: seq<Token>): (r: Result<(N, seq<Token>)>)
    ensures r.Ok? ==> |r.value.1| < |ts|
    decreases |ts|, 2
  {
    if Peek(ts).Minus? then
      var (v, rest) :- FPrimary(ar, env, ts[1..]);
      Ok((ar.neg(v), rest))
    else FPrimary(ar, env, ts)
  }

  function FPrimary<N>(ar: Arith<N>, env: map<string, N>, ts: seq<Token>): (r: Result<(N, seq<Token>)>)
    ensures r.Ok? ==> |r.value.1| < |ts|
    decreases |ts|, 1
  {
    match Peek(ts)
    case Number(raw) => Ok((ar.literal(raw), ts[1..]))
    case Identifier(name) => if name in env then Ok((env[name], ts[1..])) else Err(Unbound(name))
    case MathMin =>
      var (a, b, rest) :- FTwo(ar, env, ts[1..]);
      Ok((ar.min(a, b), rest))
    case MathMax =>
      var (a, b, rest) :- FTwo(ar, env, ts[1..]);
      Ok((ar.max(a, b), rest))
    case MathRound =>
      var rest0 :- Expect(ts[1..], LParen);
      var (a, rest1) :- FSum(ar, env, rest0);
      var rest2 :- Expect(rest1, RParen);
      Ok((ar.round(a), rest2))
    case LParen =>
      var (a, rest1) :- FSum(ar, env, ts[1..]);
      var rest2 :- Expect(rest1, RParen);
      Ok((a, rest2))
    case _ => Err(Syntax)
  }

  /** The two arguments of min and max, with their parentheses. */
  function FTwo<N>(ar: Arith<N>, env: map<string, N>, ts: seq<Token>): (r: Result<(N, N, seq<Token>)>)
    ensures r.Ok? ==> |r.value.2| < |ts|
    decreases |ts|, 0
  {
    var rest0 :- Expect(ts, LParen);
    var (a, rest1) :- FSum(ar, env, rest0);
    var rest2 :- Expect(rest1, Comma);
    var (b, rest3) :- FSum(ar, env, rest2);
    var rest4 :- Expect(rest3, RParen);
    Ok((a, b, rest4))
  }

  function Expect(ts: seq<Token>, t: Token): (r: Result<seq<Token>>)
    requires t != EOF
    ensures r.Ok? ==> ts == [t] + r.value
  {
    if Peek(ts) == t then Ok(ts[1..]) else Err(Syntax)
  }

  /** The whole token list is one expression. */
  function Run<N>(ar: Arith<N>, env: map<string, N>, ts: seq<Token>): Result<N> {
    var (v, rest) :- FSum(ar, env, ts);
    if rest == [] then Ok(v) else Err(Syntax)
  }

  // ----- Completeness: every tree of the grammar is read back with its value -----

  predicate EndsProduct(ts: seq<Token>) {
    !Peek(ts).Star? && !Peek(ts).Slash?
  }

  /** A value followed by what a parser does with it. */
  function Then<N>(v: Result<N>, rest: seq<Token>): Result<(N, seq<Token>)> {
    if v.Ok? then Ok((v.value, rest)) else Err(v.error)
  }

  lemma {:induction false} ReadSum<N>(ar: Arith<N>, env: map<string, N>, s: Sum, rest: seq<Token>)
    requires EndsProduct(rest)
    ensures FSum(ar, env, SumTokens(s) + rest) ==
            match Value(ar, env, SumTree(s)) case Ok(v) => FSumLoop(ar, env, v, rest) case Err(e) => Err(e)
    decreases s, 1
  {
    match s
    case OneProduct(p) => ReadProductAll(ar, env, p, rest);
    case MoreSum(l, plus, r) =>
      var op := if plus then Plus else Minus;
      var rest' := [op] + ProductTokens(r) + rest;
      assert SumTokens(s) + rest == SumTokens(l) + rest';
      ReadSum(ar, env, l, rest');
      assert rest'[1..] == ProductTokens(r) + rest;
      ReadProductAll(ar, env, r, rest);
  }

  lemma {:induction false} ReadProductAll<N>(ar: Arith<N>, env: map<string, N>, p: Product, rest: seq<Token>)
    requires EndsProduct(rest)
    ensures FProduct(ar, env, ProductTokens(p) + rest) == Then(Value(ar, env, ProductTree(p)), rest)
    decreases p, 2
  {
    ReadProduct(ar, env, p, rest);
  }

  lemma {:induction false} ReadProduct<N>(ar: Arith<N>, env: map<string, N>, p: Product, rest: seq<Token>)
    ensures FProduct(ar, env, ProductTokens(p) + rest) ==
            match Value(ar, env, ProductTree(p)) case Ok(v) => FProductLoop(ar, env, v, rest) case Err(e) => Err(e)
    decreases p, 1
  {
    match p
    case OneUnary(u) => ReadUnary(ar, env, u, rest);
    case MoreProduct(l, star, r) =>
      var op := if star then Star else Slash;
      var rest' := [op] + UnaryTokens(r) + rest;
      assert ProductTokens(p) + rest == ProductTokens(l) + rest';
      ReadProduct(ar, env, l, rest');
      assert rest'[1..] == UnaryTokens(r) + rest;
      ReadUnary(ar, env, r, rest);
  }

  lemma {:induction false} ReadUnary<N>(ar: Arith<N>, env: map<string, N>, u: Unary, rest: seq<Token>)
    ensures FUnary(ar, env, UnaryTokens(u) + rest) == Then(Value(ar, env, UnaryTree(u)), rest)
    decreases u, 1
  {
    ReadPrimary(ar, env, u.p, rest);
    if u.negated {
      assert (UnaryTokens(u) + rest)[1..] == PrimaryTokens(u.p) + rest;
    } else {
      assert UnaryTokens(u) == PrimaryTokens(u.p);
    }
  }

  lemma {:induction false} ReadPrimary<N>(ar: Arith<N>, env: map<string, N>, p: Primary, rest: seq<Token>)
    ensures FPrimary(ar, env, PrimaryTokens(p) + rest) == Then(Value(ar, env, PrimaryTree(p)), rest)
    ensures !Peek(PrimaryTokens(p) + rest).Minus?
    decreases p, 1
  {
    match p
    case Literal(raw) => assert ([Number(raw)] + rest)[1..] == rest;
    case Variable(name) => assert ([Identifier(name)] + rest)[1..] == rest;
    case MinCall(a, b) => ReadTwo(ar, env, p, rest);
    case MaxCall(a, b) => ReadTwo(ar, env, p, rest);
    case RoundCall(s) =>
      var ts := PrimaryTokens(p) + rest;
      assert ts[1..] == [LParen] + (SumTokens(s) + ([RParen] + rest));
      assert ts[1..][1..] == SumTokens(s) + ([RParen] + rest);
      ReadSum(ar, env, s, [RParen] + rest);
      assert ([RParen] + rest)[1..] == rest;
    case Parens(s) =>
      var ts := PrimaryTokens(p) + rest;
      assert ts[1..] == SumTokens(s) + ([RParen] + rest);
      ReadSum(ar, env, s, [RParen] + rest);
      assert ([RParen] + rest)[1..] == rest;
  }

  lemma {:induction false} ReadTwo<N>(ar: Arith<N>, env: map<string, N>, p: Primary, rest: seq<Token>)
    requires p.MinCall? || p.MaxCall?
    ensures FTwo(ar, env, (PrimaryTokens(p) + rest)[1..]) ==
            match Value(ar, env, SumTree(p.a)) { case Err(e) => Err(e) case Ok(x) =>
            match Value(ar, env, SumTree(p.b)) { case Err(e) => Err(e) case Ok(y) => Ok((x, y, rest)) } }
    decreases p, 0
  {
    var afterB := [RParen] + rest;
    var afterA := [Comma] + (SumTokens(p.b) + afterB);
    var ts := (PrimaryTokens(p) + rest)[1..];
    assert ts == [LParen] + (SumTokens(p.a) + afterA);
    assert ts[1..] == SumTokens(p.a) + afterA;
    ReadSum(ar, env, p.a, afterA);
    assert afterA[1..] == SumTokens(p.b) + afterB;
    ReadSum(ar, env, p.b, afterB);
    assert afterB[1..] == rest;
  }

  // ----- Soundness: whatever is accepted is a tree of the grammar, and the result is its value -----

  /** `s` accounts for the tokens read from `ts` up to `rest`, and has value `v`. */
  ghost predicate SumReads<N>(ar: Arith<N>, env: map<string, N>, s: Sum, ts: seq<Token>, v: N, rest: seq<Token>) {
    ts == SumTokens(s) + rest && Value(ar, env, SumTree(s)) == Ok(v)
  }

  ghost predicate ProductReads<N>(ar: Arith<N>, env: map<string, N>, p: Product, ts: seq<Token>, v: N,
                                  rest: seq<Token>) {
    ts == ProductTokens(p) + rest && Value(ar, env, ProductTree(p)) == Ok(v)
  }

  lemma MoreTokens(left: seq<Token>, op: Token, right: seq<Token>, rest: seq<Token>)
    ensures left + ([op] + (right + rest)) == left + [op] + right + rest
  {
  }

  lemma {:induction false} SumFound<N>(ar: Arith<N>, env: map<string, N>, ts: seq<Token>) returns (s: Sum)
    requires FSum(ar, env, ts).Ok?
    ensures var (v, rest) := FSum(ar, env, ts).value; SumReads(ar, env, s, ts, v, rest)
    decreases |ts|, 4
  {
    var p := ProductFound(ar, env, ts);
    var (v, rest) := FProduct(ar, env, ts).value;
    assert SumTree(OneProduct(p)) == ProductTree(p);
    s := SumLoopFound(ar, env, OneProduct(p), v, ts, rest);
  }

  lemma {:induction false} SumLoopFound<N>(ar: Arith<N>, env: map<string, N>, s0: Sum, left: N, all: seq<Token>,
                                           ts: seq<Token>)
      returns (s: Sum)
    requires SumReads(ar, env, s0, all, left, ts) && FSumLoop(ar, env, left, ts).Ok?
    ensures var (v, rest) := FSumLoop(ar, env, left, ts).value; SumReads(ar, env, s, all, v, rest)
    decreases |ts|, 0
  {
    s := s0;
    if Peek(ts).Plus? || Peek(ts).Minus? {
      var p := ProductFound(ar, env, ts[1..]);
      var (right, rest) := FProduct(ar, env, ts[1..]).value;
      var s1 := MoreSum(s0, ts[0].Plus?, p);
      assert ts == [ts[0]] + (ProductTokens(p) + rest);
      MoreTokens(SumTokens(s0), ts[0], ProductTokens(p), rest);
      s := SumLoopFound(ar, env, s1, ar.binary(if ts[0].Plus? then Add else Sub, left, right), all, rest);
    }
  }

  lemma {:induction false} ProductFound<N>(ar: Arith<N>, env: map<string, N>, ts: seq<Token>) returns (p: Product)
    requires FProduct(ar, env, ts).Ok?
    ensures var (v, rest) := FProduct(ar, env, ts).value; ProductReads(ar, env, p, ts, v, rest)
    decreases |ts|, 3
  {
    var u := UnaryFound(ar, env, ts);
    var (v, rest) := FUnary(ar, env, ts).value;
    assert ProductTree(OneUnary(u)) == UnaryTree(u);
    p := ProductLoopFound(ar, env, OneUnary(u), v, ts, rest);
  }

  lemma {:induction false} ProductLoopFound<N>(ar: Arith<N>, env: map<string, N>, p0: Product, left: N, all: seq<Token>,
                                               ts: seq<Token>)
      returns (p: Product)
    requires ProductReads(ar, env, p0, all, left, ts) && FProductLoop(ar, env, left, ts).Ok?
    ensures var (v, rest) := FProductLoop(ar, env, left, ts).value; ProductReads(ar, env, p, all, v, rest)
    decreases |ts|, 0
  {
    p := p0;
    if Peek(ts).Star? || Peek(ts).Slash? {
      var u := UnaryFound(ar, env, ts[1..]);
      var (right, rest) := FUnary(ar, env, ts[1..]).value;
      var p1 := MoreProduct(p0, ts[0].Star?, u);
      assert ts == [ts[0]] + (UnaryTokens(u) + rest);
      MoreTokens(ProductTokens(p0), ts[0], UnaryTokens(u), rest);
      p := ProductLoopFound(ar, env, p1, Apply(ar, if ts[0].Star? then Mul else Div, left, right).value, all, rest);
    }
  }

  lemma {:induction false} UnaryFound<N>(ar: Arith<N>, env: map<string, N>, ts: seq<Token>) returns (u: Unary)
    requires FUnary(ar, env, ts).Ok?
    ensures var (v, rest) := FUnary(ar, env, ts).value;
            ts == UnaryTokens(u) + rest && Value(ar, env, UnaryTree(u)) == Ok(v)
    decreases |ts|, 2
  {
    if Peek(ts).Minus? {
      var p := PrimaryFound(ar, env, ts[1..]);
      u := Unary(true, p);
      OneMore(ts, PrimaryTokens(p), FPrimary(ar, env, ts[1..]).value.1);
    } else {
      var p := PrimaryFound(ar, env, ts);
      u := Unary(false, p);
      assert UnaryTokens(u) == PrimaryTokens(p);
    }
  }

  lemma {:induction false} PrimaryFound<N>(ar: Arith<N>, env: map<string, N>, ts: seq<Token>) returns (p: Primary)
    requires FPrimary(ar, env, ts).Ok?
    ensures var (v, rest) := FPrimary(ar, env, ts).value;
            ts == PrimaryTokens(p) + rest && Value(ar, env, PrimaryTree(p)) == Ok(v)
    decreases |ts|, 1
  {
    var t := Peek(ts);
    if t.Number? {
      p := Literal(t.raw);
    } else if t.Identifier? {
      p := Variable(t.raw);
    } else if t.MathMin? || t.MathMax? {
      p := CallFound(ar, env, ts);
    } else {
      p := GroupFound(ar, env, ts);
    }
  }

  lemma {:induction false} GroupFound<N>(ar: Arith<N>, env: map<string, N>, ts: seq<Token>) returns (p: Primary)
    requires FPrimary(ar, env, ts).Ok? && (Peek(ts).MathRound? || Peek(ts).LParen?)
    ensures var (v, rest) := FPrimary(ar, env, ts).value;
            ts == PrimaryTokens(p) + rest && Value(ar, env, PrimaryTree(p)) == Ok(v)
    decreases |ts|, 0
  {
    var inner := if Peek(ts).MathRound? then ts[1..][1..] else ts[1..];
    var s := SumFound(ar, env, inner);
    var rest := FSum(ar, env, inner).value.1;
    assert rest == [RParen] + rest[1..];
    if Peek(ts).MathRound? {
      p := RoundCall(s);
      assert ts == [ts[0]] + ([ts[1]] + inner);
    } else {
      p := Parens(s);
      assert ts == [ts[0]] + inner;
    }
    GroupTokens(p, s, rest[1..]);
  }

  lemma GroupTokens(p: Primary, s: Sum, rest: seq<Token>)
    requires p == RoundCall(s) || p == Parens(s)
    ensures PrimaryTokens(p) + rest ==
            (if p.RoundCall? then [MathRound] + ([LParen] + (SumTokens(s) + ([RParen] + rest)))
             else [LParen] + (SumTokens(s) + ([RParen] + rest)))
  {
  }

  lemma {:induction false} CallFound<N>(ar: Arith<N>, env: map<string, N>, ts: seq<Token>) returns (p: Primary)
    requires FPrimary(ar, env, ts).Ok? && (Peek(ts).MathMin? || Peek(ts).MathMax?)
    ensures var (v, rest) := FPrimary(ar, env, ts).value;
            ts == PrimaryTokens(p) + rest && Value(ar, env, PrimaryTree(p)) == Ok(v)
    decreases |ts|, 0
  {
    var (x, y, rest) := FTwo(ar, env, ts[1..]).value;
    var a, b := TwoFound(ar, env, ts[1..]);
    p := if Peek(ts).MathMin? then MinCall(a, b) else MaxCall(a, b);
    CallTokens(Peek(ts).MathMin?, a, b);
    OneMore(ts, TwoTokens(a, b), rest);
  }

  lemma CallTokens(min: bool, a: Sum, b: Sum)
    ensures PrimaryTokens(if min then MinCall(a, b) else MaxCall(a, b)) ==
            [if min then MathMin else MathMax] + TwoTokens(a, b)
  {
  }

  lemma OneMore(ts: seq<Token>, front: seq<Token>, rest: seq<Token>)
    requires ts != [] && ts[1..] == front + rest
    ensures ts == [ts[0]] + front + rest
  {
    assert ts == [ts[0]] + ts[1..];
  }

  function TwoTokens(a: Sum, b: Sum): seq<Token> {
    [LParen] + (SumTokens(a) + ([Comma] + (SumTokens(b) + [RParen])))
  }

  lemma {:induction false} TwoFound<N>(ar: Arith<N>, env: map<string, N>, ts: seq<Token>) returns (a: Sum, b: Sum)
    requires FTwo(ar, env, ts).Ok?
    ensures var (x, y, rest) := FTwo(ar, env, ts).value;
            ts == TwoTokens(a, b) + rest && Value(ar, env, SumTree(a)) == Ok(x) && Value(ar, env, SumTree(b)) == Ok(y)
    decreases |ts|, 0
  {
    var (x, y, rest) := FTwo(ar, env, ts).value;
    a := SumFound(ar, env, ts[1..]);
    var rest1 := FSum(ar, env, ts[1..]).value.1;
    b := SumFound(ar, env, rest1[1..]);
    var rest3 := FSum(ar, env, rest1[1..]).value.1;
    assert rest3 == [RParen] + rest;
    assert rest1 == [Comma] + (SumTokens(b) + rest3);
    assert ts == [LParen] + (SumTokens(a) + rest1);
  }

  // ----- What the parser computes -----

  /** On the tokens of a tree the parser gives the tree's value, or the failure of evaluating it. */
  lemma {:induction false} RunsTree<N>(ar: Arith<N>, env: map<string, N>, s: Sum)
    ensures Run(ar, env, SumTokens(s)) == Value(ar, env, SumTree(s))
  {
    assert SumTokens(s) + [] == SumTokens(s);
    ReadSum(ar, env, s, []);
  }

  /** Success means exactly that the tokens are those of some tree of the grammar, with that value. */
  lemma {:induction false} RunsExactlyTheGrammar<N>(ar: Arith<N>, env: map<string, N>, ts: seq<Token>, v: N)
    ensures Run(ar, env, ts) == Ok(v) <==>
            exists s :: ts == SumTokens(s) && Value(ar, env, SumTree(s)) == Ok(v)
  {
    if Run(ar, env, ts) == Ok(v) {
      var s := SumFound(ar, env, ts);
      assert SumTokens(s) + [] == SumTokens(s);
    }
    forall s | ts == SumTokens(s) ensures Run(ar, env, ts) == Value(ar, env, SumTree(s)) {
      RunsTree(ar, env, s);
    }
  }
}
