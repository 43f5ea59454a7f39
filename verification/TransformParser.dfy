/** The recursive-descent parser that evaluates while it reads, as the program runs it: one cursor over
    the tokens, advanced in place. Each method is proved against its function of the tokens still to read. */
module TransformParser {
  import opened TransformGrammar

  class Parser<N> {
    const ar: Arith<N>
    const tokens: seq<Token>
    const variables: map<string, N>
    var pos: nat

    /** The cursor is on a token; EOF stands at the end and only there. */
    ghost predicate Valid()
      reads this
    {
      pos < |tokens| && tokens[|tokens| - 1] == EOF && EOF !in tokens[..|tokens| - 1]
    }

    ghost function Rest(): seq<Token>
      requires Valid()
      reads this
    {
      tokens[pos..|tokens| - 1]
    }

    /** What a parsing method leaves behind, given what its function says of the tokens it started from. */
    ghost predicate Follows<T>(r: Result<T>, expected: Result<(T, seq<Token>)>)
      requires Valid()
      reads this
    {
      match expected
      case Ok((v, rest)) => r == Ok(v) && Rest() == rest
      case Err(e) => r == Err(e)
    }

    constructor (ar: Arith<N>, ts: seq<Token>, variables: map<string, N>)
      requires EOF !in ts
      ensures Valid() && Rest() == ts && this.ar == ar && this.variables == variables
    {
      this.ar := ar;
      this.tokens := ts + [EOF];
      this.variables := variables;
      this.pos := 0;
      new;
      assert tokens[..|tokens| - 1] == ts;
    }

    method PeekToken() returns (t: Token)
      requires Valid()
      ensures t == Peek(Rest()) && t == tokens[pos]
      ensures t == EOF <==> Rest() == []
    {
      t := tokens[pos];
      assert pos < |tokens| - 1 ==> t == tokens[..|tokens| - 1][pos];
    }

    method Consume(expected: Token) returns (r: Result<()>)
      requires Valid() && expected != EOF
      modifies this`pos
      ensures Valid() && old(pos) <= pos
      ensures var e := Expect(old(Rest()), expected);
              if e.Ok? then r == Ok(()) && Rest() == e.value && pos == old(pos) + 1 else r == Err(Syntax)
    {
      var t := PeekToken();
      if t != expected {
        return Err(Syntax);
      }
      assert Rest()[1..] == tokens[pos + 1..|tokens| - 1];
      pos := pos + 1;
      r := Ok(());
    }

    method Advance()
      requires Valid() && Rest() != []
      modifies this`pos
      ensures Valid() && Rest() == old(Rest())[1..] && pos == old(pos) + 1
    {
      pos := pos + 1;
    }

    method Evaluate() returns (r: Result<N>)
      requires Valid()
      modifies this`pos
      ensures Valid() && r == Run(ar, variables, old(Rest()))
    {
      var v :- ParseAdd();
      var t := PeekToken();
      r := if t != EOF then Err(Syntax) else Ok(v);
    }

    method ParseAdd() returns (r: Result<N>)
      requires Valid()
      modifies this`pos
      ensures Valid() && old(pos) <= pos && Follows(r, FSum(ar, variables, old(Rest())))
      decreases |tokens| - pos, 4
    {
      var left :- ParseMul();
      var t := PeekToken();
      while t.Plus? || t.Minus?
        invariant Valid() && old(pos) < pos
        invariant t == Peek(Rest())
        invariant FSum(ar, variables, old(Rest())) == FSumLoop(ar, variables, left, Rest())
        decreases |tokens| - pos
      {
        Advance();
        var right :- ParseMul();
        left := ar.binary(if t.Plus? then Add else Sub, left, right);
        t := PeekToken();
      }
      r := Ok(left);
    }

    method ParseMul() returns (r: Result<N>)
      requires Valid()
      modifies this`pos
      ensures Valid() && old(pos) <= pos && (r.Ok? ==> old(pos) < pos)
      ensures Follows(r, FProduct(ar, variables, old(Rest())))
      decreases |tokens| - pos, 3
    {
      var left :- ParseUnary();
      var t := PeekToken();
      while t.Star? || t.Slash?
        invariant Valid() && old(pos) < pos
        invariant t == Peek(Rest())
        invariant FProduct(ar, variables, old(Rest())) == FProductLoop(ar, variables, left, Rest())
        decreases |tokens| - pos
      {
        Advance();
        var right :- ParseUnary();
        if t.Slash? && ar.isZero(right) {
          return Err(DivisionByZero);
        }
        left := ar.binary(if t.Star? then Mul else Div, left, right);
        t := PeekToken();
      }
      r := Ok(left);
    }

    method ParseUnary() returns (r: Result<N>)
      requires Valid()
      modifies this`pos
      ensures Valid() && old(pos) <= pos && (r.Ok? ==> old(pos) < pos)
      ensures Follows(r, FUnary(ar, variables, old(Rest())))
      decreases |tokens| - pos, 2
    {
      var t := PeekToken();
      if t.Minus? {
        Advance();
        var v :- ParsePrimary();
        r := Ok(ar.neg(v));
      } else {
        r := ParsePrimary();
      }
    }

    method ParsePrimary() returns (r: Result<N>)
      requires Valid()
      modifies this`pos
      ensures Valid() && old(pos) <= pos && (r.Ok? ==> old(pos) < pos)
      ensures Follows(r, FPrimary(ar, variables, old(Rest())))
      decreases |tokens| - pos, 1
    {
      var t := PeekToken();
      match t {
        case Number(raw) =>
          Advance();
          r := Ok(ar.literal(raw));
        case Identifier(name) =>
          Advance();
          r := if name in variables then Ok(variables[name]) else Err(Unbound(name));
        case MathMin =>
          Advance();
          var ab :- ParseTwo();
          r := Ok(ar.min(ab.0, ab.1));
        case MathMax =>
          Advance();
          var ab :- ParseTwo();
          r := Ok(ar.max(ab.0, ab.1));
        case MathRound =>
          Advance();
          var _ :- Consume(LParen);
          var a :- ParseAdd();
          var _ :- Consume(RParen);
          r := Ok(ar.round(a));
        case LParen =>
          Advance();
          var inner :- ParseAdd();
          var _ :- Consume(RParen);
          r := Ok(inner);
        case _ =>
          r := Err(Syntax);
      }
    }

    /** The parenthesised pair of arguments that the min and max cases both read. */
    method ParseTwo() returns (r: Result<(N, N)>)
      requires Valid()
      modifies this`pos
      ensures Valid() && old(pos) <= pos
      ensures match FTwo(ar, variables, old(Rest()))
              case Ok((a, b, rest)) => r == Ok((a, b)) && Rest() == rest
              case Err(e) => r == Err(e)
      decreases |tokens| - pos, 0
    {
      var _ :- Consume(LParen);
      var a :- ParseAdd();
      var _ :- Consume(Comma);
      var b :- ParseAdd();
      var _ :- Consume(RParen);
      r := Ok((a, b));
    }
  }
}
