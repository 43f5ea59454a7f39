/** The tokenizer of transform expressions, and its round trip with printed tokens. */
module TransformLexer {
  import opened Text
  import opened TransformGrammar

  predicate IsDigit(c: char) {
    '0' <= c <= '9'
  }

  predicate IsIdStart(c: char) {
    'a' <= c <= 'z' || 'A' <= c <= 'Z' || c == '_'
  }

  predicate IsWord(c: char) {
    IsIdStart(c) || IsDigit(c)
  }

  function DigitsLen(s: string): (n: nat)
    ensures n <= |s|
    ensures forall i | 0 <= i < n :: IsDigit(s[i])
    ensures n < |s| ==> !IsDigit(s[n])
  {
    if s == "" || !IsDigit(s[0]) then 0 else 1 + DigitsLen(s[1..])
  }

  function WordLen(s: string): (n: nat)
    ensures n <= |s|
    ensures forall i | 0 <= i < n :: IsWord(s[i])
    ensures n < |s| ==> !IsWord(s[n])
  {
    if s == "" || !IsWord(s[0]) then 0 else 1 + WordLen(s[1..])
  }

  /** The length of the match of `[0-9]+(\.[0-9]+)?` at the start of `s`; 0 when there is none. */
  function NumberLen(s: string): (n: nat)
    ensures n <= |s|
  {
    var d := DigitsLen(s);
    if d == 0 || d == |s| || s[d] != '.' then d
    else
      var f := DigitsLen(s[d + 1..]);
      if f == 0 then d else d + 1 + f
  }

  /** The length of the match of `[a-zA-Z_][a-zA-Z0-9_]*` at the start of `s`; 0 when there is none. */
  function IdentifierLen(s: string): (n: nat)
    ensures n <= |s|
  {
    if s == "" || !IsIdStart(s[0]) then 0 else WordLen(s)
  }

  /** The token at the start of `s` and its length. The three functions are tried before identifiers,
      by their spelling alone. */
  function NextToken(s: string): (r: Result<(Token, nat)>)
    requires s != ""
    ensures r.Ok? ==> 0 < r.value.1 <= |s|
  {
    if NumberLen(s) > 0 then Ok((Number(s[..NumberLen(s)]), NumberLen(s)))
    else if "Math.min" <= s then Ok((MathMin, 8))
    else if "Math.max" <= s then Ok((MathMax, 8))
    else if "Math.round" <= s then Ok((MathRound, 10))
    else if IdentifierLen(s) > 0 then Ok((Identifier(s[..IdentifierLen(s)]), IdentifierLen(s)))
    else match s[0]
      case '+' => Ok((Plus, 1))
      case '-' => Ok((Minus, 1))
      case '*' => Ok((Star, 1))
      case '/' => Ok((Slash, 1))
      case '(' => Ok((LParen, 1))
      case ')' => Ok((RParen, 1))
      case ',' => Ok((Comma, 1))
      case c => Err(Forbidden(c))
  }

  /** The tokens of `s`, without the final EOF. */
  function Lex(s: string): Result<seq<Token>>
    decreases |s|
  {
    if s == "" then Ok([])
    else if IsSpace(s[0]) then Lex(s[1..])
    else
      var (t, n) :- NextToken(s);
      Prefixed([t], Lex(s[n..]))
  }

  function Prefixed(pre: seq<Token>, r: Result<seq<Token>>): Result<seq<Token>> {
    var ts :- r;
    Ok(pre + ts)
  }

  lemma PrefixedNothing(r: Result<seq<Token>>)
    ensures Prefixed([], r) == r
  {
    if r.Ok? {
      assert [] + r.value == r.value;
    }
  }

  lemma PrefixedTwice(a: seq<Token>, b: seq<Token>, r: Result<seq<Token>>)
    ensures Prefixed(a, Prefixed(b, r)) == Prefixed(a + b, r)
  {
    if r.Ok? {
      assert a + (b + r.value) == (a + b) + r.value;
    }
  }

  lemma SpaceStep(input: string, i: nat)
    requires i < |input| && IsSpace(input[i])
    ensures Lex(input[i..]) == Lex(input[i + 1..])
  {
    assert input[i..][1..] == input[i + 1..];
  }

  lemma ErrorStep(input: string, i: nat, tokens: seq<Token>)
    requires i < |input| && !IsSpace(input[i]) && NextToken(input[i..]).Err?
    ensures Prefixed(tokens, Lex(input[i..])) == Err(NextToken(input[i..]).error)
  {
  }

  lemma LexToken(s: string, t: Token, n: nat)
    requires s != "" && !IsSpace(s[0]) && NextToken(s) == Ok((t, n))
    ensures 0 < n <= |s| && Lex(s) == Prefixed([t], Lex(s[n..]))
  {
  }

  lemma Suffix(input: string, i: nat, n: nat)
    requires i + n <= |input|
    ensures input[i..][n..] == input[i + n..]
  {
  }

  lemma TokenStep(input: string, i: nat, tokens: seq<Token>, t: Token, n: nat)
    requires i < |input| && !IsSpace(input[i]) && NextToken(input[i..]) == Ok((t, n))
    ensures 0 < n && i + n <= |input|
    ensures Prefixed(tokens, Lex(input[i..])) == Prefixed(tokens + [t], Lex(input[i + n..]))
  {
    LexToken(input[i..], t, n);
    Suffix(input, i, n);
    PrefixedTwice(tokens, [t], Lex(input[i + n..]));
  }

  /** The text up to `i` has given `tokens`, and the rest is still to read. */
  ghost predicate ReadTo(input: string, i: nat, tokens: seq<Token>)
    requires i <= |input|
  {
    Lex(input) == Prefixed(tokens, Lex(input[i..]))
  }

  lemma NothingRead(input: string)
    ensures ReadTo(input, 0, [])
  {
    assert input[0..] == input;
    PrefixedNothing(Lex(input));
  }

  lemma AllRead(input: string, tokens: seq<Token>)
    requires ReadTo(input, |input|, tokens)
    ensures Lex(input) == Ok(tokens)
  {
    assert input[|input|..] == "" && tokens + [] == tokens;
  }

  lemma ReadSpace(input: string, i: nat, tokens: seq<Token>)
    requires i < |input| && ReadTo(input, i, tokens) && IsSpace(input[i])
    ensures ReadTo(input, i + 1, tokens)
  {
    SpaceStep(input, i);
  }

  lemma ReadToken(input: string, i: nat, tokens: seq<Token>, t: Token, n: nat)
    requires i < |input| && ReadTo(input, i, tokens) && !IsSpace(input[i]) && NextToken(input[i..]) == Ok((t, n))
    ensures 0 < n && i + n <= |input| && ReadTo(input, i + n, tokens + [t])
  {
    TokenStep(input, i, tokens, t, n);
  }

  lemma ReadError(input: string, i: nat, tokens: seq<Token>)
    requires i < |input| && ReadTo(input, i, tokens) && !IsSpace(input[i]) && NextToken(input[i..]).Err?
    ensures Lex(input) == Err(NextToken(input[i..]).error)
  {
    ErrorStep(input, i, tokens);
  }

  /** One turn of the loop: white space, a token, or a character that begins none. */
  method ReadOne(input: string, i: nat, tokens: seq<Token>) returns (r: Result<(seq<Token>, nat)>)
    requires i < |input| && ReadTo(input, i, tokens)
    ensures r.Err? ==> Lex(input) == Err(r.error)
    ensures r.Ok? ==> i < r.value.1 <= |input| && ReadTo(input, r.value.1, r.value.0)
  {
    if IsSpace(input[i]) {
      ReadSpace(input, i, tokens);
      return Ok((tokens, i + 1));
    }
    var next := NextToken(input[i..]);
    if next.Err? {
      ReadError(input, i, tokens);
      return Err(next.error);
    }
    var (t, n) := next.value;
    ReadToken(input, i, tokens, t, n);
    r := Ok((tokens + [t], i + n));
  }

  /** The program's loop over the input. */
  method Tokenize(input: string) returns (r: Result<seq<Token>>)
    ensures r == match Lex(input) case Ok(ts) => Ok(ts + [EOF]) case Err(e) => Err(e)
  {
    var tokens := [];
    var i := 0;
    NothingRead(input);
    while i < |input|
      invariant 0 <= i <= |input|
      invariant ReadTo(input, i, tokens)
      decreases |input| - i
    {
      var next := ReadOne(input, i, tokens);
      if next.Err? {
        return Err(next.error);
      }
      tokens, i := next.value.0, next.value.1;
    }
    AllRead(input, tokens);
    r := Ok(tokens + [EOF]);
  }

  // ----- Printing tokens and reading them back -----

  /** Tokens that the tokenizer can produce. */
  predicate WellFormed(t: Token) {
    match t
    case Number(raw) => raw != "" && NumberLen(raw) == |raw|
    case Identifier(raw) => raw != "" && IdentifierLen(raw) == |raw|
    case EOF => false
    case _ => true
  }

  function Spelling(t: Token): string {
    match t
    case Number(raw) => raw
    case Identifier(raw) => raw
    case MathMin => "Math.min"
    case MathMax => "Math.max"
    case MathRound => "Math.round"
    case Plus => "+"
    case Minus => "-"
    case Star => "*"
    case Slash => "/"
    case LParen => "("
    case RParen => ")"
    case Comma => ","
    case EOF => ""
  }

  function Render(ts: seq<Token>): string {
    if ts == [] then "" else Spelling(ts[0]) + " " + Render(ts[1..])
  }

  lemma {:induction false} DigitsBeforeStop(s: string, rest: string)
    requires rest != "" && !IsDigit(rest[0])
    ensures DigitsLen(s + rest) == DigitsLen(s)
  {
    if s == "" {
      assert s + rest == rest;
    } else {
      assert (s + rest)[1..] == s[1..] + rest;
      DigitsBeforeStop(s[1..], rest);
    }
  }

  lemma {:induction false} WordBeforeStop(s: string, rest: string)
    requires rest != "" && !IsWord(rest[0])
    ensures WordLen(s + rest) == WordLen(s)
  {
    if s == "" {
      assert s + rest == rest;
    } else {
      assert (s + rest)[1..] == s[1..] + rest;
      WordBeforeStop(s[1..], rest);
    }
  }

  lemma NumberBeforeSpace(raw: string, rest: string)
    requires raw != "" && NumberLen(raw) == |raw| && rest != "" && rest[0] == ' '
    ensures NumberLen(raw + rest) == |raw|
  {
    var d := DigitsLen(raw);
    DigitsBeforeStop(raw, rest);
    if d < |raw| {
      assert (raw + rest)[d + 1..] == raw[d + 1..] + rest;
      DigitsBeforeStop(raw[d + 1..], rest);
    }
  }

  lemma NextOfPrinted(t: Token, rest: string)
    requires WellFormed(t) && rest != "" && rest[0] == ' '
    ensures Spelling(t) != "" && !IsSpace(Spelling(t)[0])
    ensures NextToken(Spelling(t) + rest) == Ok((t, |Spelling(t)|))
  {
    if t.Number? {
      NextOfNumber(t.raw, rest);
    } else if t.Identifier? {
      NextOfIdentifier(t.raw, rest);
    } else if t.MathMin? || t.MathMax? || t.MathRound? {
      NextOfFunction(t, rest);
    } else {
      assert (Spelling(t) + rest)[0] == Spelling(t)[0];
    }
  }

  lemma NextOfNumber(raw: string, rest: string)
    requires WellFormed(Number(raw)) && rest != "" && rest[0] == ' '
    ensures raw != "" && !IsSpace(raw[0]) && NextToken(raw + rest) == Ok((Number(raw), |raw|))
  {
    NumberBeforeSpace(raw, rest);
    assert DigitsLen(raw) > 0 && IsDigit(raw[0]);
    assert (raw + rest)[..|raw|] == raw;
  }

  lemma NextOfIdentifier(raw: string, rest: string)
    requires WellFormed(Identifier(raw)) && rest != "" && rest[0] == ' '
    ensures raw != "" && !IsSpace(raw[0]) && NextToken(raw + rest) == Ok((Identifier(raw), |raw|))
  {
    assert (raw + rest)[0] == raw[0];
    NoFunctionName(raw, rest);
    WordBeforeStop(raw, rest);
    assert (raw + rest)[..|raw|] == raw;
  }

  lemma NextOfFunction(t: Token, rest: string)
    requires t.MathMin? || t.MathMax? || t.MathRound?
    ensures Spelling(t)[0] == 'M' && NextToken(Spelling(t) + rest) == Ok((t, |Spelling(t)|))
  {
    var s := Spelling(t) + rest;
    assert s[0] == 'M' && s[5] == Spelling(t)[5] && s[6] == Spelling(t)[6];
  }

  lemma NoFunctionName(raw: string, rest: string)
    requires raw != "" && IdentifierLen(raw) == |raw| && rest != "" && rest[0] == ' '
    ensures !("Math.min" <= raw + rest) && !("Math.max" <= raw + rest) && !("Math.round" <= raw + rest)
  {
    var s := raw + rest;
    assert forall i | 0 <= i < |raw| :: IsWord(s[i]);
    assert s[|raw|] == ' ';
    if "Math" <= s && |s| > 4 && s[4] == '.' {
      assert false;
    }
  }

  lemma LexStep(t: Token, rest: string)
    requires WellFormed(t)
    ensures Lex(Spelling(t) + " " + rest) == Prefixed([t], Lex(rest))
  {
    var s := Spelling(t) + (" " + rest);
    assert s == Spelling(t) + " " + rest;
    NextOfPrinted(t, " " + rest);
    assert s[0] == Spelling(t)[0];
    assert s[|Spelling(t)|..] == " " + rest;
    assert (" " + rest)[1..] == rest;
    assert Lex(" " + rest) == Lex(rest);
  }

  /** Any well-formed tokens, printed with a space after each, are read back as they were. */
  lemma {:induction false} LexRender(ts: seq<Token>)
    requires forall t | t in ts :: WellFormed(t)
    ensures Lex(Render(ts)) == Ok(ts)
  {
    if ts != [] {
      LexRender(ts[1..]);
      LexStep(ts[0], Render(ts[1..]));
      assert [ts[0]] + ts[1..] == ts;
    }
  }

  /** The tokenizer produces nothing but well-formed tokens. */
  lemma {:induction false} LexWellFormed(s: string)
    ensures Lex(s).Ok? ==> forall t | t in Lex(s).value :: WellFormed(t)
    decreases |s|
  {
    if s != "" {
      if IsSpace(s[0]) {
        LexWellFormed(s[1..]);
      } else if NextToken(s).Ok? {
        var (t, n) := NextToken(s).value;
        LexWellFormed(s[n..]);
        PrefixWellFormed(s);
      }
    }
  }

  lemma {:induction false} DigitsOfPrefix(s: string, n: nat)
    requires n <= |s|
    ensures DigitsLen(s[..n]) == if n <= DigitsLen(s) then n else DigitsLen(s)
  {
    if n > 0 && IsDigit(s[0]) {
      assert s[..n][1..] == s[1..][..n - 1];
      DigitsOfPrefix(s[1..], n - 1);
    }
  }

  lemma {:induction false} WordOfPrefix(s: string, n: nat)
    requires n <= |s|
    ensures WordLen(s[..n]) == if n <= WordLen(s) then n else WordLen(s)
  {
    if n > 0 && IsWord(s[0]) {
      assert s[..n][1..] == s[1..][..n - 1];
      WordOfPrefix(s[1..], n - 1);
    }
  }

  lemma PrefixWellFormed(s: string)
    requires s != "" && NextToken(s).Ok?
    ensures WellFormed(NextToken(s).value.0)
  {
    var n := NumberLen(s);
    if n > 0 {
      var d := DigitsLen(s);
      DigitsOfPrefix(s, n);
      if d < n {
        assert s[..n][d + 1..] == s[d + 1..][..n - d - 1];
        DigitsOfPrefix(s[d + 1..], n - d - 1);
      }
    } else if IdentifierLen(s) > 0 {
      WordOfPrefix(s, IdentifierLen(s));
    }
  }
}
