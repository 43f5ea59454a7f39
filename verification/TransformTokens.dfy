/** The tokens of a text, said by their spelling, and that the tokenizer finds exactly these. */
module TransformTokens {
  import opened Text
  import opened TransformGrammar
  import opened TransformLexer

  predicate Digits(s: string) {
    s != "" && forall i | 0 <= i < |s| :: '0' <= s[i] <= '9'
  }

  /** Digits, or digits, a point and digits. */
  predicate Numeral(s: string) {
    Digits(s) || exists k | 0 <= k < |s| :: PointAt(s, k)
  }

  predicate PointAt(s: string, k: int) {
    0 <= k < |s| && s[k] == '.' && Digits(s[..k]) && Digits(s[k + 1..])
  }

  predicate Letter(c: char) {
    'a' <= c <= 'z' || 'A' <= c <= 'Z' || c == '_'
  }

  predicate WordChar(c: char) {
    Letter(c) || '0' <= c <= '9'
  }

  /** A letter or underscore, and then letters, digits and underscores. */
  predicate Name(s: string) {
    s != "" && Letter(s[0]) && forall i | 0 <= i < |s| :: WordChar(s[i])
  }

  predicate Spells(text: string, t: Token) {
    match t
    case Number(raw) => raw == text && Numeral(text)
    case Identifier(raw) => raw == text && Name(text)
    case MathMin => text == "Math.min"
    case MathMax => text == "Math.max"
    case MathRound => text == "Math.round"
    case Plus => text == "+"
    case Minus => text == "-"
    case Star => text == "*"
    case Slash => text == "/"
    case LParen => text == "("
    case RParen => text == ")"
    case Comma => text == ","
    case EOF => false
  }

  predicate StartsWithDigit(s: string) {
    s != "" && '0' <= s[0] <= '9'
  }

  /** What follows does not belong to the token. */
  predicate Ends(t: Token, rest: string) {
    match t
    case Number(raw) =>
      !StartsWithDigit(rest) && (Digits(raw) && rest != "" && rest[0] == '.' ==> !StartsWithDigit(rest[1..]))
    case Identifier(raw) =>
      (rest != "" ==> !WordChar(rest[0])) &&
      !("Math.min" <= raw + rest) && !("Math.max" <= raw + rest) && !("Math.round" <= raw + rest)
    case _ => true
  }

  /** The first `n` characters are the token. */
  predicate Begins(s: string, t: Token, n: nat) {
    0 < n <= |s| && Spells(s[..n], t) && Ends(t, s[n..])
  }

  /** The text is these tokens, with white space between them where one likes. */
  ghost predicate AreTokens(s: string, ts: seq<Token>)
    decreases |s|
  {
    if s == "" then ts == []
    else if IsSpace(s[0]) then AreTokens(s[1..], ts)
    else ts != [] && exists n: nat :: Begins(s, ts[0], n) && AreTokens(s[n..], ts[1..])
  }

  predicate BeginsNone(c: char) {
    !IsSpace(c) && !WordChar(c) && c !in "+-*/(),"
  }

  /** After tokens and white space the text goes on with a character that begins no token. */
  ghost predicate StuckAt(s: string, c: char)
    decreases |s|
  {
    s != "" &&
    if IsSpace(s[0]) then StuckAt(s[1..], c)
    else if BeginsNone(s[0]) then c == s[0]
    else exists n: nat, t :: Begins(s, t, n) && StuckAt(s[n..], c)
  }

  // ----- Numbers -----

  lemma {:induction false} DigitsAre(s: string, n: nat)
    requires n <= |s| && (forall i | 0 <= i < n :: IsDigit(s[i])) && (n < |s| ==> !IsDigit(s[n]))
    ensures DigitsLen(s) == n
  {
    if n > 0 {
      DigitsAre(s[1..], n - 1);
    }
  }

  lemma {:induction false} WordIs(s: string, n: nat)
    requires n <= |s| && (forall i | 0 <= i < n :: IsWord(s[i])) && (n < |s| ==> !IsWord(s[n]))
    ensures WordLen(s) == n
  {
    if n > 0 {
      WordIs(s[1..], n - 1);
    }
  }

  lemma NumberFound(s: string)
    requires NumberLen(s) > 0
    ensures Begins(s, Number(s[..NumberLen(s)]), NumberLen(s))
  {
    var n, d := NumberLen(s), DigitsLen(s);
    var raw := s[..n];
    assert Digits(s[..d]);
    if n == d {
      assert raw == s[..d];
    } else {
      var f := DigitsLen(s[d + 1..]);
      assert n == d + 1 + f;
      assert raw[..d] == s[..d] && raw[d + 1..] == s[d + 1..][..f];
      assert PointAt(raw, d);
      assert s[n..] == s[d + 1..][f..];
      assert raw[d] == '.' && !Digits(raw);
    }
  }

  lemma NumeralRead(s: string, n: nat)
    requires n <= |s| && Begins(s, Number(s[..n]), n)
    ensures NumberLen(s) == n
  {
    var raw, rest := s[..n], s[n..];
    if Digits(raw) {
      DigitsAre(s, n);
      assert forall i | 0 <= i < n :: s[i] == raw[i];
      if n < |s| && s[n] == '.' {
        assert rest[1..] == s[n + 1..];
      }
    } else {
      var k :| 0 <= k < n && PointAt(raw, k);
      assert forall i | 0 <= i < k :: s[i] == raw[..k][i];
      DigitsAre(s, k);
      var tail := s[k + 1..];
      assert tail[..n - k - 1] == raw[k + 1..] && tail[n - k - 1..] == rest;
      assert forall i | 0 <= i < n - k - 1 :: tail[i] == raw[k + 1..][i];
      DigitsAre(tail, n - k - 1);
    }
  }

  // ----- Names -----

  lemma NameFound(s: string)
    requires IdentifierLen(s) > 0 && !("Math.min" <= s) && !("Math.max" <= s) && !("Math.round" <= s)
    ensures Begins(s, Identifier(s[..IdentifierLen(s)]), IdentifierLen(s))
  {
    var n := IdentifierLen(s);
    assert s[..n] + s[n..] == s;
  }

  lemma NameRead(s: string, n: nat)
    requires n <= |s| && Begins(s, Identifier(s[..n]), n)
    ensures IdentifierLen(s) == n && !("Math.min" <= s) && !("Math.max" <= s) && !("Math.round" <= s)
    ensures NumberLen(s) == 0
  {
    assert s[..n] + s[n..] == s;
    assert forall i | 0 <= i < n :: s[i] == s[..n][i];
    WordIs(s, n);
    NoDigits(s);
  }

  lemma NoDigits(s: string)
    requires s != "" && !('0' <= s[0] <= '9')
    ensures NumberLen(s) == 0
  {
  }

  // ----- The next token -----

  /** What the tokenizer takes for the next token begins the text. */
  lemma NextBegins(s: string)
    requires s != "" && !IsSpace(s[0]) && NextToken(s).Ok?
    ensures var (t, n) := NextToken(s).value; Begins(s, t, n)
  {
    if NumberLen(s) > 0 {
      NumberFound(s);
    } else if "Math.min" <= s || "Math.max" <= s || "Math.round" <= s {
    } else if IdentifierLen(s) > 0 {
      NameFound(s);
    }
  }

  /** And the text begins with no other token. */
  lemma BeginsNext(s: string, t: Token, n: nat)
    requires Begins(s, t, n)
    ensures s != "" && !IsSpace(s[0]) && NextToken(s) == Ok((t, n))
  {
    match t
    case Number(raw) =>
      NumeralStart(s[..n]);
      NumeralRead(s, n);
    case Identifier(raw) => NameRead(s, n);
    case MathMin => FunctionRead(s, t, n);
    case MathMax => FunctionRead(s, t, n);
    case MathRound => FunctionRead(s, t, n);
    case _ => SymbolRead(s, t, n);
  }

  lemma SymbolRead(s: string, t: Token, n: nat)
    requires Begins(s, t, n) && !t.Number? && !t.Identifier? && !t.MathMin? && !t.MathMax? && !t.MathRound?
    ensures s != "" && !IsSpace(s[0]) && NextToken(s) == Ok((t, n))
  {
    assert s[0] == s[..n][0] && |s[..n]| == n;
  }

  lemma NumeralStart(s: string)
    requires Numeral(s)
    ensures s != "" && '0' <= s[0] <= '9'
  {
    if !Digits(s) {
      var k :| 0 <= k < |s| && PointAt(s, k);
      assert s[..k][0] == s[0];
    }
  }

  lemma FunctionRead(s: string, t: Token, n: nat)
    requires Begins(s, t, n) && (t.MathMin? || t.MathMax? || t.MathRound?)
    ensures s != "" && !IsSpace(s[0]) && NextToken(s) == Ok((t, n))
  {
    assert s[..n][0] == s[0] == 'M' && s[5] == s[..n][5] && s[6] == s[..n][6];
    NoDigits(s);
  }

  lemma NoneBegins(s: string)
    requires s != "" && !IsSpace(s[0])
    ensures NextToken(s).Err? <==> BeginsNone(s[0])
    ensures NextToken(s).Err? ==> NextToken(s).error == Forbidden(s[0])
  {
    if NumberLen(s) > 0 {
      NumberFound(s);
      NumeralStart(s[..NumberLen(s)]);
    }
  }

  // ----- The whole text -----

  /** The tokenizer finds these tokens if and only if they are the tokens of the text. */
  lemma {:induction false} LexExactly(s: string, ts: seq<Token>)
    ensures Lex(s) == Ok(ts) <==> AreTokens(s, ts)
    decreases |s|
  {
    if s == "" {
    } else if IsSpace(s[0]) {
      LexExactly(s[1..], ts);
    } else {
      if Lex(s) == Ok(ts) {
        NextBegins(s);
        var (t, n) := NextToken(s).value;
        assert ts == [t] + Lex(s[n..]).value;
        LexExactly(s[n..], ts[1..]);
      }
      if AreTokens(s, ts) {
        var n: nat :| Begins(s, ts[0], n) && AreTokens(s[n..], ts[1..]);
        BeginsNext(s, ts[0], n);
        LexExactly(s[n..], ts[1..]);
        assert [ts[0]] + ts[1..] == ts;
      }
    }
  }

  /** It stops at a character if and only if that is the first to begin no token. */
  lemma {:induction false} LexStuckExactly(s: string, c: char)
    ensures Lex(s) == Err(Forbidden(c)) <==> StuckAt(s, c)
    decreases |s|
  {
    if s == "" {
    } else if IsSpace(s[0]) {
      LexStuckExactly(s[1..], c);
    } else {
      NoneBegins(s);
      if NextToken(s).Ok? {
        NextBegins(s);
        var (t, n) := NextToken(s).value;
        LexStuckExactly(s[n..], c);
        if StuckAt(s, c) {
          var m: nat, u :| Begins(s, u, m) && StuckAt(s[m..], c);
          BeginsNext(s, u, m);
        }
      }
    }
  }

  /** A token is read in full, before the end of the text or anything that does not belong to it. */
  lemma ReadInFull(text: string, t: Token, rest: string)
    requires Spells(text, t) && Ends(t, rest)
    ensures Lex(text + rest) == Prefixed([t], Lex(rest))
  {
    var s, n := text + rest, |text|;
    assert s[..n] == text && s[n..] == rest;
    if t.Number? {
      NumeralStart(text);
    }
    BeginsNext(s, t, n);
  }

  lemma ReadAlone(text: string, t: Token)
    requires Spells(text, t) && Ends(t, "")
    ensures Lex(text) == Ok([t])
  {
    ReadInFull(text, t, "");
    assert text + "" == text && [t] + [] == [t];
  }

  /** Whole numbers and decimal fractions are numbers. */
  lemma NumbersAreRead(d: string, f: string)
    requires Digits(d) && Digits(f)
    ensures Lex(d) == Ok([Number(d)]) && Lex(d + "." + f) == Ok([Number(d + "." + f)])
  {
    ReadAlone(d, Number(d));
    var s := d + "." + f;
    assert s[..|d|] == d && s[|d| + 1..] == f && PointAt(s, |d|);
    ReadAlone(s, Number(s));
  }

  /** Any name is an identifier. */
  lemma NamesAreRead(name: string)
    requires Name(name)
    ensures Lex(name) == Ok([Identifier(name)])
  {
    assert "Math.min"[4] == "Math.max"[4] == "Math.round"[4] == '.';
    assert |name| > 4 ==> WordChar(name[4]);
    assert name + "" == name;
    ReadAlone(name, Identifier(name));
  }

  /** Every token of any text is spelled like one. */
  lemma {:induction false} TokensAreSpelled(s: string, t: Token)
    requires Lex(s).Ok? && t in Lex(s).value
    ensures exists text :: Spells(text, t)
    decreases |s|
  {
    if IsSpace(s[0]) {
      TokensAreSpelled(s[1..], t);
    } else {
      NextBegins(s);
      var (u, n) := NextToken(s).value;
      if t != u {
        assert Lex(s).value == [u] + Lex(s[n..]).value;
        TokensAreSpelled(s[n..], t);
      } else {
        assert Spells(s[..n], t);
      }
    }
  }

  /** The tokens that may be printed are those that have a spelling, and it is theirs. */
  lemma WellFormedExactly(t: Token, text: string)
    ensures Spells(text, t) <==> WellFormed(t) && text == Spelling(t)
  {
    match t
    case Number(raw) => NumeralExactly(raw);
    case Identifier(raw) => NameExactly(raw);
    case _ =>
  }

  lemma NumeralExactly(raw: string)
    ensures Numeral(raw) <==> raw != "" && NumberLen(raw) == |raw|
  {
    assert raw[..|raw|] == raw;
    if Numeral(raw) {
      NumeralStart(raw);
      NumeralRead(raw, |raw|);
    }
    if raw != "" && NumberLen(raw) == |raw| {
      NumberFound(raw);
    }
  }

  lemma NameExactly(raw: string)
    ensures Name(raw) <==> raw != "" && IdentifierLen(raw) == |raw|
  {
    if Name(raw) {
      WordIs(raw, |raw|);
    }
  }
}
