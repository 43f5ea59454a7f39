/** The identifier of a stored version, unique across the whole table. */
module StateIds {

  function Digits(n: nat): string {
    if n < 10 then [Digit(n)] else Digits(n / 10) + [Digit(n % 10)]
  }

  function Digit(d: nat): char
    requires d < 10
  {
    '0' + d as char
  }

  /** What a decimal numeral stands for. */
  function NumberOf(s: string): int {
    if s == "" then 0 else 10 * NumberOf(s[..|s| - 1]) + (s[|s| - 1] as int - '0' as int)
  }

  /** Versions are written in decimal, without leading zeros. */
  lemma {:induction false} DigitsMean(n: nat)
    ensures NumberOf(Digits(n)) == n && Digits(n) != [] && (n > 0 ==> Digits(n)[0] != '0')
  {
    if n >= 10 {
      DigitsMean(n / 10);
      assert Digits(n)[..|Digits(n)| - 1] == Digits(n / 10);
    } else {
      assert Digits(n)[..0] == "" && NumberOf("") == 0;
    }
  }

  /** `org:learner:vN`. */
  function FormatStateId(orgId: string, learner: string, version: nat): string {
    orgId + ":" + learner + ":v" + Digits(version)
  }

  predicate IsDigit(c: char) {
    '0' <= c <= '9'
  }

  lemma {:induction false} DigitsAreDigits(n: nat)
    ensures Digits(n) != [] && forall i | 0 <= i < |Digits(n)| :: IsDigit(Digits(n)[i])
  {
    if n >= 10 {
      DigitsAreDigits(n / 10);
    }
  }

  lemma {:induction false} DigitsInjective(n: nat, m: nat)
    requires Digits(n) == Digits(m)
    ensures n == m
  {
    var a, b := Digits(n), Digits(m);
    DigitsAreDigits(n / 10);
    DigitsAreDigits(m / 10);
    assert a[|a| - 1] == b[|b| - 1];
    if n >= 10 && m >= 10 {
      assert a[..|a| - 1] == b[..|b| - 1];
      assert Digits(n / 10) == a[..|a| - 1] && Digits(m / 10) == b[..|b| - 1];
      DigitsInjective(n / 10, m / 10);
    }
  }

  lemma NoColonAfter(y: string, e: string, k: nat)
    requires (forall i | 0 <= i < |e| :: IsDigit(e[i])) && |y| < k < |y + ":v" + e|
    ensures (y + ":v" + e)[k] != ':'
  {
    assert (y + ":v" + e)[k] == if k == |y| + 1 then 'v' else e[k - |y| - 2];
  }

  lemma LastColon(x: string, d: string, y: string, e: string)
    requires x + ":v" + d == y + ":v" + e
    requires forall i | 0 <= i < |e| :: IsDigit(e[i])
    ensures |d| >= |e|
  {
    assert (x + ":v" + d)[|x|] == ':';
    if |d| < |e| {
      NoColonAfter(y, e, |x|);
    }
  }

  /** Two versions share an identifier exactly when the version is the same and organisation and learner
      read the same once joined by a colon. */
  lemma SameStateId(a: string, b: string, v: nat, c: string, d: string, w: nat)
    ensures FormatStateId(a, b, v) == FormatStateId(c, d, w) <==> v == w && a + ":" + b == c + ":" + d
  {
    var x, y := a + ":" + b, c + ":" + d;
    var s, t := FormatStateId(a, b, v), FormatStateId(c, d, w);
    assert s == x + ":v" + Digits(v) && t == y + ":v" + Digits(w);
    if s == t {
      DigitsAreDigits(v);
      DigitsAreDigits(w);
      LastColon(x, Digits(v), y, Digits(w));
      LastColon(y, Digits(w), x, Digits(v));
      assert |x| == |y|;
      assert s[..|x|] == x && t[..|y|] == y;
      assert s[|x| + 2..] == Digits(v) && t[|y| + 2..] == Digits(w);
      DigitsInjective(v, w);
    }
  }

  lemma FirstColon(a: string, b: string, c: string, d: string)
    requires a + ":" + b == c + ":" + d && ':' !in a
    ensures |a| <= |c|
  {
    assert (c + ":" + d)[|c|] == ':';
    assert forall k | 0 <= k < |a| :: (a + ":" + b)[k] == a[k];
  }

  /** Organisations whose names hold no colon never share an identifier. */
  lemma NoColonNoCollision(a: string, b: string, v: nat, c: string, d: string, w: nat)
    requires ':' !in a && ':' !in c
    ensures FormatStateId(a, b, v) == FormatStateId(c, d, w) <==> v == w && a == c && b == d
  {
    SameStateId(a, b, v, c, d, w);
    var s, t := a + ":" + b, c + ":" + d;
    if s == t {
      FirstColon(a, b, c, d);
      FirstColon(c, d, a, b);
      assert s[..|a|] == a && t[..|c|] == c && s[|a| + 1..] == b && t[|c| + 1..] == d;
    }
  }

  /** With a colon in the name two different learners can. */
  lemma ColonCollides(version: nat)
    ensures FormatStateId("a:b", "c", version) == FormatStateId("a", "b:c", version)
  {
    assert "a:b" + ":" + "c" == "a" + ":" + "b:c";
    SameStateId("a:b", "c", version, "a", "b:c", version);
  }
}
