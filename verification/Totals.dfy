/** Sums, means and rounding over a finite map of numbers, free of any order of enumeration. */
module Totals {

  ghost function Total(m: map<string, real>): real {
    if m == map[] then 0.0
    else
      var k :| k in m;
      m[k] + Total(m - {k})
  }

  /** Any key may be taken out first. */
  lemma {:induction false} TotalWithout(m: map<string, real>, k: string)
    requires k in m
    ensures Total(m) == m[k] + Total(m - {k})
    decreases |m|
  {
    var j :| j in m && Total(m) == m[j] + Total(m - {j});
    if j != k {
      TotalWithout(m - {j}, k);
      TotalWithout(m - {k}, j);
      assert m - {j} - {k} == m - {k} - {j};
    }
  }

  lemma TotalOneMore(c: map<string, real>, c': map<string, real>, k: string)
    requires k in c && c.Keys == c'.Keys + {k} && forall j | j in c && j != k :: c[j] == c'[j]
    requires c[k] == (if k in c' then c'[k] else 0.0) + 1.0
    ensures Total(c) == Total(c') + 1.0
  {
    TotalWithout(c, k);
    SameElsewhere(c, c', k);
    if k in c' {
      TotalWithout(c', k);
    } else {
      assert c' - {k} == c';
    }
  }

  lemma SameElsewhere(c: map<string, real>, c': map<string, real>, k: string)
    requires c.Keys == c'.Keys + {k} && forall j | j in c && j != k :: c[j] == c'[j]
    ensures c - {k} == c' - {k}
  {
    forall j ensures j in c - {k} <==> j in c' - {k} {
      assert j in c <==> j in c' || j == k;
    }
  }

  /** `x` added up `n` times. */
  ghost function Times(n: nat, x: real): real {
    if n == 0 then 0.0 else Times(n - 1, x) + x
  }

  lemma {:induction false} TimesIsProduct(n: nat, x: real)
    ensures Times(n, x) == n as real * x
  {
    if n > 0 {
      TimesIsProduct(n - 1, x);
      PlusOne((n - 1) as real, x);
      assert n as real == (n - 1) as real + 1.0;
    }
  }

  lemma PlusOne(n: real, x: real)
    ensures (n + 1.0) * x == n * x + x
  {
  }

  lemma {:induction false} TotalBetween(m: map<string, real>, lo: real, hi: real)
    requires forall k | k in m :: lo <= m[k] <= hi
    ensures Times(|m|, lo) <= Total(m) <= Times(|m|, hi)
    decreases |m|
  {
    if m != map[] {
      var k :| k in m;
      TotalWithout(m, k);
      assert |m| == |m - {k}| + 1;
      TotalBetween(m - {k}, lo, hi);
    } else {
      assert |m| == 0;
    }
  }

  lemma {:induction false} TotalsClose(a: map<string, real>, b: map<string, real>, d: real)
    requires a.Keys == b.Keys && forall k | k in a :: -d <= a[k] - b[k] <= d
    ensures Times(|a|, -d) <= Total(a) - Total(b) <= Times(|a|, d)
    decreases |a|
  {
    if a != map[] {
      var k :| k in a;
      TotalWithout(a, k);
      TotalWithout(b, k);
      assert |a| == |a - {k}| + 1;
      TotalsClose(a - {k}, b - {k}, d);
    } else {
      assert b == map[] && |a| == 0;
    }
  }

  ghost function Mean(m: map<string, real>): real
    requires m != map[]
  {
    Total(m) / |m| as real
  }

  lemma TimesLess(a: real, b: real, n: real)
    requires a < b && n > 0.0
    ensures a * n < b * n
  {
  }

  lemma Scale(total: real, n: int, x: real)
    requires n > 0
    ensures total <= n as real * x ==> total / n as real <= x
    ensures total >= n as real * x ==> total / n as real >= x
  {
    var q := total / n as real;
    assert q * n as real == total;
    if q > x { TimesLess(x, q, n as real); }
    if q < x { TimesLess(q, x, n as real); }
  }

  lemma MeanBetween(m: map<string, real>, lo: real, hi: real)
    requires m != map[] && forall k | k in m :: lo <= m[k] <= hi
    ensures lo <= Mean(m) <= hi
  {
    TotalBetween(m, lo, hi);
    TimesIsProduct(|m|, lo);
    TimesIsProduct(|m|, hi);
    Scale(Total(m), |m|, lo);
    Scale(Total(m), |m|, hi);
  }

  lemma MeansClose(a: map<string, real>, b: map<string, real>, d: real)
    requires a != map[] && a.Keys == b.Keys && forall k | k in a :: -d <= a[k] - b[k] <= d
    ensures -d <= Mean(a) - Mean(b) <= d
  {
    TotalsClose(a, b, d);
    SameSize(a, b);
    Quotients(Total(a), Total(b), |a|, d);
  }

  lemma SameSize(a: map<string, real>, b: map<string, real>)
    requires a.Keys == b.Keys
    ensures |a| == |b| && (a != map[] ==> |a| > 0 && b != map[])
  {
    assert |a| == |a.Keys| && |b| == |b.Keys|;
    if a != map[] {
      var k :| k in a;
      assert k in a.Keys && k in b;
    }
  }

  lemma Quotients(x: real, y: real, n: nat, d: real)
    requires n > 0 && Times(n, -d) <= x - y <= Times(n, d)
    ensures -d <= x / n as real - y / n as real <= d
  {
    TimesIsProduct(n, d);
    TimesIsProduct(n, -d);
    Difference(x, y, n);
    Scale(x - y, n, d);
    Scale(x - y, n, -d);
  }

  lemma Difference(x: real, y: real, n: int)
    requires n > 0
    ensures x / n as real - y / n as real == (x - y) / n as real
  {
  }

  /** Four decimals, half up; whole numbers are returned as they are. */
  function RoundNumeric(x: real): real {
    if x == x.Floor as real then x else (x * 10000.0 + 0.5).Floor as real / 10000.0
  }

  lemma RoundIsFloor(x: real)
    ensures RoundNumeric(x) == (x * 10000.0 + 0.5).Floor as real / 10000.0
  {
    if x == x.Floor as real {
      assert x * 10000.0 == (x.Floor * 10000) as real;
      assert (x * 10000.0 + 0.5).Floor == x.Floor * 10000;
    }
  }

  lemma RoundClose(x: real)
    ensures -0.00005 <= RoundNumeric(x) - x <= 0.00005
  {
    RoundIsFloor(x);
    var f := (x * 10000.0 + 0.5).Floor as real;
    assert x * 10000.0 - 0.5 <= f <= x * 10000.0 + 0.5;
  }

  lemma RoundMonotone(x: real, y: real)
    requires x <= y
    ensures RoundNumeric(x) <= RoundNumeric(y)
  {
    RoundIsFloor(x);
    RoundIsFloor(y);
    FloorMonotone(x * 10000.0 + 0.5, y * 10000.0 + 0.5);
  }

  lemma FloorMonotone(x: real, y: real)
    requires x <= y
    ensures x.Floor as real / 10000.0 <= y.Floor as real / 10000.0
  {
    assert x.Floor <= y.Floor;
  }
}
