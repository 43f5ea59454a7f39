/** Keyset pages over an ordered selection of a table. */
module Paging {

  ghost predicate Transitive<T(!new)>(lt: (T, T) -> bool) {
    (forall a, b, c :: lt(a, b) && lt(b, c) ==> lt(a, c)) && forall a :: !lt(a, a)
  }

  ghost predicate Ascending<T>(lt: (T, T) -> bool, s: seq<T>) {
    forall i, j | 0 <= i < j < |s| :: lt(s[i], s[j])
  }

  /** Any two selected items can be told apart by the order. */
  ghost predicate Told<T>(lt: (T, T) -> bool, keep: T -> bool, items: seq<T>) {
    forall i, j | 0 <= i < j < |items| && keep(items[i]) && keep(items[j]) ::
      lt(items[i], items[j]) || lt(items[j], items[i])
  }

  function InsertBy<T>(lt: (T, T) -> bool, s: seq<T>, x: T): seq<T> {
    if s != [] && lt(x, s[|s| - 1]) then InsertBy(lt, s[..|s| - 1], x) + [s[|s| - 1]] else s + [x]
  }

  /** WHERE and ORDER BY. */
  function OrderedBy<T>(lt: (T, T) -> bool, keep: T -> bool, items: seq<T>): seq<T> {
    if items == [] then []
    else
      var rest := OrderedBy(lt, keep, items[..|items| - 1]);
      if keep(items[|items| - 1]) then InsertBy(lt, rest, items[|items| - 1]) else rest
  }

  lemma {:induction false} InsertByHolds<T>(lt: (T, T) -> bool, s: seq<T>, x: T)
    ensures |InsertBy(lt, s, x)| == |s| + 1 && forall y :: y in InsertBy(lt, s, x) <==> y == x || y in s
  {
    if s != [] && lt(x, s[|s| - 1]) {
      InsertByHolds(lt, s[..|s| - 1], x);
      assert s == s[..|s| - 1] + [s[|s| - 1]];
    }
  }

  lemma {:induction false} InsertByAscends<T(!new)>(lt: (T, T) -> bool, s: seq<T>, x: T)
    requires Transitive(lt) && Ascending(lt, s) && forall y | y in s :: lt(x, y) || lt(y, x)
    ensures Ascending(lt, InsertBy(lt, s, x))
  {
    if s != [] {
      var n := |s| - 1;
      if lt(x, s[n]) {
        InsertByAscends(lt, s[..n], x);
        InsertByHolds(lt, s[..n], x);
        forall y | y in InsertBy(lt, s[..n], x) ensures lt(y, s[n]) {}
      } else {
        forall i | 0 <= i < |s| ensures lt(s[i], x) {
          assert lt(s[n], x);
        }
      }
    }
  }

  /** The selection holds exactly the kept items, in ascending order. */
  lemma {:induction false} OrderedByHolds<T(!new)>(lt: (T, T) -> bool, keep: T -> bool, items: seq<T>)
    requires Transitive(lt) && Told(lt, keep, items)
    ensures Ascending(lt, OrderedBy(lt, keep, items))
    ensures forall x :: x in OrderedBy(lt, keep, items) <==> x in items && keep(x)
  {
    if items != [] {
      var n := |items| - 1;
      OrderedByHolds(lt, keep, items[..n]);
      var rest := OrderedBy(lt, keep, items[..n]);
      assert items == items[..n] + [items[n]];
      if keep(items[n]) {
        InsertByHolds(lt, rest, items[n]);
        forall y | y in rest ensures lt(items[n], y) || lt(y, items[n]) {
          var i :| 0 <= i < n && items[i] == y;
        }
        InsertByAscends(lt, rest, items[n]);
      }
    }
  }

  /** An ascending sequence is determined by its items. */
  lemma {:induction false} SameAscending<T(!new)>(lt: (T, T) -> bool, a: seq<T>, b: seq<T>)
    requires Transitive(lt) && Ascending(lt, a) && Ascending(lt, b) && forall x :: x in a <==> x in b
    ensures a == b
  {
    BothEmpty(a, b);
    if a != [] {
      var n, m := |a| - 1, |b| - 1;
      LastIsGreatest(lt, a, b);
      LastIsGreatest(lt, b, a);
      assert a[n] == b[m];
      forall x ensures x in a[..n] <==> x in b[..m] {
        LastOnlyOnce(lt, a, x);
        LastOnlyOnce(lt, b, x);
      }
      SameAscending(lt, a[..n], b[..m]);
    }
  }

  lemma BothEmpty<T>(a: seq<T>, b: seq<T>)
    requires forall x :: x in a <==> x in b
    ensures a == [] <==> b == []
  {
    if a != [] {
      assert a[0] in b;
    }
    if b != [] {
      assert b[0] in a;
    }
  }

  lemma LastIsGreatest<T(!new)>(lt: (T, T) -> bool, a: seq<T>, b: seq<T>)
    requires Ascending(lt, a) && a != [] && b != [] && forall x :: x in a <==> x in b
    ensures b[|b| - 1] == a[|a| - 1] || lt(b[|b| - 1], a[|a| - 1])
  {
    assert b[|b| - 1] in a;
  }

  lemma LastOnlyOnce<T(!new)>(lt: (T, T) -> bool, a: seq<T>, x: T)
    requires Transitive(lt) && Ascending(lt, a) && a != []
    ensures x in a[..|a| - 1] <==> x in a && x != a[|a| - 1]
  {
    assert a == a[..|a| - 1] + [a[|a| - 1]];
  }

  /** Asking for what comes after the `k`-th selected item gives the rest of the selection. */
  lemma AfterIsRest<T(!new)>(lt: (T, T) -> bool, keep: T -> bool, after: T -> bool, items: seq<T>, k: nat)
    requires Transitive(lt) && Told(lt, keep, items) && k < |OrderedBy(lt, keep, items)|
    requires forall x :: after(x) <==> keep(x) && lt(OrderedBy(lt, keep, items)[k], x)
    ensures OrderedBy(lt, after, items) == OrderedBy(lt, keep, items)[k + 1..]
  {
    var all := OrderedBy(lt, keep, items);
    OrderedByHolds(lt, keep, items);
    OrderedByHolds(lt, after, items);
    var rest := all[k + 1..];
    forall x ensures x in OrderedBy(lt, after, items) <==> x in rest {
      if x in rest {
        var i :| 0 <= i < |rest| && rest[i] == x;
        assert all[k + 1 + i] == x;
      }
      if x in all && lt(all[k], x) {
        var i :| 0 <= i < |all| && all[i] == x;
        assert i > k;
        assert rest[i - k - 1] == x;
      }
    }
    SameAscending(lt, OrderedBy(lt, after, items), rest);
  }

  function Take<T>(s: seq<T>, n: nat): seq<T> {
    if n <= |s| then s[..n] else s
  }

  function Clamp(limit: int, most: nat): nat
    requires most >= 1
  {
    if limit < 1 then 1 else if limit > most then most else limit
  }

  /** A limit is kept between one and the most. */
  lemma ClampMeans(limit: int, most: nat)
    requires most >= 1
    ensures 1 <= Clamp(limit, most) <= most
    ensures 1 <= limit <= most ==> Clamp(limit, most) == limit
    ensures limit < 1 ==> Clamp(limit, most) == 1
    ensures limit > most ==> Clamp(limit, most) == most
  {
  }

  /** The query itself: the items in the order of the table, each put where the order wants it. */
  method Query<T>(lt: (T, T) -> bool, keep: T -> bool, items: seq<T>) returns (r: seq<T>)
    ensures r == OrderedBy(lt, keep, items)
  {
    r := [];
    for i := 0 to |items|
      invariant r == OrderedBy(lt, keep, items[..i])
    {
      assert items[..i + 1][..i] == items[..i];
      if keep(items[i]) {
        r := InsertBy(lt, r, items[i]);
      }
    }
    assert items[..|items|] == items;
  }
}
