/** Listing an organisation's learners page by page, the most recently updated first. */
module LearnerPages {
  import opened Json
  import opened Text
  import Paging
  import opened StateStore

  /** `updated_at` descending, then `learner_reference` ascending. */
  predicate Precedes(u: string, l: string, v: string, m: string) {
    Less(v, u) || (u == v && Less(l, m))
  }

  const BEFORE: (Row, Row) -> bool := (a: Row, b: Row) =>
      Precedes(a.updatedAt, a.learner.ref, b.updatedAt, b.learner.ref)

  /** The row is its learner's latest version. */
  predicate Latest(rows: seq<Row>, org: string, r: Row) {
    r.learner.org == org && Current(rows, r.learner) == Some(r)
  }

  datatype Cursor = Cursor(updatedAt: string, learner: string)

  /** Where a listing without a cursor starts. */
  const START: Cursor := Cursor("\U{FFFF}", "")

  function Listed(rows: seq<Row>, org: string, c: Cursor): Row -> bool {
    (r: Row) => Latest(rows, org, r) && Precedes(c.updatedAt, c.learner, r.updatedAt, r.learner.ref)
  }

  function Listing(rows: seq<Row>, org: string, c: Cursor): seq<Row> {
    Paging.OrderedBy(BEFORE, Listed(rows, org, c), rows)
  }

  lemma PrecedesTransitive(u: string, l: string, v: string, m: string, w: string, n: string)
    requires Precedes(u, l, v, m) && Precedes(v, m, w, n)
    ensures Precedes(u, l, w, n)
  {
    if Less(v, u) && Less(w, v) {
      LessTransitive(w, v, u);
    } else if u == v && v == w {
      LessTransitive(l, m, n);
    }
  }

  lemma PrecedesIrreflexive(u: string, l: string)
    ensures !Precedes(u, l, u, l)
  {
    LessIrreflexive(u);
    LessIrreflexive(l);
  }

  lemma BeforeIsOrder()
    ensures Paging.Transitive(BEFORE)
  {
    forall a, b, c | BEFORE(a, b) && BEFORE(b, c) ensures BEFORE(a, c) {
      PrecedesTransitive(a.updatedAt, a.learner.ref, b.updatedAt, b.learner.ref, c.updatedAt, c.learner.ref);
    }
    forall a ensures !BEFORE(a, a) {
      PrecedesIrreflexive(a.updatedAt, a.learner.ref);
    }
  }

  lemma ListingTold(rows: seq<Row>, org: string, c: Cursor)
    requires UniqueRows(rows)
    ensures Paging.Told(BEFORE, Listed(rows, org, c), rows)
  {
    forall i, j | 0 <= i < j < |rows| && Latest(rows, org, rows[i]) && Latest(rows, org, rows[j])
      ensures BEFORE(rows[i], rows[j]) || BEFORE(rows[j], rows[i])
    {
      assert !Clash(rows[i], rows[j]);
      LessTotal(rows[i].updatedAt, rows[j].updatedAt);
      LessTotal(rows[i].learner.ref, rows[j].learner.ref);
    }
  }

  const MAX_PAGE := 500

  datatype Page = Page(learners: seq<Row>, nextCursor: Option<Cursor>)

  function CursorOf(r: Row): Cursor {
    Cursor(r.updatedAt, r.learner.ref)
  }

  /** One row more than the page holds is asked for, to tell whether there is a next page. */
  method ListLearners(rows: seq<Row>, org: string, limit: int, cursor: Option<Cursor>) returns (page: Page)
    ensures var all := Listing(rows, org, StartOf(cursor));
            var n := Paging.Clamp(limit, 500);
            page.learners == Paging.Take(all, n) &&
            page.nextCursor == if |all| > n then Some(CursorOf(all[n - 1])) else None
  {
    var cappedLimit := Paging.Clamp(limit, MAX_PAGE);
    var start := StartOf(cursor);
    var matching := Paging.Query(BEFORE, Listed(rows, org, start), rows);
    var found := Paging.Take(matching, cappedLimit + 1);
    page := Page(Paging.Take(found, cappedLimit),
                 if |found| > cappedLimit then Some(CursorOf(found[cappedLimit - 1])) else None);
  }

  /** The cursor of the `k`-th learner leads to exactly the learners behind it. */
  lemma CursorLeadsToRest(rows: seq<Row>, org: string, c: Cursor, k: nat)
    requires UniqueRows(rows) && k < |Listing(rows, org, c)|
    ensures Listing(rows, org, CursorOf(Listing(rows, org, c)[k])) == Listing(rows, org, c)[k + 1..]
  {
    var all := Listing(rows, org, c);
    BeforeIsOrder();
    ListingTold(rows, org, c);
    Paging.OrderedByHolds(BEFORE, Listed(rows, org, c), rows);
    assert all[k] in all;
    var x := all[k];
    forall r ensures Listed(rows, org, CursorOf(x))(r) <==> Listed(rows, org, c)(r) && BEFORE(x, r) {
      if BEFORE(x, r) {
        PrecedesTransitive(c.updatedAt, c.learner, x.updatedAt, x.learner.ref, r.updatedAt, r.learner.ref);
      }
    }
    Paging.AfterIsRest(BEFORE, Listed(rows, org, c), Listed(rows, org, CursorOf(x)), rows, k);
  }

  lemma PageAndRest(rows: seq<Row>, org: string, c: Cursor, n: nat)
    requires UniqueRows(rows) && n >= 1
    ensures var all := Listing(rows, org, c);
            all == Paging.Take(all, n) + if |all| > n then Listing(rows, org, CursorOf(all[n - 1])) else []
  {
    var all := Listing(rows, org, c);
    if n < |all| {
      CursorLeadsToRest(rows, org, c, n - 1);
      assert all == all[..n] + all[n..];
    }
  }

  function StartOf(cursor: Option<Cursor>): Cursor {
    if cursor.Some? then cursor.value else START
  }

  /** Following the cursors to the end. */
  method ListAll(rows: seq<Row>, org: string, limit: int) returns (learners: seq<Row>)
    requires UniqueRows(rows)
    ensures learners == Listing(rows, org, START)
  {
    learners := [];
    ghost var rest := Listing(rows, org, START);
    var cursor: Option<Cursor> := None;
    var more := true;
    while more
      invariant Listing(rows, org, START) == learners + rest
      invariant if more then rest == Listing(rows, org, StartOf(cursor)) else rest == []
      decreases more, |rest|
    {
      var page := ListLearners(rows, org, limit, cursor);
      PageAndRest(rows, org, StartOf(cursor), Paging.Clamp(limit, MAX_PAGE));
      rest := if page.nextCursor.Some? then Listing(rows, org, page.nextCursor.value) else [];
      learners := learners + page.learners;
      more := page.nextCursor.Some?;
      cursor := page.nextCursor;
    }
  }

  /** The listing holds the latest version of every learner of the organisation exactly once, in order, as
      long as every time stamp is below the character the first page starts from. */
  lemma ListingHolds(rows: seq<Row>, org: string, l: Learner)
    requires UniqueRows(rows) && l.org == org && exists r :: r in rows && r.learner == l
    requires forall r | r in rows :: Less(r.updatedAt, START.updatedAt)
    ensures Current(rows, l).Some? && Current(rows, l).value in Listing(rows, org, START)
    ensures forall i, j | 0 <= i < j < |Listing(rows, org, START)| ::
              BEFORE(Listing(rows, org, START)[i], Listing(rows, org, START)[j]) &&
              Listing(rows, org, START)[i].learner != Listing(rows, org, START)[j].learner
    ensures forall i, j | 0 <= i < j < |Listing(rows, org, START)| ::
              var a, b := Listing(rows, org, START)[i], Listing(rows, org, START)[j];
              Less(b.updatedAt, a.updatedAt) || (a.updatedAt == b.updatedAt && Less(a.learner.ref, b.learner.ref))
    ensures forall r | r in Listing(rows, org, START) ::
              r in rows && r.learner.org == org && Current(rows, r.learner) == Some(r)
  {
    BeforeIsOrder();
    ListingTold(rows, org, START);
    Paging.OrderedByHolds(BEFORE, Listed(rows, org, START), rows);
    CurrentIsHighest(rows, l);
    var all := Listing(rows, org, START);
    forall i, j | 0 <= i < j < |all| ensures BEFORE(all[i], all[j]) && all[i].learner != all[j].learner {
      assert all[i] in all && all[j] in all;
      assert BEFORE(all[i], all[j]);
      PrecedesIrreflexive(all[i].updatedAt, all[i].learner.ref);
    }
  }
}
