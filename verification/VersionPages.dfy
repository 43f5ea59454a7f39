/** Reading a learner's versions page by page. */
module VersionPages {
  import opened Json
  import opened Paging
  import opened StateStore

  const BY_VERSION: (Row, Row) -> bool := (a: Row, b: Row) => a.version < b.version

  function InRange(l: Learner, from: int, to: int, after: int): Row -> bool {
    (r: Row) => r.learner == l && from <= r.version <= to && r.version > after
  }

  /** The learner's versions from `from` to `to` that come after `after`, in ascending order. */
  function Versions(rows: seq<Row>, l: Learner, from: int, to: int, after: int): seq<Row> {
    OrderedBy(BY_VERSION, InRange(l, from, to, after), rows)
  }

  lemma VersionsTold(rows: seq<Row>, l: Learner, from: int, to: int, after: int)
    requires UniqueRows(rows)
    ensures Transitive(BY_VERSION) && Told(BY_VERSION, InRange(l, from, to, after), rows)
  {
    forall i, j | 0 <= i < j < |rows| && rows[i].learner == rows[j].learner
      ensures rows[i].version != rows[j].version
    {
      assert !Clash(rows[i], rows[j]);
    }
  }

  const MAX_PAGE := 100

  datatype Page<T> = Page(items: seq<T>, nextCursor: Option<int>)

  method GetStateVersionRange(rows: seq<Row>, l: Learner, from: int, to: int, limit: int, cursor: Option<int>)
      returns (page: Page<Row>)
    ensures var found := Take(Versions(rows, l, from, to, Start(cursor)), Clamp(limit, 100));
            page == Page(found, if |found| == Clamp(limit, 100) && found[|found| - 1].version < to
                                then Some(found[|found| - 1].version) else None)
  {
    var cappedLimit := Clamp(limit, MAX_PAGE);
    var matching := Query(BY_VERSION, InRange(l, from, to, Start(cursor)), rows);
    var states := Take(matching, cappedLimit);
    page := Page(states, if |states| == cappedLimit && states[|states| - 1].version < to
                         then Some(states[|states| - 1].version) else None);
  }

  /** After a full page the next cursor leads to exactly what is left; without one nothing is left. */
  lemma PageAndRest(rows: seq<Row>, l: Learner, from: int, to: int, after: int, n: nat)
    requires UniqueRows(rows) && n >= 1
    ensures var all := Versions(rows, l, from, to, after);
            var found := Take(all, n);
            if |found| == n && found[n - 1].version < to
            then all == found + Versions(rows, l, from, to, found[n - 1].version)
            else all == found
  {
    var all := Versions(rows, l, from, to, after);
    VersionsTold(rows, l, from, to, after);
    OrderedByHolds(BY_VERSION, InRange(l, from, to, after), rows);
    if n <= |all| {
      assert all == all[..n] + all[n..];
      if n < |all| {
        assert BY_VERSION(all[n - 1], all[n]) && all[n] in all;
      }
      if all[n - 1].version < to {
        assert all[n - 1] in all;
        AfterIsRest(BY_VERSION, InRange(l, from, to, after), InRange(l, from, to, all[n - 1].version), rows, n - 1);
      }
    }
  }

  const PAGE_SIZE := 100
  const SAFETY_CAP_PAGES := 10

  /** As many rows as this many full pages hold. */
  function RowsOf(pages: nat, size: nat): nat {
    if pages == 0 then 0 else RowsOf(pages - 1, size) + size
  }

  lemma {:induction false} RowsOfGrows(page: nat, pages: nat, size: nat)
    requires page <= pages
    ensures RowsOf(page, size) <= RowsOf(pages, size)
  {
    if page < pages {
      RowsOfGrows(page, pages - 1, size);
    }
  }

  function Start(cursor: Option<int>): int {
    if cursor.Some? then cursor.value else 0
  }

  /** One page, and what the next cursor leads to. */
  method ReadPage(rows: seq<Row>, l: Learner, from: int, to: int, limit: int, cursor: Option<int>)
      returns (page: Page<Row>, ghost rest: seq<Row>)
    requires UniqueRows(rows)
    ensures Versions(rows, l, from, to, Start(cursor)) == page.items + rest
    ensures if page.nextCursor.Some?
            then |page.items| == Clamp(limit, MAX_PAGE) && rest == Versions(rows, l, from, to, page.nextCursor.value)
            else |page.items| <= Clamp(limit, MAX_PAGE) && rest == []
  {
    PageAndRest(rows, l, from, to, Start(cursor), Clamp(limit, MAX_PAGE));
    page := GetStateVersionRange(rows, l, from, to, limit, cursor);
    rest := if page.nextCursor.Some? then Versions(rows, l, from, to, page.nextCursor.value) else [];
  }

  /** Following the cursors for at most `pages` pages. */
  method FollowCursors(rows: seq<Row>, l: Learner, from: int, to: int, limit: int, pages: nat)
      returns (states: seq<Row>)
    requires UniqueRows(rows)
    ensures states == Take(Versions(rows, l, from, to, 0), RowsOf(pages, Clamp(limit, MAX_PAGE)))
  {
    states := [];
    var cursor: Option<int> := None;
    ghost var rest := Versions(rows, l, from, to, 0);
    for page := 0 to pages
      invariant |states| == RowsOf(page, Clamp(limit, MAX_PAGE))
      invariant Versions(rows, l, from, to, 0) == states + rest && rest == Versions(rows, l, from, to, Start(cursor))
    {
      RowsOfGrows(page + 1, pages, Clamp(limit, MAX_PAGE));
      var p, left := ReadPage(rows, l, from, to, limit, cursor);
      states := states + p.items;
      rest := left;
      if p.nextCursor.None? {
        return;
      }
      cursor := p.nextCursor;
    }
  }

  /** The summary's loop reads exactly the first thousand versions, or all of them if there are fewer. */
  method CollectAllStateVersions(rows: seq<Row>, l: Learner, toVersion: int) returns (states: seq<Row>)
    requires UniqueRows(rows)
    ensures states == Take(Versions(rows, l, 1, toVersion, 0), 1000)
  {
    states := FollowCursors(rows, l, 1, toVersion, PAGE_SIZE, SAFETY_CAP_PAGES);
    assert RowsOf(10, 100) == 1000;
  }

  /** Following the cursors until there is none comes to an end, and has then read the whole range. */
  method ReadAllPages(rows: seq<Row>, l: Learner, from: int, to: int, limit: int) returns (states: seq<Row>)
    requires UniqueRows(rows)
    ensures states == Versions(rows, l, from, to, 0)
  {
    states := [];
    var cursor: Option<int> := None;
    var more := true;
    ghost var rest := Versions(rows, l, from, to, 0);
    while more
      invariant Versions(rows, l, from, to, 0) == states + rest
      invariant if more then rest == Versions(rows, l, from, to, Start(cursor)) else rest == []
      decreases more, |rest|
    {
      var p, left := ReadPage(rows, l, from, to, limit, cursor);
      states := states + p.items;
      rest := left;
      more := p.nextCursor.Some?;
      cursor := p.nextCursor;
    }
  }

  /** The pages hold each version of the range exactly once, in ascending order. */
  lemma VersionsHold(rows: seq<Row>, l: Learner, from: int, to: int)
    requires UniqueRows(rows)
    ensures forall r :: r in Versions(rows, l, from, to, 0) <==>
                        r in rows && r.learner == l && from <= r.version <= to && r.version > 0
    ensures forall i, j | 0 <= i < j < |Versions(rows, l, from, to, 0)| ::
              Versions(rows, l, from, to, 0)[i].version < Versions(rows, l, from, to, 0)[j].version
  {
    VersionsTold(rows, l, from, to, 0);
    OrderedByHolds(BY_VERSION, InRange(l, from, to, 0), rows);
  }
}
