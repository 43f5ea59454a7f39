/** What the summary's paging loop reads from a store that the engine has filled. */
module HistoryPages {
  import Paging
  import opened StateStore
  import opened Replay
  import VersionPages

  lemma {:induction false} OfHolds(h: seq<Commit>, l: Learner, r: Row)
    ensures r in Rows(Of(h, l)) <==> r in Rows(h) && r.learner == l
  {
    if h != [] {
      var n := |h| - 1;
      OfHolds(h[..n], l, r);
      assert Rows(h) == Rows(h[..n]) + [h[n].row];
      assert Rows(Of(h[..n], l) + [h[n]]) == Rows(Of(h[..n], l)) + [h[n].row];
    }
  }

  lemma HistoryAscends(c: seq<Commit>, config: Config)
    requires Replays(c, config)
    ensures Paging.Ascending(VersionPages.BY_VERSION, Rows(c))
    ensures forall r | r in Rows(c) :: 1 <= r.version <= |c|
  {
    forall i | 0 <= i < |c| ensures Rows(c)[i].version == i + 1 {
      assert Made(c, i, config);
    }
  }

  /** All pages together are the learner's history, one row per version, in order. */
  lemma PagesAreHistory(h: seq<Commit>, l: Learner, config: Config)
    requires UniqueRows(Rows(h)) && Replays(Of(h, l), config)
    ensures VersionPages.Versions(Rows(h), l, 1, |Of(h, l)|, 0) == Rows(Of(h, l))
  {
    var a, b := VersionPages.Versions(Rows(h), l, 1, |Of(h, l)|, 0), Rows(Of(h, l));
    HistoryAscends(Of(h, l), config);
    VersionPages.VersionsHold(Rows(h), l, 1, |Of(h, l)|);
    VersionPages.VersionsTold(Rows(h), l, 1, |Of(h, l)|, 0);
    forall r ensures r in a <==> r in b {
      OfHolds(h, l, r);
    }
    Paging.SameAscending(VersionPages.BY_VERSION, a, b);
  }
}
