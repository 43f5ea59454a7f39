/** The append-only signal log and the lookup of a batch of signals in it. */
module SignalLog {
  import opened Json
  import opened Text
  import opened Paging

  datatype Signal = Signal(org: string, learner: string, id: string, payload: Json, acceptedAt: string)

  /** UNIQUE(org_id, signal_id). */
  ghost predicate Unique(log: seq<Signal>) {
    forall i, j | 0 <= i < j < |log| :: log[i].org != log[j].org || log[i].id != log[j].id
  }

  predicate Has(log: seq<Signal>, org: string, id: string) {
    exists i :: 0 <= i < |log| && log[i].org == org && log[i].id == id
  }

  predicate Anywhere(log: seq<Signal>, id: string) {
    exists i :: 0 <= i < |log| && log[i].id == id
  }

  const BY_TIME: (Signal, Signal) -> bool := (a: Signal, b: Signal) => Less(a.acceptedAt, b.acceptedAt)

  function Wanted(org: string, ids: seq<string>): Signal -> bool {
    (x: Signal) => x.org == org && x.id in ids
  }

  /** The organisation's records with these ids, by time of acceptance and then by place in the log. */
  function Selected(log: seq<Signal>, org: string, ids: seq<string>): seq<Signal> {
    OrderedBy(BY_TIME, Wanted(org, ids), log)
  }

  ghost predicate DistinctIds(s: seq<Signal>) {
    forall i, j | 0 <= i < j < |s| :: s[i].id != s[j].id
  }

  lemma {:induction false} InsertDistinct(s: seq<Signal>, x: Signal)
    requires DistinctIds(s) && forall y | y in s :: y.id != x.id
    ensures DistinctIds(InsertBy(BY_TIME, s, x))
  {
    if s != [] && Less(x.acceptedAt, s[|s| - 1].acceptedAt) {
      var n := |s| - 1;
      InsertDistinct(s[..n], x);
      InsertByHolds(BY_TIME, s[..n], x);
      forall y | y in InsertBy(BY_TIME, s[..n], x) ensures y.id != s[n].id {}
    }
  }

  ghost predicate InOrder(s: seq<Signal>) {
    forall i, j | 0 <= i < j < |s| :: !Less(s[j].acceptedAt, s[i].acceptedAt)
  }

  lemma {:induction false} InsertInOrder(s: seq<Signal>, x: Signal)
    requires InOrder(s)
    ensures InOrder(InsertBy(BY_TIME, s, x))
  {
    if s != [] {
      var n := |s| - 1;
      if Less(x.acceptedAt, s[n].acceptedAt) {
        InsertInOrder(s[..n], x);
        InsertByHolds(BY_TIME, s[..n], x);
        forall y | y in InsertBy(BY_TIME, s[..n], x) ensures !Less(s[n].acceptedAt, y.acceptedAt) {
          if y == x && Less(s[n].acceptedAt, x.acceptedAt) {
            LessTransitive(x.acceptedAt, s[n].acceptedAt, x.acceptedAt);
            LessIrreflexive(x.acceptedAt);
          }
        }
      } else {
        forall i | 0 <= i < n ensures !Less(x.acceptedAt, s[i].acceptedAt) {
          if Less(x.acceptedAt, s[i].acceptedAt) {
            LessTotal(x.acceptedAt, s[n].acceptedAt);
            if x.acceptedAt != s[n].acceptedAt {
              LessTransitive(s[n].acceptedAt, x.acceptedAt, s[i].acceptedAt);
            }
          }
        }
      }
    }
  }

  /** The selection is the organisation's records with a requested id, no other record, each id once, in the
      order in which they were accepted. */
  lemma {:induction false} SelectedHolds(log: seq<Signal>, org: string, ids: seq<string>)
    requires Unique(log)
    ensures forall y :: y in Selected(log, org, ids) <==> y in log && y.org == org && y.id in ids
    ensures DistinctIds(Selected(log, org, ids)) && InOrder(Selected(log, org, ids))
  {
    if log != [] {
      var n := |log| - 1;
      SelectedHolds(log[..n], org, ids);
      assert log == log[..n] + [log[n]];
      if log[n].org == org && log[n].id in ids {
        var rest := Selected(log[..n], org, ids);
        InsertByHolds(BY_TIME, rest, log[n]);
        forall y | y in rest ensures y.id != log[n].id {
          assert y in log[..n];
        }
        InsertDistinct(rest, log[n]);
        InsertInOrder(rest, log[n]);
      }
    }
  }

  datatype Lookup = Records(signals: seq<Signal>) | Unknown | OutOfScope

  /** What a lookup answers: an id logged nowhere is reported before an id of another organisation. */
  ghost predicate IsLookup(log: seq<Signal>, org: string, ids: seq<string>, r: Lookup) {
    match r
    case Records(signals) => signals == Selected(log, org, ids) && forall id | id in ids :: Has(log, org, id)
    case Unknown => exists id | id in ids :: !Anywhere(log, id)
    case OutOfScope => (forall id | id in ids :: Anywhere(log, id)) && exists id | id in ids :: !Has(log, org, id)
  }

  class SqliteSignalLogRepository {
    var log: seq<Signal>

    ghost predicate Valid() reads this {
      Unique(log)
    }

    constructor ()
      ensures Valid() && log == []
    {
      log := [];
    }

    /** INSERT; a second record of the same organisation and id is refused. */
    method AppendSignal(signal: Signal) returns (ok: bool)
      requires Valid()
      modifies this
      ensures Valid()
      ensures ok <==> !Has(old(log), signal.org, signal.id)
      ensures log == if ok then old(log) + [signal] else old(log)
    {
      ok := !Has(log, signal.org, signal.id);
      if ok {
        log := log + [signal];
      }
    }

    method GetSignalsByIds(org: string, ids: seq<string>) returns (r: Lookup)
      requires Valid()
      ensures IsLookup(log, org, ids, r)
    {
      if |ids| == 0 {
        SelectNothing(log, org);
        return Records([]);
      }
      var rows := Query(BY_TIME, Wanted(org, ids), log);
      var missing := false;
      for i := 0 to |ids|
        invariant missing <==> exists j :: 0 <= j < i && !Has(log, org, ids[j])
        invariant forall j | 0 <= j < i :: Anywhere(log, ids[j])
      {
        FoundInRows(log, org, ids, ids[i]);
        if !HasId(rows, ids[i]) {
          missing := true;
          if !Anywhere(log, ids[i]) {
            return Unknown;
          }
        }
      }
      r := if missing then OutOfScope else Records(rows);
    }
  }

  predicate HasId(rows: seq<Signal>, id: string) {
    exists k :: 0 <= k < |rows| && rows[k].id == id
  }

  lemma FoundInRows(log: seq<Signal>, org: string, ids: seq<string>, id: string)
    requires Unique(log) && id in ids
    ensures HasId(Selected(log, org, ids), id) <==> Has(log, org, id)
    ensures Has(log, org, id) ==> Anywhere(log, id)
  {
    var rows := Selected(log, org, ids);
    SelectedHolds(log, org, ids);
    if HasId(rows, id) {
      var k :| 0 <= k < |rows| && rows[k].id == id;
      assert rows[k] in log;
    }
    if Has(log, org, id) {
      var k :| 0 <= k < |log| && log[k].org == org && log[k].id == id;
      assert log[k] in rows;
    }
  }

  lemma {:induction false} SelectNothing(log: seq<Signal>, org: string)
    ensures Selected(log, org, []) == []
  {
    if log != [] {
      SelectNothing(log[..|log| - 1], org);
    }
  }

  // ----- The lookup of the DynamoDB form -----

  const BATCH_LIMIT := 100

  /** The records one batch request answers with. */
  function Items(log: seq<Signal>, org: string, chunk: seq<string>): set<Signal> {
    set x | x in log && x.org == org && x.id in chunk
  }

  /** Chunk by chunk, no more than 100 keys each; the first id without a record ends it with an error. */
  method GetSignalsByIdsInChunks(log: seq<Signal>, org: string, signalIds: seq<string>) returns (r: Option<set<Signal>>)
    ensures r == if forall id | id in signalIds :: Has(log, org, id) then Some(Items(log, org, signalIds)) else None
  {
    var allRecords := {};
    var i := 0;
    while i < |signalIds|
      invariant 0 <= i <= |signalIds|
      invariant allRecords == Items(log, org, signalIds[..i])
    {
      var end := if i + BATCH_LIMIT <= |signalIds| then i + BATCH_LIMIT else |signalIds|;
      var chunk := signalIds[i..end];
      assert signalIds[..end] == signalIds[..i] + chunk;
      allRecords := allRecords + Items(log, org, chunk);
      i := end;
    }
    assert signalIds[..|signalIds|] == signalIds;
    for j := 0 to |signalIds|
      invariant forall k | 0 <= k < j :: Has(log, org, signalIds[k])
    {
      var found := exists x | x in allRecords :: x.id == signalIds[j];
      assert found <==> Has(log, org, signalIds[j]) by {
        if Has(log, org, signalIds[j]) {
          var k :| 0 <= k < |log| && log[k].org == org && log[k].id == signalIds[j];
          assert log[k] in allRecords;
        }
      }
      if !found {
        return None;
      }
    }
    r := Some(allRecords);
  }
}
