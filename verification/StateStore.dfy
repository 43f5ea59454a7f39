/** The SQLite state store: the version table, the applied-signals table, and the transaction over both. */
module StateStore {
  import opened Json

  datatype Learner = Learner(org: string, ref: string)

  datatype Row = Row(
    learner: Learner, stateId: string, version: nat, updatedAt: string, state: Fields,
    lastSignalId: string, lastSignalTimestamp: string)

  type AppliedTable = map<(Learner, string), nat>

  predicate Clash(a: Row, b: Row) {
    a.stateId == b.stateId || (a.learner == b.learner && a.version == b.version)
  }

  /** The row can be inserted. */
  ghost predicate Free(rows: seq<Row>, row: Row) {
    forall r | r in rows :: !Clash(r, row)
  }

  /** UNIQUE(state_id) and UNIQUE(org_id, learner_reference, state_version). */
  ghost predicate UniqueRows(rows: seq<Row>) {
    forall i, j | 0 <= i < j < |rows| :: !Clash(rows[i], rows[j])
  }

  /** The learner's row with the highest version. */
  function Current(rows: seq<Row>, l: Learner): Option<Row> {
    if rows == [] then None
    else
      var best := Current(rows[..|rows| - 1], l);
      var x := rows[|rows| - 1];
      if x.learner == l && (best.None? || best.value.version < x.version) then Some(x) else best
  }

  lemma {:induction false} CurrentIsHighest(rows: seq<Row>, l: Learner)
    ensures Current(rows, l).None? <==> forall r | r in rows :: r.learner != l
    ensures Current(rows, l).Some? ==>
              Current(rows, l).value in rows && Current(rows, l).value.learner == l &&
              forall r | r in rows && r.learner == l :: r.version <= Current(rows, l).value.version
  {
    if rows != [] {
      var n := |rows| - 1;
      CurrentIsHighest(rows[..n], l);
      assert rows == rows[..n] + [rows[n]];
    }
  }

  /** INSERT OR IGNORE of one entry per id. */
  function InsertOrIgnore(applied: AppliedTable, l: Learner, ids: seq<string>, version: nat): AppliedTable {
    map k | k in applied.Keys + (set id | id in ids :: (l, id)) :: if k in applied then applied[k] else version
  }

  class SqliteStateRepository {
    var rows: seq<Row>
    var applied: AppliedTable

    ghost predicate Valid() reads this {
      UniqueRows(rows)
    }

    constructor ()
      ensures Valid() && rows == [] && applied == map[]
    {
      rows, applied := [], map[];
    }

    method GetState(l: Learner) returns (r: Option<Row>)
      ensures r == Current(rows, l)
    {
      r := None;
      for i := 0 to |rows|
        invariant r == Current(rows[..i], l)
      {
        assert rows[..i + 1][..i] == rows[..i];
        if rows[i].learner == l && (r.None? || r.value.version < rows[i].version) {
          r := Some(rows[i]);
        }
      }
      assert rows[..|rows|] == rows;
    }

    method IsSignalApplied(l: Learner, id: string) returns (r: bool)
      ensures r <==> (l, id) in applied
    {
      r := (l, id) in applied;
    }

    /** One transaction: a constraint violation of the row rolls everything back. */
    method SaveStateWithAppliedSignals(row: Row, ids: seq<string>) returns (ok: bool)
      requires Valid()
      modifies this
      ensures Valid()
      ensures ok <==> Free(old(rows), row)
      ensures ok ==> rows == old(rows) + [row] && applied == InsertOrIgnore(old(applied), row.learner, ids, row.version)
      ensures !ok ==> rows == old(rows) && applied == old(applied)
    {
      ok := true;
      for i := 0 to |rows|
        invariant ok <==> forall j | 0 <= j < i :: !Clash(rows[j], row)
      {
        if Clash(rows[i], row) {
          ok := false;
        }
      }
      if ok {
        rows := rows + [row];
        applied := InsertOrIgnore(applied, row.learner, ids, row.version);
      }
    }
  }
}
