/** What the two tables of the state store mean as a history of batches, one history per learner. */
module Replay {
  import opened Json
  import opened ForbiddenKeys
  import opened SignalLog
  import opened StateStore
  import opened Evidence
  import Aggregation
  import Deltas
  import StateReducer
  import Trajectory

  /** A stored row together with the batch of signals it was computed from. */
  datatype Commit = Commit(row: Row, batch: seq<Signal>)

  type Config = Option<Aggregation.SubjectConfig>

  function Rows(h: seq<Commit>): seq<Row> {
    seq(|h|, i requires 0 <= i < |h| => h[i].row)
  }

  function Payloads(batch: seq<Signal>): seq<Json> {
    seq(|batch|, i requires 0 <= i < |batch| => batch[i].payload)
  }

  function Ids(batch: seq<Signal>): seq<string> {
    seq(|batch|, i requires 0 <= i < |batch| => batch[i].id)
  }

  /** One learner's part of the history. */
  function Of(h: seq<Commit>, l: Learner): seq<Commit> {
    if h == [] then []
    else
      var n := |h| - 1;
      if h[n].row.learner == l then Of(h[..n], l) + [h[n]] else Of(h[..n], l)
  }

  lemma OfAppend(h: seq<Commit>, c: Commit, l: Learner)
    ensures Of(h + [c], l) == if c.row.learner == l then Of(h, l) + [c] else Of(h, l)
  {
    assert (h + [c])[..|h|] == h;
  }

  /** The state before version `v + 1`. */
  function StateBefore(c: seq<Commit>, v: nat): Fields
    requires v <= |c|
  {
    if v == 0 then map[] else c[v - 1].row.state
  }

  /** The engine may compute this state from the learner's last one and the batch. */
  ghost predicate Computed(c: seq<Commit>, batch: seq<Signal>, config: Config, state: Fields) {
    StateReducer.Applies(StateBefore(c, |c|), Payloads(batch), config, |c| + 1, state)
  }

  /** Version `i + 1` was made from version `i` and its batch. */
  ghost predicate Made(c: seq<Commit>, i: nat, config: Config)
    requires i < |c|
  {
    c[i].row.version == i + 1 && c[i].batch != [] && Clean(Obj(c[i].row.state)) &&
    StateReducer.Applies(StateBefore(c, i), Payloads(c[i].batch), config, i + 1, c[i].row.state)
  }

  ghost predicate Replays(c: seq<Commit>, config: Config) {
    forall i | 0 <= i < |c| :: Made(c, i, config)
  }

  ghost predicate FreshBatches(c: seq<Commit>) {
    (forall i | 0 <= i < |c| :: DistinctIds(c[i].batch)) &&
    forall i, j, x, y | 0 <= i < j < |c| && x in c[i].batch && y in c[j].batch :: x.id != y.id
  }

  /** The signal is part of the batch of version `v`. */
  ghost predicate RecordedAt(c: seq<Commit>, id: string, v: nat) {
    1 <= v <= |c| && exists x :: x in c[v - 1].batch && x.id == id
  }

  ghost predicate AppliedIs(applied: AppliedTable, h: seq<Commit>) {
    (forall k | k in applied :: RecordedAt(Of(h, k.0), k.1, applied[k])) &&
    forall l, id, v :: RecordedAt(Of(h, l), id, v) ==> (l, id) in applied && applied[(l, id)] == v
  }

  ghost predicate LearnersOk(h: seq<Commit>, config: string -> Config) {
    forall l: Learner :: Replays(Of(h, l), config(l.org)) && FreshBatches(Of(h, l))
  }

  /** The two tables are what the history of batches makes of them. */
  ghost predicate Good(rows: seq<Row>, applied: AppliedTable, h: seq<Commit>, config: string -> Config) {
    rows == Rows(h) && LearnersOk(h, config) && AppliedIs(applied, h)
  }

  /** The current row is the last one of the learner's history. */
  lemma {:induction false} CurrentIsLast(h: seq<Commit>, l: Learner, config: Config)
    requires Replays(Of(h, l), config)
    ensures Current(Rows(h), l) == if Of(h, l) == [] then None else Some(Of(h, l)[|Of(h, l)| - 1].row)
    ensures Of(h, l) != [] ==> Current(Rows(h), l).value.version == |Of(h, l)|
  {
    if h != [] {
      var n := |h| - 1;
      assert Rows(h)[..n] == Rows(h[..n]);
      EarlierReplays(h, l, config);
      CurrentIsLast(h[..n], l, config);
      if h[n].row.learner == l {
        assert Made(Of(h, l), |Of(h[..n], l)|, config);
      }
    }
  }

  lemma EarlierReplays(h: seq<Commit>, l: Learner, config: Config)
    requires h != [] && Replays(Of(h, l), config)
    ensures Replays(Of(h[..|h| - 1], l), config)
  {
    var c, d := Of(h, l), Of(h[..|h| - 1], l);
    forall i | 0 <= i < |d| ensures Made(d, i, config) {
      assert Made(c, i, config);
    }
  }

  // ----- One more commit -----

  /** What a commit must be to follow a learner's history. */
  ghost predicate Follows(c: seq<Commit>, next: Commit, applied: AppliedTable, config: Config) {
    next.row.version == |c| + 1 && next.batch != [] && Clean(Obj(next.row.state)) && DistinctIds(next.batch) &&
    (forall x | x in next.batch :: (next.row.learner, x.id) !in applied) &&
    Computed(c, next.batch, config, next.row.state)
  }

  lemma FollowsReplays(c: seq<Commit>, next: Commit, applied: AppliedTable, config: Config)
    requires Replays(c, config) && Follows(c, next, applied, config)
    ensures Replays(c + [next], config)
  {
    var d := c + [next];
    forall i | 0 <= i < |d| ensures Made(d, i, config) {
      assert StateBefore(d, i) == StateBefore(c, i);
      assert i < |c| ==> Made(c, i, config);
    }
  }

  lemma FollowsFresh(h: seq<Commit>, next: Commit, applied: AppliedTable)
    requires AppliedIs(applied, h) && FreshBatches(Of(h, next.row.learner)) && DistinctIds(next.batch)
    requires forall x | x in next.batch :: (next.row.learner, x.id) !in applied
    ensures FreshBatches(Of(h, next.row.learner) + [next])
  {
    var l := next.row.learner;
    var c := Of(h, l);
    forall i, x, y | 0 <= i < |c| && x in c[i].batch && y in next.batch ensures x.id != y.id {
      assert RecordedAt(c, x.id, i + 1);
    }
  }

  lemma RecordedAppend(c: seq<Commit>, next: Commit, id: string, v: nat)
    ensures RecordedAt(c + [next], id, v) <==>
            RecordedAt(c, id, v) || (v == |c| + 1 && exists x :: x in next.batch && x.id == id)
  {
    if 1 <= v <= |c| {
      assert (c + [next])[v - 1] == c[v - 1];
    }
  }

  lemma FollowsApplied(h: seq<Commit>, next: Commit, applied: AppliedTable)
    requires AppliedIs(applied, h) && next.row.version == |Of(h, next.row.learner)| + 1
    requires forall x | x in next.batch :: (next.row.learner, x.id) !in applied
    ensures AppliedIs(InsertOrIgnore(applied, next.row.learner, Ids(next.batch), next.row.version), h + [next])
  {
    var l := next.row.learner;
    var after := InsertOrIgnore(applied, l, Ids(next.batch), next.row.version);
    forall id ensures id in Ids(next.batch) <==> exists x :: x in next.batch && x.id == id {
      if x :| x in next.batch && x.id == id {
        var i :| 0 <= i < |next.batch| && next.batch[i] == x;
        assert Ids(next.batch)[i] == id;
      }
      if id in Ids(next.batch) {
        var i :| 0 <= i < |next.batch| && Ids(next.batch)[i] == id;
        assert next.batch[i] in next.batch;
      }
    }
    forall k | k in after ensures RecordedAt(Of(h + [next], k.0), k.1, after[k]) {
      OfAppend(h, next, k.0);
      RecordedAppend(Of(h, k.0), next, k.1, after[k]);
    }
    forall m, id, v | RecordedAt(Of(h + [next], m), id, v) ensures (m, id) in after && after[(m, id)] == v {
      OfAppend(h, next, m);
      RecordedAppend(Of(h, m), next, id, v);
    }
  }

  /** Storing a commit that follows its learner's history keeps the tables what the history makes of them. */
  lemma GoodAppend(rows: seq<Row>, applied: AppliedTable, h: seq<Commit>, next: Commit, config: string -> Config)
    requires Good(rows, applied, h, config) &&
             Follows(Of(h, next.row.learner), next, applied, config(next.row.learner.org))
    ensures Good(rows + [next.row], InsertOrIgnore(applied, next.row.learner, Ids(next.batch), next.row.version),
                 h + [next], config)
  {
    var l := next.row.learner;
    FollowsReplays(Of(h, l), next, applied, config(l.org));
    FollowsFresh(h, next, applied);
    FollowsApplied(h, next, applied);
    forall m: Learner ensures Replays(Of(h + [next], m), config(m.org)) && FreshBatches(Of(h + [next], m)) {
      OfAppend(h, next, m);
    }
    assert Rows(h + [next]) == Rows(h) + [next.row];
  }

  // ----- What a history says -----

  /** The fold of all batches from the empty state, in which each step may pick any state the engine may
      compute. */
  ghost predicate FoldsTo(batches: seq<seq<Signal>>, config: Config, state: Fields)
    decreases |batches|
  {
    if batches == [] then state == map[]
    else
      var n := |batches| - 1;
      exists prior :: FoldsTo(batches[..n], config, prior) &&
                      StateReducer.Applies(prior, Payloads(batches[n]), config, n + 1, state)
  }

  function Batches(c: seq<Commit>): seq<seq<Signal>> {
    seq(|c|, i requires 0 <= i < |c| => c[i].batch)
  }

  /** Replay: the state of a learner's version `v` is the fold of its first `v` batches from `{}`. */
  lemma {:induction false} StateIsFold(c: seq<Commit>, config: Config, v: nat)
    requires Replays(c, config) && v <= |c|
    ensures FoldsTo(Batches(c)[..v], config, StateBefore(c, v))
  {
    if v > 0 {
      StateIsFold(c, config, v - 1);
      assert Made(c, v - 1, config);
      assert Batches(c)[..v][..v - 1] == Batches(c)[..v - 1];
    }
  }

  /** The aggregation stored with a version names that version. */
  lemma AggregationNamesItsVersion(c: seq<Commit>, config: Config, i: nat)
    requires Replays(c, config) && i < |c| && "aggregation" in c[i].row.state
    ensures Get(Obj(c[i].row.state), ["aggregation", "computed_at_version"]) == Some(Num(c[i].row.version as real))
  {
    assert Made(c, i, config);
    StateReducer.ComputedAtVersion(StateBefore(c, i), Payloads(c[i].batch), config, i + 1, c[i].row.state);
  }

  function States(c: seq<Commit>): seq<Fields> {
    seq(|c|, i requires 0 <= i < |c| => c[i].row.state)
  }

  lemma MadeFollows(c: seq<Commit>, config: Config, i: nat)
    requires Replays(c, config) && 0 < i < |c|
    ensures Trajectory.Follows(c[i - 1].row.state, c[i].row.state)
  {
    assert Made(c, i, config);
    StateReducer.AppliesFollows(StateBefore(c, i), Payloads(c[i].batch), config, i + 1, c[i].row.state);
  }

  lemma StateInSlice(c: seq<Commit>, a: nat, b: nat, i: nat)
    requires a + i < b <= |c|
    ensures States(c)[a..b][i] == c[a + i].row.state
  {
  }

  lemma StatesAreHistory(c: seq<Commit>, config: Config, a: nat, b: nat)
    requires Replays(c, config) && a <= b <= |c|
    ensures Trajectory.IsHistory(States(c)[a..b])
  {
    forall i | 0 < i < b - a ensures Trajectory.Follows(States(c)[a..b][i - 1], States(c)[a..b][i]) {
      StateInSlice(c, a, b, i - 1);
      StateInSlice(c, a, b, i);
      MadeFollows(c, config, a + i);
    }
  }

  /** Telescoping over the stored versions `a + 1` to `b`. */
  lemma StoredDeltasTelescope(c: seq<Commit>, config: Config, f: string, a: nat, b: nat)
    requires Replays(c, config) && a < b <= |c| && Trajectory.AlwaysNumeric(States(c)[a..b], f) && Deltas.Base(f)
    requires f + "_delta" in c[a].row.state ==> !c[a].row.state[f + "_delta"].Obj?
    ensures Trajectory.SumOfDeltas(States(c)[a..b], f) ==
            Trajectory.NumberAt(c[b - 1].row.state, f) - Trajectory.NumberAt(c[a].row.state, f)
  {
    StatesAreHistory(c, config, a, b);
    StateInSlice(c, a, b, 0);
    StateInSlice(c, a, b, b - 1 - a);
    Telescoped(States(c)[a..b], c[a].row.state, c[b - 1].row.state, f);
  }

  lemma Telescoped(s: seq<Fields>, first: Fields, last: Fields, f: string)
    requires s != [] && Trajectory.IsHistory(s) && Deltas.Base(f) && Trajectory.AlwaysNumeric(s, f)
    requires s[0] == first && s[|s| - 1] == last && (f + "_delta" in first ==> !first[f + "_delta"].Obj?)
    ensures Trajectory.SumOfDeltas(s, f) == Trajectory.NumberAt(last, f) - Trajectory.NumberAt(first, f)
  {
    Trajectory.DeltasTelescope(s, f);
  }

  // ----- Evidence over a run -----

  /** The ids of a learner's applied signals that carry a score for the skill. */
  ghost function Scorers(c: seq<Commit>, skill: string): set<string> {
    if c == [] then {}
    else Scorers(c[..|c| - 1], skill) + BatchScorers(c[|c| - 1].batch, skill)
  }

  ghost function BatchScorers(batch: seq<Signal>, skill: string): set<string> {
    set x | x in batch && skill in Scored(x.payload) :: x.id
  }

  /** In a batch of distinct ids the tally is the number of ids that score. */
  lemma {:induction false} TallyIsCardinality(batch: seq<Signal>, skill: string)
    requires DistinctIds(batch)
    ensures Tally(Payloads(batch), skill) == |BatchScorers(batch, skill)|
  {
    if batch != [] {
      var n := |batch| - 1;
      TallyIsCardinality(batch[..n], skill);
      assert Payloads(batch)[..n] == Payloads(batch[..n]);
      LastScorer(batch, skill);
    }
  }

  lemma LastScorer(batch: seq<Signal>, skill: string)
    requires DistinctIds(batch) && batch != []
    ensures var x := batch[|batch| - 1];
            x.id !in BatchScorers(batch[..|batch| - 1], skill) &&
            BatchScorers(batch, skill) ==
            BatchScorers(batch[..|batch| - 1], skill) + if skill in Scored(x.payload) then {x.id} else {}
  {
    assert batch == batch[..|batch| - 1] + [batch[|batch| - 1]];
  }

  /** No payload sets the skill's count, removes or replaces the skill, or puts anything but an object under a
      skill that this one is named a companion of. */
  ghost predicate LeaveCounts(c: seq<Commit>, skill: string) {
    forall i, x | 0 <= i < |c| && x in c[i].batch :: LeavesCount(x.payload, skill) && LeavesOwners(x.payload, skill)
  }

  lemma {:induction false} ScorersAreRecorded(c: seq<Commit>, skill: string)
    ensures forall id | id in Scorers(c, skill) :: exists v :: RecordedAt(c, id, v)
  {
    if c != [] {
      var n := |c| - 1;
      ScorersAreRecorded(c[..n], skill);
      forall id | id in Scorers(c, skill) ensures exists v :: RecordedAt(c, id, v) {
        if id in Scorers(c[..n], skill) {
          var v :| RecordedAt(c[..n], id, v);
          assert RecordedAt(c, id, v);
        } else {
          assert RecordedAt(c, id, n + 1);
        }
      }
    }
  }

  lemma PrefixReplays(c: seq<Commit>, config: Config, n: nat)
    requires Replays(c, config) && FreshBatches(c) && n <= |c|
    ensures Replays(c[..n], config) && FreshBatches(c[..n])
  {
    forall i | 0 <= i < n ensures Made(c[..n], i, config) {
      assert Made(c, i, config);
      assert StateBefore(c[..n], i) == StateBefore(c, i);
    }
  }

  /** Conservation over a run: when no payload sets the skill's count or removes or replaces the skill, the
      current count is the number of distinct applied signals that carry a score for it. */
  lemma {:induction false} EvidenceIsNumberOfSignals(c: seq<Commit>, config: Config, skill: string)
    requires Replays(c, config) && FreshBatches(c) && LeaveCounts(c, skill)
    ensures EvidenceCount(StateBefore(c, |c|), skill) == |Scorers(c, skill)|
  {
    if c != [] {
      var n := |c| - 1;
      PrefixReplays(c, config, n);
      EvidenceIsNumberOfSignals(c[..n], config, skill);
      LastBatchCounts(c, config, skill);
      BatchIsNew(c, skill);
    }
  }

  lemma BatchLeavesCount(batch: seq<Signal>, skill: string)
    requires forall x | x in batch :: LeavesCount(x.payload, skill) && LeavesOwners(x.payload, skill)
    ensures forall p | p in Payloads(batch) :: LeavesCount(p, skill) && LeavesOwners(p, skill)
  {
    forall p | p in Payloads(batch) ensures LeavesCount(p, skill) && LeavesOwners(p, skill) {
      var i :| 0 <= i < |batch| && p == batch[i].payload;
      assert batch[i] in batch;
    }
  }

  lemma {:induction false} NoOwnersYet(skill: string)
    ensures OwnersAreObjects(map[], skill)
    decreases |skill|
  {
    if Deltas.Owner(skill).Some? {
      Deltas.OwnerIsShorter(skill);
      NoOwnersYet(Deltas.Owner(skill).value);
    }
  }

  /** Over the run the skills that this one is named a companion of are objects, where they are there at all. */
  lemma {:induction false} OwnersStayObjects(c: seq<Commit>, config: Config, skill: string, v: nat)
    requires Replays(c, config) && LeaveCounts(c, skill) && v <= |c|
    ensures OwnersAreObjects(Object(StateBefore(c, v), SKILLS), skill)
  {
    if v == 0 {
      NoOwnersYet(skill);
    } else {
      OwnersStayObjects(c, config, skill, v - 1);
      assert Made(c, v - 1, config);
      BatchLeavesCount(c[v - 1].batch, skill);
      StateReducer.StoredOwners(StateBefore(c, v - 1), Payloads(c[v - 1].batch), config, v, c[v - 1].row.state, skill);
    }
  }

  lemma LastBatchCounts(c: seq<Commit>, config: Config, skill: string)
    requires c != [] && Replays(c, config) && FreshBatches(c) && LeaveCounts(c, skill)
    ensures var n := |c| - 1;
            EvidenceCount(StateBefore(c, n + 1), skill) ==
            EvidenceCount(StateBefore(c[..n], n), skill) + |BatchScorers(c[n].batch, skill)|
  {
    var n := |c| - 1;
    assert StateBefore(c[..n], n) == StateBefore(c, n);
    assert Made(c, n, config);
    BatchLeavesCount(c[n].batch, skill);
    OwnersStayObjects(c, config, skill, n);
    StateReducer.OwnersThroughBatch(StateBefore(c, n), Payloads(c[n].batch), skill);
    StateReducer.StoredCount(StateBefore(c, n), Payloads(c[n].batch), config, n + 1, c[n].row.state, skill);
    TallyIsCardinality(c[n].batch, skill);
  }

  lemma BatchIsNew(c: seq<Commit>, skill: string)
    requires c != [] && FreshBatches(c)
    ensures var n := |c| - 1; |Scorers(c, skill)| == |Scorers(c[..n], skill)| + |BatchScorers(c[n].batch, skill)|
  {
    var n := |c| - 1;
    ScorersAreRecorded(c[..n], skill);
    forall id | id in Scorers(c[..n], skill) ensures id !in BatchScorers(c[n].batch, skill) {
      var v :| RecordedAt(c[..n], id, v);
      assert c[..n][v - 1] == c[v - 1];
    }
    assert Scorers(c[..n], skill) !! BatchScorers(c[n].batch, skill);
  }
}
