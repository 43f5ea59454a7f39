/** What every interleaving of asynchronous writers keeps. */
module ProtocolSafety {
  import opened Json
  import opened Protocol

  function Pk(c: Commit): string {
    c.job.req.pk
  }

  /** How many transactions of the history wrote to partition `pk`. */
  function Count(h: seq<Commit>, pk: string): nat {
    if h == [] then 0
    else Count(h[..|h| - 1], pk) + if Pk(h[|h| - 1]) == pk then 1 else 0
  }

  lemma CountAppend(h: seq<Commit>, c: Commit, pk: string)
    ensures Count(h + [c], pk) == Count(h, pk) + if Pk(c) == pk then 1 else 0
  {
    assert (h + [c])[..|h|] == h;
  }

  // ----- The invariant -----

  ghost predicate RowsCounted(s: State) {
    forall pk, v :: (pk, v) in s.rows <==> 1 <= v <= Count(s.history, pk)
  }

  ghost predicate Numbered(h: seq<Commit>) {
    forall i | 0 <= i < |h| :: h[i].version == Count(h[..i], Pk(h[i])) + 1
  }

  ghost predicate RowsWritten(s: State) {
    (forall i | 0 <= i < |s.history| ::
       var c := s.history[i]; (Pk(c), c.version) in s.rows && s.rows[(Pk(c), c.version)] == RowOf(c.job, c.version)) &&
    forall k | k in s.rows :: s.rows[k].version == k.1
  }

  ghost predicate EntriesWritten(s: State) {
    forall i, id | 0 <= i < |s.history| && id in Ids(s.history[i].job.signals) ::
      (Pk(s.history[i]), id) in s.applied && s.applied[(Pk(s.history[i]), id)] == s.history[i].version
  }

  ghost predicate EntriesExplained(s: State) {
    forall k | k in s.applied :: exists i :: 0 <= i < |s.history| && Pk(s.history[i]) == k.0 &&
                                             k.1 in Ids(s.history[i].job.signals) &&
                                             s.history[i].version == s.applied[k]
  }

  ghost predicate RowSeen(s: State, pk: string, r: Option<Row>) {
    r.Some? ==> (pk, r.value.version) in s.rows && s.rows[(pk, r.value.version)] == r.value
  }

  ghost predicate IdsFromRequest(req: Request, toApply: seq<string>) {
    toApply != [] && |toApply| <= |req.ids| && forall id | id in toApply :: id in req.ids
  }

  /** A computed job: its batch is what it set out to apply, and its state was computed from a row that
      is in the table, by the engine's rule for this attempt. */
  ghost predicate JobOk(e: Engine, s: State, job: Job, attempt: nat) {
    IdsFromRequest(job.req, job.toApply) && Ids(job.signals) == job.toApply &&
    RowSeen(s, job.req.pk, job.base) && e.valid(job.state) && Made(e, job, attempt)
  }

  /** The engine's rule for the attempt: the state was computed from the base. */
  ghost predicate Made(e: Engine, job: Job, attempt: nat) {
    if attempt == 0 then job.base == job.seen && e.reduces(job.req.pk, job.base, job.signals, job.state)
    else e.recomputes(job.req.pk, job.base, job.signals, job.state)
  }

  ghost predicate NoCommit(h: seq<Commit>, w: nat) {
    forall i | 0 <= i < |h| :: h[i].writer != w
  }

  ghost predicate OnlyCommit(h: seq<Commit>, w: nat, i: int) {
    0 <= i < |h| && h[i].writer == w && forall j | 0 <= j < |h| && h[j].writer == w :: j == i
  }

  /** What a writer's outcome says about the transactions it committed. */
  ghost predicate OutcomeTrue(h: seq<Commit>, w: nat, writer: Writer) {
    match writer
    case Threw(_) => NoCommit(h, w) || exists i :: OnlyCommit(h, w, i)
    case Returned(req, Applied(prior, version, ids)) =>
      exists i :: OnlyCommit(h, w, i) && h[i].job.req == req && h[i].version == version &&
                  Ids(h[i].job.signals) == ids && prior == VersionOf(h[i].job.seen)
    case _ => NoCommit(h, w)
  }

  ghost predicate WriterOk(e: Engine, s: State, writer: Writer) {
    match writer
    case Checking(req, answers) =>
      forall i: nat | i < |req.ids| && i in answers && answers[i] :: (req.pk, req.ids[i]) in s.applied
    case Idle(req) => Covers(s, req, [])
    case Fetching(req, toApply) => IdsFromRequest(req, toApply) && Covers(s, req, toApply)
    case Computing(req, toApply, signals) =>
      IdsFromRequest(req, toApply) && Covers(s, req, toApply) && Ids(signals) == toApply
    case Reading(job, attempt) => attempt < MAX_RETRIES && JobOk(e, s, job, attempt) && Covers(s, job.req, job.toApply)
    case Saving(job, attempt, version) =>
      attempt < MAX_RETRIES && JobOk(e, s, job, attempt) && Covers(s, job.req, job.toApply) && version >= 1 &&
      (version > 1 ==> (job.req.pk, version - 1) in s.rows)
    case Refreshing(job) => JobOk(e, s, job, 0) && Covers(s, job.req, job.toApply)
    case Returned(req, Nothing(_)) => Covers(s, req, [])
    case Returned(req, Applied(_, _, ids)) => Covers(s, req, ids)
    case _ => true
  }

  /** Every requested id is to be applied or is recorded already. */
  ghost predicate Covers(s: State, req: Request, toApply: seq<string>) {
    forall id | id in req.ids :: id in toApply || (req.pk, id) in s.applied
  }

  ghost predicate WritersOk(e: Engine, s: State) {
    (forall w | w in s.writers :: WriterOk(e, s, s.writers[w]) && OutcomeTrue(s.history, w, s.writers[w])) &&
    forall i | 0 <= i < |s.history| ::
      s.history[i].writer in s.writers && RequestOf(s.writers[s.history[i].writer]) == s.history[i].job.req
  }

  ghost predicate CommitsOk(e: Engine, s: State) {
    forall i | 0 <= i < |s.history| :: JobOk(e, s, s.history[i].job, s.history[i].attempt)
  }

  ghost predicate TablesOk(s: State) {
    RowsCounted(s) && Numbered(s.history) && RowsWritten(s) && EntriesWritten(s) && EntriesExplained(s)
  }

  ghost predicate Inv(e: Engine, s: State) {
    TablesOk(s) && WritersOk(e, s) && CommitsOk(e, s)
  }

  // ----- Steps that write nothing -----

  lemma {:induction false} ToApplyFromIds(ids: seq<string>, answers: map<nat, bool>)
    requires forall i | 0 <= i < |ids| :: i in answers
    ensures |ToApply(ids, answers)| <= |ids| && forall id | id in ToApply(ids, answers) :: id in ids
    ensures forall i | 0 <= i < |ids| && !answers[i] :: ids[i] in ToApply(ids, answers)
  {
    if ids != [] {
      ToApplyFromIds(ids[..|ids| - 1], answers);
    }
  }

  lemma FilteredCovers(e: Engine, s: State, req: Request, answers: map<nat, bool>)
    requires WriterOk(e, s, Checking(req, answers)) && forall i | 0 <= i < |req.ids| :: i in answers
    ensures Covers(s, req, ToApply(req.ids, answers))
  {
    ToApplyFromIds(req.ids, answers);
    forall id | id in req.ids ensures id in ToApply(req.ids, answers) || (req.pk, id) in s.applied {
      var i: nat :| i < |req.ids| && req.ids[i] == id;
    }
  }

  lemma ReadStepKeepsWriter(e: Engine, s: State, w: Writer, w': Writer)
    requires TablesOk(s) && WriterOk(e, s, w) && ReadStep(e, s, w, w')
    ensures WriterOk(e, s, w') && RequestOf(w') == RequestOf(w) &&
            !(w'.Returned? && w'.outcome.Applied?) && Running(w) && !w'.Threw?
  {
    match w
    case Checking(req, answers) =>
      if forall i | 0 <= i < |req.ids| :: i in answers {
        ToApplyFromIds(req.ids, answers);
        FilteredCovers(e, s, req, answers);
      }
    case Fetching(req, toApply) => FetchKeepsWriter(e, s, w, w');
    case _ =>
  }

  lemma FetchKeepsWriter(e: Engine, s: State, w: Writer, w': Writer)
    requires w.Fetching? && WriterOk(e, s, w) && ReadStep(e, s, w, w')
    ensures WriterOk(e, s, w') && RequestOf(w') == RequestOf(w) &&
            (w'.Computing? || (w'.Returned? && w'.outcome.Rejected?))
  {
    if w'.Computing? {
      var Fetching(req, toApply) := w;
      var batch :| w' == Computing(req, toApply, OrderSignalsByIds(batch, toApply)) &&
                   |OrderSignalsByIds(batch, toApply)| == |toApply|;
      OrderedByIds(batch, toApply);
    }
  }

  /** A step that changes one writer and neither the tables nor the history. */
  lemma OnlyWriterChanges(e: Engine, s: State, i: nat, w': Writer)
    requires Inv(e, s) && WriterOk(e, s, w') && OutcomeTrue(s.history, i, w')
    requires i in s.writers ==> RequestOf(w') == RequestOf(s.writers[i])
    ensures Inv(e, s.(writers := s.writers[i := w']))
  {
    var s' := s.(writers := s.writers[i := w']);
    TablesStay(s, s');
    CommitsStay(e, s, s');
    forall w | w in s'.writers ensures WriterOk(e, s', s'.writers[w]) && OutcomeTrue(s'.history, w, s'.writers[w]) {
      WriterStays(e, s, s', s'.writers[w]);
      assert w != i ==> WriterOk(e, s, s.writers[w]) && OutcomeTrue(s.history, w, s.writers[w]);
    }
  }

  lemma TablesStay(s: State, s': State)
    requires TablesOk(s) && s'.rows == s.rows && s'.applied == s.applied && s'.history == s.history
    ensures TablesOk(s')
  {
  }

  lemma CommitsStay(e: Engine, s: State, s': State)
    requires CommitsOk(e, s) && s'.rows == s.rows && s'.history == s.history
    ensures CommitsOk(e, s')
  {
    forall i | 0 <= i < |s'.history| ensures JobOk(e, s', s'.history[i].job, s'.history[i].attempt) {
      JobStaysOk(e, s, s', s.history[i].job, s.history[i].attempt);
    }
  }

  lemma WriterStays(e: Engine, s: State, s': State, writer: Writer)
    requires s'.rows == s.rows && s'.applied == s.applied
    ensures WriterOk(e, s, writer) ==> WriterOk(e, s', writer)
  {
  }

  lemma QuietStepKeepsInv(e: Engine, s: State, s': State, i: nat, w': Writer)
    requires Inv(e, s) && QuietStep(e, s, s', i, w')
    ensures Inv(e, s')
  {
    assert NoCommit(s.history, i) by {
      assert OutcomeTrue(s.history, i, s.writers[i]);
    }
    if ReadStep(e, s, s.writers[i], w') {
      ReadStepKeepsWriter(e, s, s.writers[i], w');
    }
    OnlyWriterChanges(e, s, i, w');
  }

  lemma StartStepKeepsInv(e: Engine, s: State, s': State, i: nat, req: Request)
    requires Inv(e, s) && StartStep(s, s', i, req)
    ensures Inv(e, s')
  {
    assert NoCommit(s.history, i);
    OnlyWriterChanges(e, s, i, s'.writers[i]);
  }

  // ----- The commit -----

  /** The one fact the protocol rests on: an accepted version is the next one of its partition. */
  lemma AcceptedVersionIsNext(e: Engine, s: State, i: nat)
    requires Inv(e, s) && i in s.writers && s.writers[i].Saving?
    requires (s.writers[i].job.req.pk, s.writers[i].version) !in s.rows
    ensures s.writers[i].version == Count(s.history, s.writers[i].job.req.pk) + 1
  {
    assert WriterOk(e, s, s.writers[i]);
  }

  lemma CommitKeepsCount(e: Engine, s: State, s': State, i: nat, w': Writer)
    requires Inv(e, s) && CommitStep(s, s', i, w')
    ensures RowsCounted(s')
  {
    AcceptedVersionIsNext(e, s, i);
    NextRowCounted(s, s', s.writers[i].job.req.pk,
                   Commit(i, s.writers[i].job, s.writers[i].attempt, s.writers[i].version));
  }

  lemma NextRowCounted(s: State, s': State, pk: string, c: Commit)
    requires RowsCounted(s) && pk == Pk(c) && c.version == Count(s.history, pk) + 1
    requires s'.rows.Keys == s.rows.Keys + {(pk, c.version)} && s'.history == s.history + [c]
    ensures RowsCounted(s')
  {
    forall p, v ensures (p, v) in s'.rows <==> 1 <= v <= Count(s'.history, p) {
      CountAppend(s.history, c, p);
    }
  }

  lemma NumberedAppend(h: seq<Commit>, c: Commit)
    requires Numbered(h) && c.version == Count(h, Pk(c)) + 1
    ensures Numbered(h + [c])
  {
    var h' := h + [c];
    forall k | 0 <= k < |h'| ensures h'[k].version == Count(h'[..k], Pk(h'[k])) + 1 {
      assert h'[..k] == h[..k];
      if k == |h| {
        assert h[..k] == h;
      }
    }
  }

  lemma CommitKeepsNumbers(e: Engine, s: State, s': State, i: nat, w': Writer)
    requires Inv(e, s) && CommitStep(s, s', i, w')
    ensures Numbered(s'.history)
  {
    AcceptedVersionIsNext(e, s, i);
    NumberedAppend(s.history, s'.history[|s.history|]);
  }

  lemma CommitKeepsRows(e: Engine, s: State, s': State, i: nat, w': Writer)
    requires Inv(e, s) && CommitStep(s, s', i, w')
    ensures RowsWritten(s')
  {
    var h, h' := s.history, s'.history;
    forall k | 0 <= k < |h'|
      ensures (Pk(h'[k]), h'[k].version) in s'.rows &&
              s'.rows[(Pk(h'[k]), h'[k].version)] == RowOf(h'[k].job, h'[k].version)
    {
      if k < |h| {
        assert h'[k] == h[k] && (Pk(h[k]), h[k].version) in s.rows;
      }
    }
  }

  lemma CommitExplainsEntries(s: State, s': State, i: nat, w': Writer)
    requires EntriesExplained(s) && CommitStep(s, s', i, w')
    ensures EntriesExplained(s')
  {
    var h, c := s.history, s'.history[|s.history|];
    forall k | k in s'.applied
      ensures exists j :: 0 <= j < |s'.history| && Pk(s'.history[j]) == k.0 &&
                          k.1 in Ids(s'.history[j].job.signals) && s'.history[j].version == s'.applied[k]
    {
      if k.0 == Pk(c) && k.1 in Ids(c.job.signals) {
        assert s'.history[|h|] == c;
      } else {
        assert k in s.applied;
        var j :| 0 <= j < |h| && Pk(h[j]) == k.0 && k.1 in Ids(h[j].job.signals) && h[j].version == s.applied[k];
        assert s'.history[j] == h[j];
      }
    }
  }

  lemma CommitWritesEntries(s: State, s': State, i: nat, w': Writer)
    requires EntriesWritten(s) && CommitStep(s, s', i, w')
    ensures EntriesWritten(s')
  {
    var h := s.history;
    forall j, id | 0 <= j < |s'.history| && id in Ids(s'.history[j].job.signals)
      ensures (Pk(s'.history[j]), id) in s'.applied && s'.applied[(Pk(s'.history[j]), id)] == s'.history[j].version
    {
      if j < |h| {
        assert (Pk(h[j]), id) in s.applied;
      }
    }
  }

  lemma JobStaysOk(e: Engine, s: State, s': State, job: Job, attempt: nat)
    requires JobOk(e, s, job, attempt)
    requires forall k | k in s.rows :: k in s'.rows && s'.rows[k] == s.rows[k]
    ensures JobOk(e, s', job, attempt)
  {
  }

  /** What a writer may learn of its committed transaction: that it went through, or nothing. */
  ghost predicate Learns(job: Job, version: nat, w': Writer) {
    w' == Threw(job.req) || w' == Returned(job.req, Applied(VersionOf(job.seen), version, job.toApply))
  }

  /** A writer's knowledge outlives any growth of the tables. */
  lemma WriterSurvives(e: Engine, s: State, s': State, writer: Writer)
    requires WriterOk(e, s, writer) && s.applied.Keys <= s'.applied.Keys
    requires forall k | k in s.rows :: k in s'.rows && s'.rows[k] == s.rows[k]
    ensures WriterOk(e, s', writer)
  {
    forall job, attempt | JobOk(e, s, job, attempt) ensures JobOk(e, s', job, attempt) {
      JobStaysOk(e, s, s', job, attempt);
    }
  }

  lemma CommitKeepsStored(s: State, s': State, i: nat, w': Writer)
    requires CommitStep(s, s', i, w')
    ensures s.applied.Keys <= s'.applied.Keys && forall k | k in s.rows :: k in s'.rows && s'.rows[k] == s.rows[k]
  {
  }

  lemma LearnedIsOk(e: Engine, s: State, job: Job, attempt: nat, version: nat, w': Writer)
    requires WriterOk(e, s, Saving(job, attempt, version)) && Learns(job, version, w')
    ensures WriterOk(e, s, w')
  {
  }

  lemma CommitKeepsJobs(e: Engine, s: State, s': State, i: nat, w': Writer)
    requires Inv(e, s) && CommitStep(s, s', i, w') && Learns(s.writers[i].job, s.writers[i].version, w')
    ensures CommitsOk(e, s')
    ensures forall w | w in s'.writers :: WriterOk(e, s', s'.writers[w])
  {
    CommitKeepsStored(s, s', i, w');
    WriterSurvives(e, s, s', s.writers[i]);
    forall k | 0 <= k < |s'.history| ensures JobOk(e, s', s'.history[k].job, s'.history[k].attempt) {
      if k < |s.history| {
        JobStaysOk(e, s, s', s.history[k].job, s.history[k].attempt);
      }
    }
    LearnedIsOk(e, s', s.writers[i].job, s.writers[i].attempt, s.writers[i].version, w');
    forall w | w in s'.writers && w != i ensures WriterOk(e, s', s'.writers[w]) {
      WriterSurvives(e, s, s', s.writers[w]);
    }
  }

  /** What a writer knows of its own transactions does not change with another writer's. */
  lemma OutcomeStays(h: seq<Commit>, c: Commit, w: nat, writer: Writer)
    requires OutcomeTrue(h, w, writer) && c.writer != w
    ensures OutcomeTrue(h + [c], w, writer)
  {
    assert NoCommit(h, w) ==> NoCommit(h + [c], w);
    forall k | OnlyCommit(h, w, k) ensures OnlyCommit(h + [c], w, k) && (h + [c])[k] == h[k] {}
  }

  lemma OwnOutcome(h: seq<Commit>, c: Commit, w': Writer)
    requires NoCommit(h, c.writer) && Ids(c.job.signals) == c.job.toApply && Learns(c.job, c.version, w')
    ensures OutcomeTrue(h + [c], c.writer, w')
  {
    assert OnlyCommit(h + [c], c.writer, |h|);
  }

  lemma CommitKeepsOutcomes(e: Engine, s: State, s': State, i: nat, w': Writer)
    requires Inv(e, s) && CommitStep(s, s', i, w') && Learns(s.writers[i].job, s.writers[i].version, w')
    ensures forall w | w in s'.writers :: OutcomeTrue(s'.history, w, s'.writers[w])
  {
    var c := s'.history[|s.history|];
    assert WriterOk(e, s, s.writers[i]) && OutcomeTrue(s.history, i, s.writers[i]);
    OwnOutcome(s.history, c, w');
    forall w | w in s'.writers && w != i ensures OutcomeTrue(s'.history, w, s'.writers[w]) {
      OutcomeStays(s.history, c, w, s.writers[w]);
    }
  }

  lemma CommitKeepsRequests(e: Engine, s: State, s': State, i: nat, w': Writer)
    requires Inv(e, s) && CommitStep(s, s', i, w') && RequestOf(w') == s.writers[i].job.req
    ensures forall k | 0 <= k < |s'.history| ::
              s'.history[k].writer in s'.writers && RequestOf(s'.writers[s'.history[k].writer]) == s'.history[k].job.req
  {
    forall k | 0 <= k < |s.history|
      ensures s'.history[k] == s.history[k] && s.history[k].writer in s.writers &&
              RequestOf(s.writers[s.history[k].writer]) == s.history[k].job.req {}
  }

  lemma CommitKeepsTables(e: Engine, s: State, s': State, i: nat, w': Writer)
    requires Inv(e, s) && CommitStep(s, s', i, w')
    ensures TablesOk(s')
  {
    CommitKeepsCount(e, s, s', i, w');
    CommitKeepsNumbers(e, s, s', i, w');
    CommitKeepsRows(e, s, s', i, w');
    CommitExplainsEntries(s, s', i, w');
    CommitWritesEntries(s, s', i, w');
  }

  lemma CommitKeepsWriters(e: Engine, s: State, s': State, i: nat, w': Writer)
    requires Inv(e, s) && CommitStep(s, s', i, w') && Learns(s.writers[i].job, s.writers[i].version, w')
    ensures WritersOk(e, s') && CommitsOk(e, s')
  {
    CommitKeepsRequests(e, s, s', i, w');
    CommitKeepsJobs(e, s, s', i, w');
    CommitKeepsOutcomes(e, s, s', i, w');
  }

  lemma CommitKeepsInv(e: Engine, s: State, s': State, i: nat, w': Writer)
    requires Inv(e, s) && CommitStep(s, s', i, w') && Learns(s.writers[i].job, s.writers[i].version, w')
    ensures Inv(e, s')
  {
    CommitKeepsTables(e, s, s', i, w');
    CommitKeepsWriters(e, s, s', i, w');
  }

  lemma NextKeepsInv(e: Engine, s: State, s': State)
    requires Inv(e, s) && Next(e, s, s')
    ensures Inv(e, s')
  {
    var i :| StepOf(e, s, s', i);
    if SaveStep(s, s', i) {
      var Saving(job, _, version) := s.writers[i];
      var ok := Returned(job.req, Applied(VersionOf(job.seen), version, job.toApply));
      CommitKeepsInv(e, s, s', i, if CommitStep(s, s', i, ok) then ok else Threw(job.req));
    } else if WriterStep(e, s, s', i) {
      var w' :| QuietStep(e, s, s', i, w');
      QuietStepKeepsInv(e, s, s', i, w');
    } else {
      var req :| StartStep(s, s', i, req);
      StartStepKeepsInv(e, s, s', i, req);
    }
  }

  lemma {:induction false} RunKeepsInv(e: Engine, run: seq<State>, k: nat)
    requires IsRun(e, run) && k < |run|
    ensures Inv(e, run[k])
  {
    if k > 0 {
      RunKeepsInv(e, run, k - 1);
      assert Next(e, run[k - 1], run[k - 1 + 1]);
      NextKeepsInv(e, run[k - 1], run[k]);
    }
  }

  lemma ReachableInv(e: Engine, s: State)
    requires Reachable(e, s)
    ensures Inv(e, s)
  {
    var run :| IsRun(e, run) && run[|run| - 1] == s;
    RunKeepsInv(e, run, |run| - 1);
  }

  // ----- The properties -----

  /** Whatever the interleaving and however stale the reads, the stored versions of a partition are exactly
      1 to the number of transactions committed to it, and each row carries its own version. */
  lemma VersionsAreContiguous(e: Engine, s: State, pk: string)
    requires Reachable(e, s)
    ensures forall v :: (pk, v) in s.rows <==> 1 <= v <= Count(s.history, pk)
    ensures forall v | (pk, v) in s.rows :: s.rows[(pk, v)].version == v
  {
    ReachableInv(e, s);
  }

  ghost predicate Keeps(s: State, t: State) {
    (forall k | k in s.rows :: k in t.rows && t.rows[k] == s.rows[k]) &&
    (forall k | k in s.applied :: k in t.applied && t.applied[k] == s.applied[k]) &&
    s.history <= t.history
  }

  lemma NextKeepsStored(e: Engine, s: State, t: State)
    requires Next(e, s, t)
    ensures Keeps(s, t)
  {
    var i :| StepOf(e, s, t, i);
    if SaveStep(s, t, i) {
      assert CommitStep(s, t, i, t.writers[i]);
    }
  }

  /** Along a run nothing stored is ever changed or removed: no row, no applied entry, no commit. */
  lemma {:induction false} StoredIsImmutable(e: Engine, run: seq<State>, i: nat, j: nat)
    requires IsRun(e, run) && i <= j < |run|
    ensures Keeps(run[i], run[j])
    decreases j
  {
    if i < j {
      StoredIsImmutable(e, run, i, j - 1);
      assert Next(e, run[j - 1], run[j - 1 + 1]);
      NextKeepsStored(e, run[j - 1], run[j]);
    }
  }

  lemma {:induction false} CountGrows(h: seq<Commit>, i: nat, pk: string)
    requires i <= |h|
    ensures Count(h[..i], pk) <= Count(h, pk)
  {
    if i == |h| {
      assert h[..i] == h;
    } else {
      assert h[..|h| - 1][..i] == h[..i];
      CountGrows(h[..|h| - 1], i, pk);
    }
  }

  lemma VersionsIncrease(h: seq<Commit>, i: nat, j: nat)
    requires Numbered(h) && i < j < |h| && Pk(h[i]) == Pk(h[j])
    ensures h[i].version < h[j].version
  {
    var pk := Pk(h[i]);
    assert h[..i + 1] == h[..i] + [h[i]];
    CountAppend(h[..i], h[i], pk);
    assert h[..j][..i + 1] == h[..i + 1];
    CountGrows(h[..j], i + 1, pk);
  }

  /** Each signal id is recorded in at most one version of a partition, by at most one transaction, and the
      applied entry names that version. */
  lemma AppliedOnce(e: Engine, s: State, i: nat, j: nat, id: string)
    requires Reachable(e, s) && i < |s.history| && j < |s.history| && Pk(s.history[i]) == Pk(s.history[j])
    requires id in Ids(s.history[i].job.signals) && id in Ids(s.history[j].job.signals)
    ensures i == j && (Pk(s.history[i]), id) in s.applied && s.applied[(Pk(s.history[i]), id)] == s.history[i].version
  {
    ReachableInv(e, s);
    if i < j {
      VersionsIncrease(s.history, i, j);
    } else if j < i {
      VersionsIncrease(s.history, j, i);
    }
  }

  ghost predicate NoRepeats(h: seq<Commit>) {
    forall i | 0 <= i < |h| :: Distinct(Ids(h[i].job.signals))
  }

  lemma StepRepeatsNothing(e: Engine, s: State, s': State)
    requires Next(e, s, s') && NoRepeats(s.history)
    ensures NoRepeats(s'.history)
  {
    var i :| StepOf(e, s, s', i);
    if SaveStep(s, s', i) {
      assert CommitStep(s, s', i, s'.writers[i]);
    }
  }

  lemma {:induction false} RunRepeatsNothing(e: Engine, run: seq<State>, k: nat)
    requires IsRun(e, run) && k < |run|
    ensures NoRepeats(run[k].history)
  {
    if k > 0 {
      RunRepeatsNothing(e, run, k - 1);
      assert Next(e, run[k - 1], run[k - 1 + 1]);
      StepRepeatsNothing(e, run[k - 1], run[k]);
    }
  }

  /** No transaction holds an id twice. */
  lemma NothingTwice(e: Engine, s: State, i: nat)
    requires Reachable(e, s) && i < |s.history|
    ensures Distinct(Ids(s.history[i].job.signals))
  {
    var run :| IsRun(e, run) && run[|run| - 1] == s;
    RunRepeatsNothing(e, run, |run| - 1);
  }

  /** A writer that returned ok with applied ids committed exactly one transaction: the row of that version
      holds its state, and every id it reports is recorded at that version. */
  lemma OkCommittedOnce(e: Engine, s: State, w: nat)
    requires Reachable(e, s) && w in s.writers && s.writers[w].Returned? && s.writers[w].outcome.Applied?
    ensures var Returned(req, Applied(prior, version, ids)) := s.writers[w];
            exists i :: OnlyCommit(s.history, w, i) && s.history[i].version == version && s.history[i].job.req == req &&
                        (req.pk, version) in s.rows && s.rows[(req.pk, version)] == RowOf(s.history[i].job, version) &&
                        ids != [] && forall id | id in ids :: id in req.ids && (req.pk, id) in s.applied &&
                                                              s.applied[(req.pk, id)] == version
  {
    ReachableInv(e, s);
    var Returned(req, Applied(prior, version, ids)) := s.writers[w];
    assert OutcomeTrue(s.history, w, s.writers[w]);
    var i :| OnlyCommit(s.history, w, i) && s.history[i].job.req == req && s.history[i].version == version &&
             Ids(s.history[i].job.signals) == ids;
    assert JobOk(e, s, s.history[i].job, s.history[i].attempt);
  }

  /** Once a writer has returned ok, every id of its request is recorded, whoever recorded it. */
  lemma OkMeansRecorded(e: Engine, s: State, w: nat)
    requires Reachable(e, s) && w in s.writers && s.writers[w].Returned? && !s.writers[w].outcome.Rejected?
    ensures forall id | id in s.writers[w].req.ids :: (s.writers[w].req.pk, id) in s.applied
  {
    ReachableInv(e, s);
    OkIsRecorded(e, s, w);
  }

  lemma OkIsRecorded(e: Engine, s: State, w: nat)
    requires Inv(e, s) && w in s.writers && s.writers[w].Returned? && !s.writers[w].outcome.Rejected?
    ensures forall id | id in s.writers[w].req.ids :: (s.writers[w].req.pk, id) in s.applied
  {
    assert WriterOk(e, s, s.writers[w]) && OutcomeTrue(s.history, w, s.writers[w]);
    if s.writers[w].outcome.Applied? {
      var i :| OnlyCommit(s.history, w, i) && s.history[i].job.req == s.writers[w].req &&
               Ids(s.history[i].job.signals) == s.writers[w].outcome.ids;
    }
  }

  /** A writer that returned errors, or returned ok with nothing to apply, committed nothing. */
  lemma ErrorCommittedNothing(e: Engine, s: State, w: nat)
    requires Reachable(e, s) && w in s.writers && s.writers[w].Returned? && !s.writers[w].outcome.Applied?
    ensures NoCommit(s.history, w)
  {
    ReachableInv(e, s);
    assert OutcomeTrue(s.history, w, s.writers[w]);
  }

  /** The row before version `v` of a partition. */
  function Previous(s: State, pk: string, v: nat): Option<Row> {
    if v > 0 && (pk, v - 1) in s.rows then Some(s.rows[(pk, v - 1)]) else None
  }

  /** What a transaction stored passed the engine's check. */
  lemma StoredIsValid(e: Engine, s: State, i: nat)
    requires Reachable(e, s) && i < |s.history|
    ensures var c := s.history[i]; (Pk(c), c.version) in s.rows && e.valid(s.rows[(Pk(c), c.version)].state)
  {
    ReachableInv(e, s);
    assert JobOk(e, s, s.history[i].job, s.history[i].attempt);
  }

  /** Replay: a commit whose read before computing saw the version its read before saving saw, stored a state
      computed from the row just before it: by a reduction at the first attempt, by a recomputation at the second. */
  lemma CommitReplays(e: Engine, s: State, i: nat)
    requires RowsCounted(s) && RowsWritten(s) && CommitsOk(e, s)
    requires i < |s.history| && VersionOf(s.history[i].job.base) + 1 == s.history[i].version
    ensures var c := s.history[i];
            c.job.base == Previous(s, Pk(c), c.version) && Made(e, c.job, c.attempt) &&
            (Pk(c), c.version) in s.rows && s.rows[(Pk(c), c.version)].state == c.job.state
  {
    var c := s.history[i];
    assert JobOk(e, s, c.job, c.attempt);
    SeenIsPrevious(s, Pk(c), c.job.base);
  }

  lemma SeenIsPrevious(s: State, pk: string, r: Option<Row>)
    requires RowsCounted(s) && RowSeen(s, pk, r)
    ensures r == Previous(s, pk, VersionOf(r) + 1)
  {
    assert (pk, 0) !in s.rows;
  }
}
