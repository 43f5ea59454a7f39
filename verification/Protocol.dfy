/** The optimistic-lock protocol by which any number of asynchronous writers apply signals to versioned
    learner states: one step per port call, reads that may be stale, one atomic conditional write.

    What a writer computes is left to an `Engine`; what is stored, and when, is not. */
module Protocol {
  import opened Json

  /** The partition key of both tables. */
  function PartitionKey(orgId: string, learner: string): string {
    orgId + "#" + learner
  }

  datatype Signal = Signal(id: string, payload: Json)

  datatype Row = Row(version: nat, state: Fields, lastSignalId: string)

  datatype Request = Request(pk: string, ids: seq<string>)

  /** Which states may result from a state and a batch, which are fit to be stored, and which may result
      from the recomputation after a conflict, whose payloads the first computation may have written to. */
  datatype Engine = Engine(
    reduces: (string, Option<Row>, seq<Signal>, Fields) -> bool,
    valid: Fields -> bool,
    recomputes: (string, Option<Row>, seq<Signal>, Fields) -> bool)

  /** What a writer holds once it has computed: the batch, the row it first saw, the row the state was computed
      from, and that state. */
  datatype Job = Job(
    req: Request, toApply: seq<string>, signals: seq<Signal>, seen: Option<Row>, base: Option<Row>, state: Fields)

  datatype Failure = InvalidRequest | UnknownSignalId | InvalidState | VersionConflict

  datatype Outcome =
    | Nothing(version: nat)
    | Applied(prior: nat, version: nat, ids: seq<string>)
    | Rejected(failure: Failure)

  datatype Writer =
    | Checking(req: Request, answers: map<nat, bool>)
    | Idle(req: Request)
    | Fetching(req: Request, toApply: seq<string>)
    | Computing(req: Request, toApply: seq<string>, signals: seq<Signal>)
    | Reading(job: Job, attempt: nat)
    | Saving(job: Job, attempt: nat, version: nat)
    | Refreshing(job: Job)
    | Returned(req: Request, outcome: Outcome)
    | Threw(req: Request)

  /** One committed transaction. */
  datatype Commit = Commit(writer: nat, job: Job, attempt: nat, version: nat)

  /** The two tables, the writers, and the list of transactions committed so far. */
  datatype State = State(
    rows: map<(string, nat), Row>,
    applied: map<(string, string), nat>,
    writers: map<nat, Writer>,
    history: seq<Commit>)

  const INITIAL := State(map[], map[], map[], [])
  const MAX_RETRIES: nat := 2

  function Put(s: State, i: nat, w: Writer): State {
    s.(writers := s.writers[i := w])
  }

  function RequestOf(w: Writer): Request {
    match w
    case Reading(job, _) => job.req
    case Saving(job, _, _) => job.req
    case Refreshing(job) => job.req
    case Checking(req, _) => req
    case Idle(req) => req
    case Fetching(req, _) => req
    case Computing(req, _, _) => req
    case Returned(req, _) => req
    case Threw(req) => req
  }

  // ----- What the port calls may answer -----

  /** A read of the current state, possibly stale: some stored version, or none. */
  ghost predicate MayRead(s: State, pk: string, r: Option<Row>) {
    r.None? || exists v :: (pk, v) in s.rows && s.rows[(pk, v)] == r.value
  }

  /** A read of the applied-signals table, possibly stale: it may miss an entry but never invents one. */
  ghost predicate MayAnswer(s: State, pk: string, id: string, answer: bool) {
    answer ==> (pk, id) in s.applied
  }

  function VersionOf(r: Option<Row>): nat {
    match r case None => 0 case Some(row) => row.version
  }

  /** The ids whose check said "not applied", in request order. */
  function ToApply(ids: seq<string>, answers: map<nat, bool>): seq<string>
    requires forall i | 0 <= i < |ids| :: i in answers
  {
    if ids == [] then []
    else
      var n := |ids| - 1;
      ToApply(ids[..n], answers) + if answers[n] then [] else [ids[n]]
  }

  /** The last record of the batch with this id, as a map built from the batch keeps it. */
  function Find(batch: seq<Signal>, id: string): Option<Signal> {
    if batch == [] then None
    else if batch[|batch| - 1].id == id then Some(batch[|batch| - 1])
    else Find(batch[..|batch| - 1], id)
  }

  function OrderSignalsByIds(batch: seq<Signal>, ids: seq<string>): seq<Signal> {
    if ids == [] then []
    else
      (match Find(batch, ids[0]) case None => [] case Some(s) => [s]) + OrderSignalsByIds(batch, ids[1..])
  }

  function Ids(signals: seq<Signal>): seq<string> {
    seq(|signals|, i requires 0 <= i < |signals| => signals[i].id)
  }

  lemma {:induction false} FoundHasId(batch: seq<Signal>, id: string)
    ensures Find(batch, id).Some? ==> Find(batch, id).value.id == id && Find(batch, id).value in batch
  {
    if batch != [] && batch[|batch| - 1].id != id {
      FoundHasId(batch[..|batch| - 1], id);
    }
  }

  /** When nothing is missing, the ordered records are the requested ids one for one. */
  lemma {:induction false} OrderedByIds(batch: seq<Signal>, ids: seq<string>)
    ensures |OrderSignalsByIds(batch, ids)| <= |ids|
    ensures |OrderSignalsByIds(batch, ids)| == |ids| ==> Ids(OrderSignalsByIds(batch, ids)) == ids
  {
    if ids != [] {
      FoundHasId(batch, ids[0]);
      OrderedByIds(batch, ids[1..]);
      if |OrderSignalsByIds(batch, ids)| == |ids| {
        assert ids == [ids[0]] + ids[1..];
      }
    }
  }

  // ----- One writer's steps that write nothing -----

  ghost predicate ReadStep(e: Engine, s: State, w: Writer, w': Writer) {
    match w
    case Checking(req, answers) =>
      if exists i :: 0 <= i < |req.ids| && i !in answers then
        exists i, answer :: 0 <= i < |req.ids| && i !in answers && MayAnswer(s, req.pk, req.ids[i], answer) &&
                            w' == Checking(req, answers[i := answer])
      else
        var toApply := ToApply(req.ids, answers);
        w' == if toApply == [] then Idle(req) else Fetching(req, toApply)
    case Idle(req) =>
      exists r :: MayRead(s, req.pk, r) && w' == Returned(req, Nothing(VersionOf(r)))
    case Fetching(req, toApply) =>
      w' == Returned(req, Rejected(UnknownSignalId)) ||
      exists batch :: var signals := OrderSignalsByIds(batch, toApply);
                      w' == if |signals| != |toApply| then Returned(req, Rejected(UnknownSignalId))
                            else Computing(req, toApply, signals)
    case Computing(req, toApply, signals) =>
      exists r, state :: MayRead(s, req.pk, r) && e.reduces(req.pk, r, signals, state) &&
                         w' == if e.valid(state) then Reading(Job(req, toApply, signals, r, r, state), 0)
                               else Returned(req, Rejected(InvalidState))
    case Reading(job, attempt) =>
      exists r :: MayRead(s, job.req.pk, r) && w' == Saving(job, attempt, VersionOf(r) + 1)
    case Saving(job, attempt, version) =>
      w' == if attempt < MAX_RETRIES - 1 then Refreshing(job) else Returned(job.req, Rejected(VersionConflict))
    case Refreshing(job) =>
      exists r, state :: MayRead(s, job.req.pk, r) && e.recomputes(job.req.pk, r, job.signals, state) &&
                         w' == if e.valid(state) then Reading(job.(base := r, state := state), 1)
                               else Returned(job.req, Rejected(InvalidState))
    case _ => false
  }

  // ----- The conditional write -----

  ghost predicate Distinct(ids: seq<string>) {
    forall i, j | 0 <= i < j < |ids| :: ids[i] != ids[j]
  }

  /** The conditions of the transaction: the version is new and so is every signal. */
  ghost predicate Accepts(s: State, pk: string, version: nat, ids: seq<string>) {
    (pk, version) !in s.rows && Distinct(ids) && forall id | id in ids :: (pk, id) !in s.applied
  }

  function RowOf(job: Job, version: nat): Row {
    Row(version, job.state, if job.signals == [] then "" else job.signals[|job.signals| - 1].id)
  }

  /** Row and entries in one go; `w'` is what the writer learns of it. */
  ghost predicate CommitStep(s: State, s': State, i: nat, w': Writer) {
    i in s.writers && s.writers[i].Saving? &&
    var Saving(job, attempt, version) := s.writers[i];
    var ids := Ids(job.signals);
    Accepts(s, job.req.pk, version, ids) &&
    s' == State(s.rows[(job.req.pk, version) := RowOf(job, version)],
                s.applied + (map id | id in ids :: (job.req.pk, id) := version),
                s.writers[i := w'],
                s.history + [Commit(i, job, attempt, version)])
  }

  /** The answer of a committed write reaches its writer, or is lost and the writer sees an error. */
  ghost predicate SaveStep(s: State, s': State, i: nat) {
    i in s.writers && s.writers[i].Saving? &&
    var Saving(job, attempt, version) := s.writers[i];
    CommitStep(s, s', i, Returned(job.req, Applied(VersionOf(job.seen), version, job.toApply))) ||
    CommitStep(s, s', i, Threw(job.req))
  }

  ghost predicate Running(w: Writer) {
    !w.Returned? && !w.Threw?
  }

  /** A step that changes nothing but the writer: a read, a refused write, or an error thrown by a port. */
  ghost predicate QuietStep(e: Engine, s: State, s': State, i: nat, w': Writer) {
    i in s.writers && Running(s.writers[i]) &&
    (ReadStep(e, s, s.writers[i], w') || w' == Threw(RequestOf(s.writers[i]))) &&
    s' == s.(writers := s.writers[i := w'])
  }

  ghost predicate WriterStep(e: Engine, s: State, s': State, i: nat) {
    SaveStep(s, s', i) || exists w' :: QuietStep(e, s, s', i, w')
  }

  /** A new writer arrives. An empty request is refused before any port call. */
  ghost predicate StartStep(s: State, s': State, i: nat, req: Request) {
    i !in s.writers &&
    var w := if req.ids == [] then Returned(req, Rejected(InvalidRequest)) else Checking(req, map[]);
    s' == s.(writers := s.writers[i := w])
  }

  ghost predicate StepOf(e: Engine, s: State, s': State, i: nat) {
    WriterStep(e, s, s', i) || exists req :: StartStep(s, s', i, req)
  }

  ghost predicate Next(e: Engine, s: State, s': State) {
    exists i :: StepOf(e, s, s', i)
  }

  /** Any interleaving, from the empty tables. A writer that stops for good is one that is not chosen again. */
  ghost predicate IsRun(e: Engine, run: seq<State>) {
    run != [] && run[0] == INITIAL && forall k | 0 <= k < |run| - 1 :: Next(e, run[k], run[k + 1])
  }

  ghost predicate Reachable(e: Engine, s: State) {
    exists run :: IsRun(e, run) && run[|run| - 1] == s
  }

  lemma Extend(e: Engine, s: State, s': State)
    requires Reachable(e, s) && Next(e, s, s')
    ensures Reachable(e, s')
  {
    var run :| IsRun(e, run) && run[|run| - 1] == s;
    var longer := run + [s'];
    forall k | 0 <= k < |longer| - 1 ensures Next(e, longer[k], longer[k + 1]) {
      if k < |run| - 1 {
        assert Next(e, run[k], run[k + 1]);
      }
    }
    assert IsRun(e, longer);
  }
}
