/** The ingestion pipeline as a state machine: claim, log, apply, decide, with any number of workers, any
    interleaving, and a crash possible after every store call. The state protocol runs inside it. */
module Pipeline {
  import opened Json
  import Protocol
  import ProtocolSafety
  import AsyncReplay
  import Retouching

  /** A validated and normalised signal. */
  datatype Envelope = Envelope(org: string, id: string, learner: string, payload: Json)

  /** Organisation and signal id: the key of the claims and of the log. */
  type Key = (string, string)

  datatype Worker =
    | Claiming(env: Envelope)
    | Appending(env: Envelope)
    | Starting(env: Envelope)
    | Applying(env: Envelope, writer: nat)
    | Deciding(env: Envelope, version: nat)
    | Finished(env: Envelope, claimed: bool)

  /** A decision: for whose signal, and about which row of the state table. */
  datatype Decided = Decided(worker: nat, env: Envelope, row: Protocol.Row)

  datatype State = State(
    claims: set<Key>, log: map<Key, Envelope>, proto: Protocol.State, decisions: seq<Decided>,
    workers: map<nat, Worker>)

  const INITIAL := State({}, map[], Protocol.INITIAL, [], map[])

  function KeyOf(env: Envelope): Key {
    (env.org, env.id)
  }

  function RequestFor(env: Envelope): Protocol.Request {
    Protocol.Request(Protocol.PartitionKey(env.org, env.learner), [env.id])
  }

  /** The batch of such a request: the one record, as logged. */
  function BatchOf(env: Envelope): seq<Protocol.Signal> {
    [Protocol.Signal(env.id, env.payload)]
  }

  function Put(s: State, i: nat, w: Worker): State {
    s.(workers := s.workers[i := w])
  }

  // ----- The steps of worker `i`. A call may also fail before or after it has taken effect. -----

  ghost predicate ArriveStep(s: State, s': State, i: nat, env: Envelope) {
    i !in s.workers && s' == Put(s, i, Claiming(env))
  }

  /** The conditional put of the claim. */
  ghost predicate ClaimStep(s: State, s': State, i: nat) {
    i in s.workers && s.workers[i].Claiming? &&
    var env := s.workers[i].env;
    s' == Put(s, i, Finished(env, false)) ||
    (KeyOf(env) !in s.claims &&
     var t := s.(claims := s.claims + {KeyOf(env)});
     s' == Put(t, i, Appending(env)) || s' == Put(t, i, Finished(env, true)))
  }

  /** The conditional put of the record; a record that is there already is left as it is. */
  ghost predicate AppendStep(s: State, s': State, i: nat) {
    i in s.workers && s.workers[i].Appending? &&
    var env := s.workers[i].env;
    var t := if KeyOf(env) in s.log then s else s.(log := s.log[KeyOf(env) := env]);
    s' == Put(s, i, Finished(env, true)) || s' == Put(t, i, Starting(env)) || s' == Put(t, i, Finished(env, true))
  }

  ghost predicate StartStep(s: State, s': State, i: nat, j: nat) {
    i in s.workers && s.workers[i].Starting? &&
    var env := s.workers[i].env;
    Protocol.StartStep(s.proto, s'.proto, j, RequestFor(env)) &&
    s' == Put(s.(proto := s'.proto), i, Applying(env, j))
  }

  /** The records a writer fetches are the organisation's, as they are in the log. */
  ghost predicate FetchesLogged(s: State, w: Protocol.Writer, w': Protocol.Writer, org: string) {
    w.Fetching? && w'.Computing? ==>
      forall x | x in w'.signals :: (org, x.id) in s.log && s.log[(org, x.id)].payload == x.payload
  }

  /** One step of the state protocol by the worker's writer. */
  ghost predicate ApplyStep(e: Protocol.Engine, s: State, s': State, i: nat) {
    i in s.workers && s.workers[i].Applying? &&
    var Applying(env, j) := s.workers[i];
    Protocol.WriterStep(e, s.proto, s'.proto, j) && s' == s.(proto := s'.proto) &&
    j in s.proto.writers && j in s'.proto.writers && FetchesLogged(s, s.proto.writers[j], s'.proto.writers[j], env.org)
  }

  /** The outcome of the state protocol comes back. */
  ghost predicate AppliedStep(s: State, s': State, i: nat) {
    i in s.workers && s.workers[i].Applying? && s.workers[i].writer in s.proto.writers &&
    var env := s.workers[i].env;
    match s.proto.writers[s.workers[i].writer]
    case Returned(_, Applied(_, version, _)) => s' == Put(s, i, Deciding(env, version))
    case Returned(_, Nothing(version)) => s' == Put(s, i, Deciding(env, version))
    case Returned(_, Rejected(_)) => s' == Put(s, i, Finished(env, true))
    case Threw(_) => s' == Put(s, i, Finished(env, true))
    case _ => false
  }

  /** The evaluation reads the current state, possibly stale, and saves at most one decision, and none
      unless the version read is the version applied. */
  ghost predicate DecideStep(s: State, s': State, i: nat, r: Option<Protocol.Row>) {
    i in s.workers && s.workers[i].Deciding? &&
    var Deciding(env, version) := s.workers[i];
    Protocol.MayRead(s.proto, RequestFor(env).pk, r) &&
    (s' == Put(s, i, Finished(env, true)) ||
     (r.Some? && r.value.version == version &&
      s' == Put(s.(decisions := s.decisions + [Decided(i, env, r.value)]), i, Finished(env, true))))
  }

  ghost predicate WorkerStep(e: Protocol.Engine, s: State, s': State, i: nat) {
    ClaimStep(s, s', i) || AppendStep(s, s', i) || (exists j :: StartStep(s, s', i, j)) || ApplyStep(e, s, s', i) ||
    AppliedStep(s, s', i) || exists r :: DecideStep(s, s', i, r)
  }

  ghost predicate StepOf(e: Protocol.Engine, s: State, s': State, i: nat) {
    WorkerStep(e, s, s', i) || exists env :: ArriveStep(s, s', i, env)
  }

  ghost predicate Next(e: Protocol.Engine, s: State, s': State) {
    exists i :: StepOf(e, s, s', i)
  }

  ghost predicate IsRun(e: Protocol.Engine, run: seq<State>) {
    run != [] && run[0] == INITIAL && forall k | 0 <= k < |run| - 1 :: Next(e, run[k], run[k + 1])
  }

  // ----- The invariant -----

  /** The worker holds the claim of its key. */
  predicate Past(w: Worker) {
    !w.Claiming? && (w.Finished? ==> w.claimed)
  }

  /** The signal is logged and claimed. */
  ghost predicate Logged(s: State, env: Envelope) {
    KeyOf(env) in s.log && s.log[KeyOf(env)] == env && KeyOf(env) in s.claims
  }

  ghost predicate ClaimsHeld(s: State) {
    (forall i | i in s.workers && Past(s.workers[i]) :: KeyOf(s.workers[i].env) in s.claims) &&
    forall i, j | i in s.workers && j in s.workers && Past(s.workers[i]) && Past(s.workers[j]) &&
                  KeyOf(s.workers[i].env) == KeyOf(s.workers[j].env) :: i == j
  }

  /** Whatever is logged was logged by a worker that holds the claim and has moved on. */
  ghost predicate LogHeld(s: State) {
    forall k | k in s.log :: KeyOf(s.log[k]) == k && k in s.claims &&
      exists i :: i in s.workers && LoggedBy(s.workers[i], s.log[k])
  }

  predicate LoggedBy(w: Worker, env: Envelope) {
    w.env == env && Past(w) && !w.Appending?
  }

  /** The signal is applied to its learner's partition. */
  ghost predicate Recorded(s: State, env: Envelope) {
    (RequestFor(env).pk, env.id) in s.proto.applied
  }

  /** The writer works for a logged signal. */
  ghost predicate WorksFor(s: State, w: Protocol.Writer, env: Envelope) {
    Protocol.RequestOf(w) == RequestFor(env) && Logged(s, env)
  }

  /** What the writer has fetched is the signal it works for. */
  predicate Carries(w: Protocol.Writer, env: Envelope) {
    match w
    case Computing(_, _, signals) => signals == BatchOf(env)
    case Reading(job, _) => job.signals == BatchOf(env)
    case Saving(job, _, _) => job.signals == BatchOf(env)
    case Refreshing(job) => job.signals == BatchOf(env)
    case _ => true
  }

  ghost predicate Serves(s: State, w: Protocol.Writer, env: Envelope) {
    WorksFor(s, w, env) && Carries(w, env)
  }

  ghost predicate WritersHeld(s: State) {
    forall j | j in s.proto.writers :: exists env :: Serves(s, s.proto.writers[j], env)
  }

  /** The transaction wrote what the engine made of a logged signal. */
  ghost predicate Stores(s: State, job: Protocol.Job, env: Envelope) {
    Logged(s, env) && job.req == RequestFor(env) && job.signals == BatchOf(env)
  }

  ghost predicate CommitsHeld(s: State) {
    forall c | c in s.proto.history :: exists env :: Stores(s, c.job, env)
  }

  ghost predicate WorkerHeld(s: State, w: Worker) {
    match w
    case Starting(env) => Logged(s, env)
    case Applying(env, j) => j in s.proto.writers && WorksFor(s, s.proto.writers[j], env)
    case Deciding(env, version) => Logged(s, env) && Recorded(s, env)
    case _ => true
  }

  ghost predicate WorkersHeld(s: State) {
    forall i | i in s.workers :: WorkerHeld(s, s.workers[i])
  }

  /** A decision is the last thing its worker does, for a logged and applied signal, about a row that is
      stored as it was judged. */
  ghost predicate DecisionHeld(s: State, d: Decided) {
    d.worker in s.workers && s.workers[d.worker] == Finished(d.env, true) && Logged(s, d.env) && Recorded(s, d.env) &&
    (RequestFor(d.env).pk, d.row.version) in s.proto.rows &&
    s.proto.rows[(RequestFor(d.env).pk, d.row.version)] == d.row
  }

  ghost predicate DecisionsHeld(s: State) {
    (forall d | d in s.decisions :: DecisionHeld(s, d)) &&
    forall a, b | 0 <= a < b < |s.decisions| :: s.decisions[a].worker != s.decisions[b].worker
  }

  ghost predicate Inv(e: Protocol.Engine, s: State) {
    ProtocolSafety.Inv(e, s.proto) && ClaimsHeld(s) && LogHeld(s) && WritersHeld(s) && CommitsHeld(s) &&
    WorkersHeld(s) &&
    DecisionsHeld(s)
  }

  /** Nothing stored is lost, and no worker that holds a claim lets go of it. */
  ghost predicate Grows(s: State, s': State) {
    s.claims <= s'.claims && (forall k | k in s.log :: k in s'.log && s'.log[k] == s.log[k]) &&
    s.decisions <= s'.decisions &&
    forall i | i in s.workers ::
      i in s'.workers && s'.workers[i].env == s.workers[i].env && (Past(s.workers[i]) ==> Past(s'.workers[i]))
  }

  /** A step of worker `i` that leaves the state protocol alone: what is left to show is about `i` only. */
  ghost predicate Moves(s: State, s': State, i: nat) {
    Grows(s, s') && s'.proto == s.proto && i in s'.workers &&
    (forall j | j in s'.workers && j != i :: j in s.workers && s'.workers[j] == s.workers[j])
  }

  lemma MoveKeepsClaims(s: State, s': State, i: nat)
    requires ClaimsHeld(s) && Moves(s, s', i)
    requires Past(s'.workers[i]) ==>
               KeyOf(s'.workers[i].env) in s'.claims &&
               ((i in s.workers && Past(s.workers[i])) || KeyOf(s'.workers[i].env) !in s.claims)
    ensures ClaimsHeld(s')
  {
  }

  ghost predicate LogGrows(s: State, s': State) {
    s.claims <= s'.claims && forall k | k in s.log :: k in s'.log && s'.log[k] == s.log[k]
  }

  lemma WritersStayHeld(s: State, s': State)
    requires WritersHeld(s) && LogGrows(s, s') && s'.proto.writers == s.proto.writers
    ensures WritersHeld(s')
  {
    forall j | j in s'.proto.writers ensures exists env :: Serves(s', s'.proto.writers[j], env) {
      var env :| Serves(s, s.proto.writers[j], env);
      assert Serves(s', s'.proto.writers[j], env);
    }
  }

  lemma CommitsStayHeld(s: State, s': State)
    requires CommitsHeld(s) && LogGrows(s, s') && s'.proto.history == s.proto.history
    ensures CommitsHeld(s')
  {
    forall c | c in s'.proto.history ensures exists env :: Stores(s', c.job, env) {
      var env :| Stores(s, c.job, env);
      assert Stores(s', c.job, env);
    }
  }

  lemma MoveKeepsHeld(s: State, s': State, i: nat)
    requires WritersHeld(s) && CommitsHeld(s) && WorkersHeld(s) && Moves(s, s', i) && WorkerHeld(s', s'.workers[i])
    ensures WritersHeld(s') && CommitsHeld(s') && WorkersHeld(s')
  {
    WritersStayHeld(s, s');
    CommitsStayHeld(s, s');
    forall j | j in s'.workers && j != i ensures WorkerHeld(s', s'.workers[j]) {
      assert WorkerHeld(s, s.workers[j]);
    }
  }

  lemma MoveKeepsLog(s: State, s': State, i: nat)
    requires LogHeld(s) && Moves(s, s', i) && s'.log == s.log
    requires i in s.workers && Past(s.workers[i]) && !s.workers[i].Appending? ==> !s'.workers[i].Appending?
    ensures LogHeld(s')
  {
    forall k | k in s'.log ensures exists j :: j in s'.workers && LoggedBy(s'.workers[j], s'.log[k]) {
      var j :| j in s.workers && LoggedBy(s.workers[j], s.log[k]);
      assert LoggedBy(s'.workers[j], s'.log[k]);
    }
  }

  lemma MoveKeepsDecisions(s: State, s': State, i: nat)
    requires DecisionsHeld(s) && Moves(s, s', i) && s'.decisions == s.decisions &&
             (i in s.workers ==> !s.workers[i].Finished?)
    ensures DecisionsHeld(s')
  {
    forall d | d in s'.decisions ensures DecisionHeld(s', d) {
      assert DecisionHeld(s, d);
    }
  }

  lemma ArriveKeepsInv(e: Protocol.Engine, s: State, s': State, i: nat, env: Envelope)
    requires Inv(e, s) && ArriveStep(s, s', i, env)
    ensures Inv(e, s')
  {
    assert Moves(s, s', i);
    MoveKeepsClaims(s, s', i);
    MoveKeepsLog(s, s', i);
    MoveKeepsHeld(s, s', i);
    MoveKeepsDecisions(s, s', i);
  }

  lemma ClaimKeepsInv(e: Protocol.Engine, s: State, s': State, i: nat)
    requires Inv(e, s) && ClaimStep(s, s', i)
    ensures Inv(e, s')
  {
    assert Moves(s, s', i);
    MoveKeepsClaims(s, s', i);
    MoveKeepsLog(s, s', i);
    MoveKeepsHeld(s, s', i);
    MoveKeepsDecisions(s, s', i);
  }

  /** The holder of a claim that has not logged yet finds no record: it would have to be its own. */
  lemma NotLoggedYet(s: State, i: nat)
    requires ClaimsHeld(s) && LogHeld(s) && i in s.workers && s.workers[i].Appending?
    ensures KeyOf(s.workers[i].env) !in s.log
  {
  }

  lemma AppendKeepsLog(s: State, s': State, i: nat)
    requires ClaimsHeld(s) && LogHeld(s) && AppendStep(s, s', i) && Moves(s, s', i)
    ensures LogHeld(s')
  {
    forall k | k in s'.log
      ensures KeyOf(s'.log[k]) == k && k in s'.claims &&
              exists j :: j in s'.workers && LoggedBy(s'.workers[j], s'.log[k])
    {
      if k in s.log {
        var j :| j in s.workers && LoggedBy(s.workers[j], s.log[k]);
        assert LoggedBy(s'.workers[j], s'.log[k]);
      } else {
        assert LoggedBy(s'.workers[i], s'.log[k]);
      }
    }
  }

  lemma AppendMoves(s: State, s': State, i: nat)
    requires ClaimsHeld(s) && LogHeld(s) && AppendStep(s, s', i)
    ensures Moves(s, s', i) && s'.decisions == s.decisions && s'.claims == s.claims
    ensures s'.workers[i].env == s.workers[i].env && Past(s'.workers[i]) && WorkerHeld(s', s'.workers[i])
  {
    NotLoggedYet(s, i);
  }

  lemma AppendKeepsInv(e: Protocol.Engine, s: State, s': State, i: nat)
    requires Inv(e, s) && AppendStep(s, s', i)
    ensures Inv(e, s')
  {
    AppendMoves(s, s', i);
    MoveKeepsClaims(s, s', i);
    AppendKeepsLog(s, s', i);
    MoveKeepsHeld(s, s', i);
    MoveKeepsDecisions(s, s', i);
  }

  lemma OkIsRecorded(e: Protocol.Engine, s: State, i: nat)
    requires ProtocolSafety.Inv(e, s.proto) && i in s.workers && s.workers[i].Applying? && WorkerHeld(s, s.workers[i])
    ensures var w := s.proto.writers[s.workers[i].writer];
            w.Returned? && !w.outcome.Rejected? ==> Recorded(s, s.workers[i].env)
  {
    var j := s.workers[i].writer;
    if s.proto.writers[j].Returned? && !s.proto.writers[j].outcome.Rejected? {
      ProtocolSafety.OkIsRecorded(e, s.proto, j);
      assert s.workers[i].env.id in RequestFor(s.workers[i].env).ids;
    }
  }

  lemma AppliedMoves(s: State, s': State, i: nat)
    requires AppliedStep(s, s', i) && WorkerHeld(s, s.workers[i])
    requires var w := s.proto.writers[s.workers[i].writer];
             w.Returned? && !w.outcome.Rejected? ==> Recorded(s, s.workers[i].env)
    ensures Moves(s, s', i) && s'.decisions == s.decisions && s'.claims == s.claims && s'.log == s.log
    ensures s'.workers[i].env == s.workers[i].env && Past(s'.workers[i]) && !s'.workers[i].Appending? &&
            WorkerHeld(s', s'.workers[i])
  {
  }

  lemma AppliedKeepsInv(e: Protocol.Engine, s: State, s': State, i: nat)
    requires Inv(e, s) && AppliedStep(s, s', i)
    ensures Inv(e, s')
  {
    OkIsRecorded(e, s, i);
    AppliedMoves(s, s', i);
    WorkerMovesOn(s, s', i);
  }

  /** A worker past its claim that is done with the protocol and stores nothing. */
  lemma WorkerMovesOn(s: State, s': State, i: nat)
    requires ClaimsHeld(s) && LogHeld(s) && WritersHeld(s) && CommitsHeld(s) && WorkersHeld(s) && DecisionsHeld(s)
    requires Moves(s, s', i) && s'.decisions == s.decisions && s'.claims == s.claims && s'.log == s.log
    requires i in s.workers && s.workers[i].Applying? && s'.workers[i].env == s.workers[i].env
    requires Past(s'.workers[i]) && !s'.workers[i].Appending? && WorkerHeld(s', s'.workers[i])
    ensures ClaimsHeld(s') && LogHeld(s') && WritersHeld(s') && CommitsHeld(s') && WorkersHeld(s') && DecisionsHeld(s')
  {
    MoveKeepsClaims(s, s', i);
    MoveKeepsLog(s, s', i);
    MoveKeepsHeld(s, s', i);
    MoveKeepsDecisions(s, s', i);
  }

  lemma DecideMoves(s: State, s': State, i: nat, r: Option<Protocol.Row>)
    requires DecideStep(s, s', i, r)
    ensures Moves(s, s', i) && s'.claims == s.claims && s'.log == s.log
    ensures s'.workers[i].env == s.workers[i].env && Past(s'.workers[i]) && !s'.workers[i].Appending? &&
            WorkerHeld(s', s'.workers[i])
  {
  }

  lemma DecideKeepsInv(e: Protocol.Engine, s: State, s': State, i: nat, r: Option<Protocol.Row>)
    requires Inv(e, s) && DecideStep(s, s', i, r)
    ensures Inv(e, s')
  {
    assert WorkerHeld(s, s.workers[i]);
    DecideMoves(s, s', i, r);
    MoveKeepsClaims(s, s', i);
    MoveKeepsLog(s, s', i);
    MoveKeepsHeld(s, s', i);
    DecideKeepsDecisions(s, s', i, r);
  }

  lemma DecideKeepsDecisions(s: State, s': State, i: nat, r: Option<Protocol.Row>)
    requires ProtocolSafety.RowsWritten(s.proto) && DecisionsHeld(s) && DecideStep(s, s', i, r) &&
             WorkerHeld(s, s.workers[i])
    ensures DecisionsHeld(s')
  {
    forall d | d in s.decisions ensures d.worker != i && DecisionHeld(s', d) {
      assert DecisionHeld(s, d);
    }
    forall d | d in s'.decisions ensures DecisionHeld(s', d) {
      assert d in s.decisions || (r.Some? && d == Decided(i, s.workers[i].env, r.value));
    }
  }

  // ----- Steps of the state protocol -----

  lemma QuietKeepsRequest(e: Protocol.Engine, p: Protocol.State, p': Protocol.State, j: nat, w': Protocol.Writer)
    requires ProtocolSafety.Inv(e, p) && Protocol.QuietStep(e, p, p', j, w')
    ensures Protocol.RequestOf(w') == Protocol.RequestOf(p.writers[j])
  {
    if Protocol.ReadStep(e, p, p.writers[j], w') {
      ProtocolSafety.ReadStepKeepsWriter(e, p, p.writers[j], w');
    }
  }

  lemma SaveKeepsRequest(p: Protocol.State, p': Protocol.State, j: nat)
    requires Protocol.SaveStep(p, p', j)
    ensures j in p.writers && p'.writers.Keys == p.writers.Keys
    ensures forall k | k in p.writers :: Protocol.RequestOf(p'.writers[k]) == Protocol.RequestOf(p.writers[k])
  {
    assert Protocol.CommitStep(p, p', j, p'.writers[j]);
  }

  /** A writer keeps its request from step to step. */
  lemma WriterKeepsRequest(e: Protocol.Engine, p: Protocol.State, p': Protocol.State, j: nat)
    requires ProtocolSafety.Inv(e, p) && Protocol.WriterStep(e, p, p', j)
    ensures j in p.writers && p'.writers.Keys == p.writers.Keys
    ensures forall k | k in p.writers :: Protocol.RequestOf(p'.writers[k]) == Protocol.RequestOf(p.writers[k])
  {
    if Protocol.SaveStep(p, p', j) {
      SaveKeepsRequest(p, p', j);
    } else {
      var w' :| Protocol.QuietStep(e, p, p', j, w');
      QuietKeepsRequest(e, p, p', j, w');
    }
  }

  /** Only the fetch gives a writer a batch. */
  lemma StepCarries(e: Protocol.Engine, p: Protocol.State, p': Protocol.State, j: nat, env: Envelope)
    requires Protocol.WriterStep(e, p, p', j) && j in p.writers && Carries(p.writers[j], env)
    ensures j in p'.writers
    ensures Carries(p'.writers[j], env) || (p.writers[j].Fetching? && p'.writers[j].Computing?)
  {
    if !Protocol.SaveStep(p, p', j) {
      var w' :| Protocol.QuietStep(e, p, p', j, w');
      assert p'.writers[j] == w';
    }
  }

  /** What is fetched for a request with one id is the one record. */
  lemma FetchCarries(e: Protocol.Engine, s: State, w': Protocol.Writer, env: Envelope)
    requires w'.Computing? && Logged(s, env) && Protocol.RequestOf(w') == RequestFor(env)
    requires ProtocolSafety.WriterOk(e, s.proto, w')
    requires forall x | x in w'.signals :: (env.org, x.id) in s.log && s.log[(env.org, x.id)].payload == x.payload
    ensures Carries(w', env)
  {
    assert |w'.toApply| == 1 && w'.toApply[0] in RequestFor(env).ids;
    var x := w'.signals[0];
    assert Protocol.Ids(w'.signals)[0] == x.id == env.id;
    assert x in w'.signals;
  }

  lemma ApplyKeepsWriters(e: Protocol.Engine, s: State, s': State, i: nat)
    requires WritersHeld(s) && WorkersHeld(s) && ApplyStep(e, s, s', i) && ProtocolSafety.Inv(e, s'.proto)
    requires forall k | k in s.proto.writers :: k in s'.proto.writers &&
               Protocol.RequestOf(s'.proto.writers[k]) == Protocol.RequestOf(s.proto.writers[k])
    requires s'.proto.writers.Keys == s.proto.writers.Keys
    ensures WritersHeld(s')
  {
    var Applying(worker, j) := s.workers[i];
    assert WorkerHeld(s, s.workers[i]);
    forall k | k in s'.proto.writers ensures exists env :: Serves(s', s'.proto.writers[k], env) {
      var env :| Serves(s, s.proto.writers[k], env);
      if k == j {
        StepCarries(e, s.proto, s'.proto, j, env);
        if s.proto.writers[j].Fetching? && s'.proto.writers[j].Computing? {
          assert ProtocolSafety.WriterOk(e, s'.proto, s'.proto.writers[j]);
          FetchCarries(e, s', s'.proto.writers[j], worker);
          assert Serves(s', s'.proto.writers[k], worker);
        } else {
          assert Serves(s', s'.proto.writers[k], env);
        }
      } else {
        OtherWriterStays(e, s.proto, s'.proto, j, k);
        assert Serves(s', s'.proto.writers[k], env);
      }
    }
  }

  lemma OtherWriterStays(e: Protocol.Engine, p: Protocol.State, p': Protocol.State, j: nat, k: nat)
    requires Protocol.WriterStep(e, p, p', j) && k in p.writers && k != j
    ensures k in p'.writers && p'.writers[k] == p.writers[k]
  {
  }

  lemma ApplyKeepsCommits(e: Protocol.Engine, s: State, s': State, i: nat)
    requires WritersHeld(s) && CommitsHeld(s) && ApplyStep(e, s, s', i)
    ensures CommitsHeld(s')
  {
    var j := s.workers[i].writer;
    if Protocol.SaveStep(s.proto, s'.proto, j) {
      var env :| Serves(s, s.proto.writers[j], env);
      assert Stores(s', s.proto.writers[j].job, env);
      forall c | c in s'.proto.history ensures exists env :: Stores(s', c.job, env) {
        if c in s.proto.history {
          var env :| Stores(s, c.job, env);
          assert Stores(s', c.job, env);
        }
      }
    } else {
      CommitsStayHeld(s, s');
    }
  }

  lemma ApplyKeepsInv(e: Protocol.Engine, s: State, s': State, i: nat)
    requires Inv(e, s) && ApplyStep(e, s, s', i)
    ensures Inv(e, s')
  {
    var j := s.workers[i].writer;
    assert Protocol.StepOf(e, s.proto, s'.proto, j);
    ProtocolSafety.NextKeepsInv(e, s.proto, s'.proto);
    ProtocolSafety.NextKeepsStored(e, s.proto, s'.proto);
    WriterKeepsRequest(e, s.proto, s'.proto, j);
    ApplyKeepsWriters(e, s, s', i);
    ApplyKeepsCommits(e, s, s', i);
    forall k | k in s'.workers ensures WorkerHeld(s', s'.workers[k]) {
      assert WorkerHeld(s, s.workers[k]);
    }
    forall d | d in s'.decisions ensures DecisionHeld(s', d) {
      assert DecisionHeld(s, d);
    }
  }

  lemma StartKeepsInv(e: Protocol.Engine, s: State, s': State, i: nat, j: nat)
    requires Inv(e, s) && StartStep(s, s', i, j)
    ensures Inv(e, s')
  {
    var env := s.workers[i].env;
    assert WorkerHeld(s, s.workers[i]);
    ProtocolSafety.StartStepKeepsInv(e, s.proto, s'.proto, j, RequestFor(env));
    assert Serves(s', s'.proto.writers[j], env);
    forall k | k in s'.proto.writers ensures exists env :: Serves(s', s'.proto.writers[k], env) {
      if k != j {
        var env :| Serves(s, s.proto.writers[k], env);
        assert Serves(s', s'.proto.writers[k], env);
      }
    }
    CommitsStayHeld(s, s');
    StartKeepsRest(s, s', i, j);
  }

  lemma HeldWithNewWriter(s: State, s': State, j: nat, w: Worker)
    requires WorkerHeld(s, w) && s'.log == s.log && s'.claims == s.claims && s'.proto.applied == s.proto.applied
    requires j !in s.proto.writers &&
             forall k | k in s.proto.writers :: k in s'.proto.writers && s'.proto.writers[k] == s.proto.writers[k]
    ensures WorkerHeld(s', w)
  {
  }

  lemma StartKeepsRest(s: State, s': State, i: nat, j: nat)
    requires ClaimsHeld(s) && LogHeld(s) && WorkersHeld(s) && DecisionsHeld(s) && StartStep(s, s', i, j)
    requires WorksFor(s', s'.proto.writers[j], s.workers[i].env)
    ensures ClaimsHeld(s') && LogHeld(s') && WorkersHeld(s') && DecisionsHeld(s')
  {
    var t := Put(s, i, Applying(s.workers[i].env, j));
    assert Moves(s, t, i);
    MoveKeepsClaims(s, t, i);
    MoveKeepsLog(s, t, i);
    MoveKeepsDecisions(s, t, i);
    SameButProto(t, s');
    forall k | k in s'.workers && k != i ensures WorkerHeld(s', s'.workers[k]) {
      assert WorkerHeld(s, s.workers[k]);
      HeldWithNewWriter(s, s', j, s.workers[k]);
    }
  }

  lemma SameButProto(t: State, s': State)
    requires s' == t.(proto := s'.proto) && s'.proto.rows == t.proto.rows && s'.proto.applied == t.proto.applied
    requires LogHeld(t) && DecisionsHeld(t)
    ensures LogHeld(s') && DecisionsHeld(s')
  {
    forall d | d in s'.decisions ensures DecisionHeld(s', d) {
      assert DecisionHeld(t, d);
    }
    forall k | k in s'.log ensures exists j :: j in s'.workers && LoggedBy(s'.workers[j], s'.log[k]) {
      var j :| j in t.workers && LoggedBy(t.workers[j], t.log[k]);
      assert LoggedBy(s'.workers[j], s'.log[k]);
    }
  }

  lemma NextKeepsInv(e: Protocol.Engine, s: State, s': State)
    requires Inv(e, s) && Next(e, s, s')
    ensures Inv(e, s')
  {
    var i :| StepOf(e, s, s', i);
    if ClaimStep(s, s', i) {
      ClaimKeepsInv(e, s, s', i);
    } else if AppendStep(s, s', i) {
      AppendKeepsInv(e, s, s', i);
    } else if j :| StartStep(s, s', i, j) {
      StartKeepsInv(e, s, s', i, j);
    } else if ApplyStep(e, s, s', i) {
      ApplyKeepsInv(e, s, s', i);
    } else if AppliedStep(s, s', i) {
      AppliedKeepsInv(e, s, s', i);
    } else if r :| DecideStep(s, s', i, r) {
      DecideKeepsInv(e, s, s', i, r);
    } else {
      var env :| ArriveStep(s, s', i, env);
      ArriveKeepsInv(e, s, s', i, env);
    }
  }

  lemma {:induction false} RunKeepsInv(e: Protocol.Engine, run: seq<State>, k: nat)
    requires IsRun(e, run) && k < |run|
    ensures Inv(e, run[k])
  {
    if k > 0 {
      RunKeepsInv(e, run, k - 1);
      assert Next(e, run[k - 1], run[k - 1 + 1]);
      NextKeepsInv(e, run[k - 1], run[k]);
    }
  }

  // ----- The properties -----

  lemma AppliedHasWriter(e: Protocol.Engine, p: Protocol.State, pk: string, id: string) returns (w: nat)
    requires ProtocolSafety.Inv(e, p) && (pk, id) in p.applied
    ensures w in p.writers && Protocol.RequestOf(p.writers[w]).pk == pk && id in Protocol.RequestOf(p.writers[w]).ids
  {
    var k := (pk, id);
    var c :| 0 <= c < |p.history| && ProtocolSafety.Pk(p.history[c]) == k.0 &&
             k.1 in Protocol.Ids(p.history[c].job.signals) &&
             p.history[c].version == p.applied[k];
    w := p.history[c].writer;
    assert ProtocolSafety.JobOk(e, p, p.history[c].job, p.history[c].attempt);
  }

  /** At every point of every run each applied signal of a partition is logged and claimed, and its record
      belongs to a learner of that partition. */
  lemma AppliedIsLogged(e: Protocol.Engine, run: seq<State>, k: nat, pk: string, id: string) returns (env: Envelope)
    requires IsRun(e, run) && k < |run| && (pk, id) in run[k].proto.applied
    ensures Logged(run[k], env) && env.id == id && Protocol.PartitionKey(env.org, env.learner) == pk
  {
    RunKeepsInv(e, run, k);
    var w := AppliedHasWriter(e, run[k].proto, pk, id);
    env :| Serves(run[k], run[k].proto.writers[w], env);
  }

  /** At every point of every run each transaction wrote one signal, with the payload that is logged. */
  lemma BatchesAreLogged(e: Protocol.Engine, run: seq<State>, k: nat, c: Protocol.Commit) returns (env: Envelope)
    requires IsRun(e, run) && k < |run| && c in run[k].proto.history
    ensures Logged(run[k], env) && ProtocolSafety.Pk(c) == Protocol.PartitionKey(env.org, env.learner)
    ensures c.job.signals == BatchOf(env)
  {
    RunKeepsInv(e, run, k);
    env :| Stores(run[k], c.job, env);
  }

  /** With the real engine, a version committed over the one it was computed from is what the engine makes of the
      version before and the logged payload; at the second attempt, of that payload as the first may have retouched
      it. */
  lemma StatesAreMadeOfLoggedSignals(config: AsyncReplay.Configs, run: seq<State>, k: nat, c: Protocol.Commit)
      returns (env: Envelope, payload: Json)
    requires IsRun(AsyncReplay.Reducing(config), run) && k < |run| && c in run[k].proto.history
    requires Protocol.VersionOf(c.job.base) + 1 == c.version
    ensures Logged(run[k], env) && ProtocolSafety.Pk(c) == Protocol.PartitionKey(env.org, env.learner)
    ensures Retouching.Retouched(env.payload, payload) && (c.attempt == 0 ==> payload == env.payload)
    ensures var p, pk := run[k].proto, ProtocolSafety.Pk(c);
            (pk, c.version) in p.rows &&
            AsyncReplay.Reduces(config, pk, ProtocolSafety.Previous(p, pk, c.version), [payload],
                                p.rows[(pk, c.version)].state)
  {
    env := BatchesAreLogged(AsyncReplay.Reducing(config), run, k, c);
    RunKeepsInv(AsyncReplay.Reducing(config), run, k);
    payload := ReplaysOne(config, run[k].proto, c, env);
  }

  lemma ReplaysOne(config: AsyncReplay.Configs, p: Protocol.State, c: Protocol.Commit, env: Envelope)
      returns (payload: Json)
    requires ProtocolSafety.RowsCounted(p) && ProtocolSafety.RowsWritten(p)
    requires ProtocolSafety.CommitsOk(AsyncReplay.Reducing(config), p)
    requires c in p.history && c.job.signals == BatchOf(env)
    requires Protocol.VersionOf(c.job.base) + 1 == c.version
    ensures Retouching.Retouched(env.payload, payload) && (c.attempt == 0 ==> payload == env.payload)
    ensures var pk := ProtocolSafety.Pk(c);
            (pk, c.version) in p.rows &&
            AsyncReplay.Reduces(config, pk, ProtocolSafety.Previous(p, pk, c.version), [payload],
                                p.rows[(pk, c.version)].state)
  {
    var payloads := AsyncReplay.KeptStatesReplay(config, p, c);
    assert AsyncReplay.Payloads(BatchOf(env)) == [env.payload];
    assert Retouching.Retouched([env.payload][0], payloads[0]);
    payload := payloads[0];
    assert payloads == [payload];
  }

  lemma FirstHash(a: string, b: string, c: string, d: string)
    requires Protocol.PartitionKey(a, b) == Protocol.PartitionKey(c, d) && '#' !in a
    ensures |a| <= |c|
  {
    assert Protocol.PartitionKey(c, d)[|c|] == '#';
    assert forall k | 0 <= k < |a| :: Protocol.PartitionKey(a, b)[k] == a[k];
  }

  /** Organisations whose names hold no hash sign never share a partition. */
  lemma NoHashNoCollision(a: string, b: string, c: string, d: string)
    requires '#' !in a && '#' !in c
    ensures Protocol.PartitionKey(a, b) == Protocol.PartitionKey(c, d) <==> a == c && b == d
  {
    var s, t := Protocol.PartitionKey(a, b), Protocol.PartitionKey(c, d);
    if s == t {
      FirstHash(a, b, c, d);
      FirstHash(c, d, a, b);
      assert s[..|a|] == a && t[..|c|] == c && s[|a| + 1..] == b && t[|c| + 1..] == d;
    }
  }

  /** With a hash sign in the name two learners of different organisations can share one. */
  lemma HashCollides()
    ensures Protocol.PartitionKey("a#b", "c") == Protocol.PartitionKey("a", "b#c")
  {
    assert "a#b" + "#" + "c" == "a" + "#" + "b#c";
  }

  /** Without hash signs in organisation names: what is applied to a learner is logged for that organisation
      and that learner. */
  lemma AppliedIsLoggedForLearner(e: Protocol.Engine, run: seq<State>, k: nat, org: string, learner: string, id: string)
    requires IsRun(e, run) && k < |run| && (Protocol.PartitionKey(org, learner), id) in run[k].proto.applied
    requires '#' !in org && forall key | key in run[k].log :: '#' !in key.0
    ensures (org, id) in run[k].log && run[k].log[(org, id)].learner == learner && (org, id) in run[k].claims
  {
    var env := AppliedIsLogged(e, run, k, Protocol.PartitionKey(org, learner), id);
    NoHashNoCollision(env.org, env.learner, org, learner);
  }

  /** Every logged signal is claimed, and exactly one worker ever got past the claim. */
  lemma LoggedIsClaimed(e: Protocol.Engine, run: seq<State>, k: nat, key: Key)
    requires IsRun(e, run) && k < |run| && key in run[k].log
    ensures key in run[k].claims && KeyOf(run[k].log[key]) == key
    ensures exists i :: i in run[k].workers && Past(run[k].workers[i]) && run[k].workers[i].env == run[k].log[key] &&
                        forall j | j in run[k].workers && Past(run[k].workers[j]) &&
                                   KeyOf(run[k].workers[j].env) == key :: j == i
  {
    RunKeepsInv(e, run, k);
    var i :| i in run[k].workers && LoggedBy(run[k].workers[i], run[k].log[key]);
  }

  /** What a step of worker `i` leaves alone: all that is stored, and every other worker. */
  ghost predicate Keeps(s: State, s': State, i: nat) {
    Grows(s, s') && s'.workers.Keys == s.workers.Keys + {i} &&
    forall j | j in s.workers && j != i :: s'.workers[j] == s.workers[j]
  }

  lemma ClaimGrows(s: State, s': State, i: nat)
    requires ClaimStep(s, s', i)
    ensures Keeps(s, s', i)
  {
  }

  lemma AppendGrows(s: State, s': State, i: nat)
    requires AppendStep(s, s', i)
    ensures Keeps(s, s', i)
  {
  }

  lemma StartGrows(s: State, s': State, i: nat, j: nat)
    requires StartStep(s, s', i, j)
    ensures Keeps(s, s', i)
  {
  }

  lemma DecideGrows(s: State, s': State, i: nat, r: Option<Protocol.Row>)
    requires DecideStep(s, s', i, r)
    ensures Keeps(s, s', i)
  {
  }

  lemma AppliedGrows(s: State, s': State, i: nat)
    requires AppliedStep(s, s', i)
    ensures Keeps(s, s', i)
  {
  }

  /** Along a run claims, records and decisions are only ever added, and a claim stays with its worker. */
  lemma StepGrows(e: Protocol.Engine, s: State, s': State, i: nat)
    requires StepOf(e, s, s', i)
    ensures Keeps(s, s', i) && (i !in s.workers ==> s'.workers[i].Claiming?)
  {
    if ClaimStep(s, s', i) {
      ClaimGrows(s, s', i);
    } else if AppendStep(s, s', i) {
      AppendGrows(s, s', i);
    } else if j :| StartStep(s, s', i, j) {
      StartGrows(s, s', i, j);
    } else if ApplyStep(e, s, s', i) {
    } else if AppliedStep(s, s', i) {
      AppliedGrows(s, s', i);
    } else if r :| DecideStep(s, s', i, r) {
      DecideGrows(s, s', i, r);
    } else {
      var env :| ArriveStep(s, s', i, env);
    }
  }

  /** A submission of a signal that is claimed already. */
  predicate Resubmits(s: State, i: nat, key: Key) {
    key in s.claims && (i in s.workers ==> !Past(s.workers[i]) && KeyOf(s.workers[i].env) == key)
  }

  /** One step of the resubmission itself: no claim, no record, no state, no decision. */
  lemma ResubmissionStep(e: Protocol.Engine, s: State, s': State, i: nat)
    requires StepOf(e, s, s', i) && i in s.workers && Resubmits(s, i, KeyOf(s.workers[i].env))
    ensures s' == Put(s, i, Finished(s.workers[i].env, false))
  {
  }

  lemma OutsideStaysOutside(e: Protocol.Engine, s: State, s': State, i: nat, key: Key)
    requires Next(e, s, s') && Resubmits(s, i, key)
    requires i in s'.workers ==> KeyOf(s'.workers[i].env) == key
    ensures Resubmits(s', i, key)
  {
    var j :| StepOf(e, s, s', j);
    StepGrows(e, s, s', j);
    if j == i && i in s.workers {
      ResubmissionStep(e, s, s', i);
    }
  }

  lemma WorkerKeepsEnvelope(e: Protocol.Engine, s: State, s': State, i: nat)
    requires Next(e, s, s') && i in s.workers
    ensures i in s'.workers && s'.workers[i].env == s.workers[i].env
  {
    var j :| StepOf(e, s, s', j);
    StepGrows(e, s, s', j);
  }

  /** The step keeps worker `i` with its signal, and keeps a resubmission outside. */
  ghost predicate Bars(s: State, s': State, i: nat, key: Key) {
    (i in s.workers ==> i in s'.workers && s'.workers[i].env == s.workers[i].env) &&
    (Resubmits(s, i, key) && (i in s'.workers ==> KeyOf(s'.workers[i].env) == key) ==> Resubmits(s', i, key))
  }

  lemma StepBars(e: Protocol.Engine, s: State, s': State, i: nat, key: Key)
    requires Next(e, s, s')
    ensures Bars(s, s', i, key)
  {
    if i in s.workers {
      WorkerKeepsEnvelope(e, s, s', i);
    }
    if Resubmits(s, i, key) && (i in s'.workers ==> KeyOf(s'.workers[i].env) == key) {
      OutsideStaysOutside(e, s, s', i, key);
    }
  }

  lemma {:induction false} BarredStaysOutside(run: seq<State>, k: nat, m: nat, i: nat, key: Key)
    requires forall n | 0 <= n < |run| - 1 :: Bars(run[n], run[n + 1], i, key)
    requires k <= m < |run| && Resubmits(run[k], i, key) &&
             (i in run[m].workers ==> KeyOf(run[m].workers[i].env) == key)
    ensures Resubmits(run[m], i, key)
    decreases m
  {
    if k < m {
      assert Bars(run[m - 1], run[m - 1 + 1], i, key);
      BarredStaysOutside(run, k, m - 1, i, key);
    }
  }

  /** And no step of any run lets it get further. */
  lemma ResubmissionStaysOutside(e: Protocol.Engine, run: seq<State>, k: nat, m: nat, i: nat, key: Key)
    requires IsRun(e, run) && k <= m < |run| && Resubmits(run[k], i, key)
    requires i in run[m].workers ==> KeyOf(run[m].workers[i].env) == key
    ensures Resubmits(run[m], i, key)
  {
    forall n | 0 <= n < |run| - 1 ensures Bars(run[n], run[n + 1], i, key) {
      StepBars(e, run[n], run[n + 1], i, key);
    }
    BarredStaysOutside(run, k, m, i, key);
  }

  ghost function DecidedKeys(d: seq<Decided>): set<Key> {
    if d == [] then {} else DecidedKeys(d[..|d| - 1]) + {KeyOf(d[|d| - 1].env)}
  }

  lemma {:induction false} DecidedKeysHold(d: seq<Decided>, k: Key)
    requires k in DecidedKeys(d)
    ensures exists a :: 0 <= a < |d| && KeyOf(d[a].env) == k
  {
    var n := |d| - 1;
    if k == KeyOf(d[n].env) {
    } else {
      DecidedKeysHold(d[..n], k);
      var a :| 0 <= a < n && KeyOf(d[..n][a].env) == k;
      assert KeyOf(d[a].env) == k;
    }
  }

  ghost predicate DistinctKeys(d: seq<Decided>) {
    forall a, b | 0 <= a < b < |d| :: KeyOf(d[a].env) != KeyOf(d[b].env)
  }

  lemma {:induction false} DecidedKeysCount(d: seq<Decided>)
    requires DistinctKeys(d)
    ensures |DecidedKeys(d)| == |d|
  {
    if d != [] {
      var n := |d| - 1;
      DecidedKeysCount(d[..n]);
      if KeyOf(d[n].env) in DecidedKeys(d[..n]) {
        DecidedKeysHold(d[..n], KeyOf(d[n].env));
      }
    }
  }

  /** Whatever was decided was decided for a logged and applied signal, about a state that is stored just as it
      was judged: the staleness guard keeps anything else out. */
  lemma DecisionsAreAboutStoredStates(e: Protocol.Engine, run: seq<State>, k: nat, d: Decided)
    requires IsRun(e, run) && k < |run| && d in run[k].decisions
    ensures var pk := RequestFor(d.env).pk; var p := run[k].proto;
            Logged(run[k], d.env) && (pk, d.env.id) in p.applied &&
            (pk, d.row.version) in p.rows && p.rows[(pk, d.row.version)] == d.row
  {
    RunKeepsInv(e, run, k);
    assert DecisionHeld(run[k], d);
  }

  /** No two decisions are for the same signal, and so decisions never outnumber claims. */
  lemma DecisionsWithinClaims(e: Protocol.Engine, run: seq<State>, k: nat)
    requires IsRun(e, run) && k < |run|
    ensures DistinctKeys(run[k].decisions)
    ensures |run[k].decisions| <= |run[k].claims|
  {
    var s := run[k];
    RunKeepsInv(e, run, k);
    var d := s.decisions;
    forall a, b | 0 <= a < b < |d| ensures KeyOf(d[a].env) != KeyOf(d[b].env) {
      assert DecisionHeld(s, d[a]) && DecisionHeld(s, d[b]);
    }
    DecidedKeysCount(d);
    forall key | key in DecidedKeys(d) ensures key in s.claims {
      DecidedKeysHold(d, key);
      var a :| 0 <= a < |d| && KeyOf(d[a].env) == key;
      assert DecisionHeld(s, d[a]);
    }
    CardinalityOfSubset(DecidedKeys(d), s.claims);
  }

  lemma {:induction false} CardinalityOfSubset<T>(a: set<T>, b: set<T>)
    requires a <= b
    ensures |a| <= |b|
  {
    assert b == a + (b - a);
  }
}
