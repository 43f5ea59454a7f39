/** The asynchronous protocol with the real state engine in it. */
module AsyncReplay {
  import opened Json
  import opened ForbiddenKeys
  import opened Protocol
  import opened ProtocolSafety
  import opened Retouching
  import Aggregation
  import StateReducer

  type Configs = string -> Option<Aggregation.SubjectConfig>

  function StateOf(r: Option<Row>): Fields {
    match r case None => map[] case Some(row) => row.state
  }

  function Payloads(signals: seq<Signal>): seq<Json> {
    seq(|signals|, i requires 0 <= i < |signals| => signals[i].payload)
  }

  /** Merge, count, promote, aggregate, compare: what the engine makes of a row and some payloads. */
  ghost predicate Reduces(config: Configs, pk: string, r: Option<Row>, payloads: seq<Json>, state: Fields) {
    StateReducer.Applies(StateOf(r), payloads, config(pk), VersionOf(r) + 1, state)
  }

  /** The same over payloads that a first computation may have counted and compared in. */
  ghost predicate Recomputes(config: Configs, pk: string, r: Option<Row>, payloads: seq<Json>, state: Fields) {
    exists retouched :: AllRetouched(payloads, retouched) && Reduces(config, pk, r, retouched, state)
  }

  ghost function Reducing(config: Configs): Engine {
    Engine(
      (pk, r, signals, state) => Reduces(config, pk, r, Payloads(signals), state),
      state => Clean(Obj(state)),
      (pk, r, signals, state) => Recomputes(config, pk, r, Payloads(signals), state))
  }

  lemma ReducingIs(config: Configs, pk: string, r: Option<Row>, signals: seq<Signal>, state: Fields)
    ensures Reducing(config).reduces(pk, r, signals, state) <==> Reduces(config, pk, r, Payloads(signals), state)
    ensures Reducing(config).valid(state) <==> Clean(Obj(state))
  {
  }

  /** Every stored state passes the state validator. */
  lemma StoredStatesAreClean(config: Configs, s: State, i: nat)
    requires Reachable(Reducing(config), s) && i < |s.history|
    ensures var c := s.history[i]; (Pk(c), c.version) in s.rows && Clean(Obj(s.rows[(Pk(c), c.version)].state))
  {
    StoredIsValid(Reducing(config), s, i);
  }

  lemma MadeByReducer(config: Configs, job: Job, attempt: nat)
    requires Made(Reducing(config), job, attempt)
    ensures if attempt == 0 then Reduces(config, job.req.pk, job.base, Payloads(job.signals), job.state)
            else Recomputes(config, job.req.pk, job.base, Payloads(job.signals), job.state)
  {
  }

  /** A state committed over the version it was computed from is what the state engine makes of that version and
      the batch; at the second attempt, of the batch as the first may have retouched it. */
  lemma StoredStatesReplay(config: Configs, s: State, c: Commit) returns (payloads: seq<Json>)
    requires Reachable(Reducing(config), s) && c in s.history && VersionOf(c.job.base) + 1 == c.version
    ensures AllRetouched(Payloads(c.job.signals), payloads) && (c.attempt == 0 ==> payloads == Payloads(c.job.signals))
    ensures (Pk(c), c.version) in s.rows
    ensures Reduces(config, Pk(c), Previous(s, Pk(c), c.version), payloads, s.rows[(Pk(c), c.version)].state)
  {
    ReachableInv(Reducing(config), s);
    payloads := KeptStatesReplay(config, s, c);
  }

  lemma KeptStatesReplay(config: Configs, s: State, c: Commit) returns (payloads: seq<Json>)
    requires RowsCounted(s) && RowsWritten(s) && CommitsOk(Reducing(config), s)
    requires c in s.history && VersionOf(c.job.base) + 1 == c.version
    ensures AllRetouched(Payloads(c.job.signals), payloads) && (c.attempt == 0 ==> payloads == Payloads(c.job.signals))
    ensures (Pk(c), c.version) in s.rows
    ensures Reduces(config, Pk(c), Previous(s, Pk(c), c.version), payloads, s.rows[(Pk(c), c.version)].state)
  {
    var i :| 0 <= i < |s.history| && s.history[i] == c;
    CommitReplays(Reducing(config), s, i);
    MadeByReducer(config, c.job, c.attempt);
    payloads := Payloads(c.job.signals);
    if c.attempt == 0 {
      forall k | 0 <= k < |payloads| ensures Retouched(payloads[k], payloads[k]) {
        RetouchedHere(payloads[k]);
      }
    } else {
      payloads :| AllRetouched(Payloads(c.job.signals), payloads) &&
                  Reduces(config, Pk(c), c.job.base, payloads, c.job.state);
    }
  }
}
