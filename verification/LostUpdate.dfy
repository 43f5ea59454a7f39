/** The gap between the read a writer computes from and the read it takes its version from: a run of two
    writers in which a committed update is lost. */
module LostUpdate {
  import opened Json
  import opened ForbiddenKeys
  import opened Deltas
  import opened Evidence
  import opened Protocol
  import opened ProtocolSafety
  import AsyncReplay
  import Aggregation
  import StateReducer
  import DeepMerge

  const A: Signal := Signal("a", Obj(X))
  const B: Signal := Signal("b", Obj(Y))
  const PK: string := "o#l"

  lemma Quiet(e: Engine, s: State, i: nat, w': Writer)
    requires Reachable(e, s) && i in s.writers && Running(s.writers[i]) && ReadStep(e, s, s.writers[i], w')
    ensures Reachable(e, Put(s, i, w'))
  {
    assert QuietStep(e, s, Put(s, i, w'), i, w');
    assert StepOf(e, s, Put(s, i, w'), i);
    Extend(e, s, Put(s, i, w'));
  }

  function FreshJob(sig: Signal, state: Fields): Job {
    Job(Request(PK, [sig.id]), [sig.id], [sig], None, None, state)
  }

  lemma Arrived(e: Engine, s: State, i: nat, req: Request)
    requires Reachable(e, s) && i !in s.writers && req.ids != []
    ensures Reachable(e, Put(s, i, Checking(req, map[])))
  {
    assert StartStep(s, Put(s, i, Checking(req, map[])), i, req);
    assert StepOf(e, s, Put(s, i, Checking(req, map[])), i);
    Extend(e, s, Put(s, i, Checking(req, map[])));
  }

  lemma Answered(e: Engine, s: State, i: nat, req: Request, id: string)
    requires Reachable(e, s) && i in s.writers && s.writers[i] == Checking(req, map[]) && req.ids == [id]
    ensures Reachable(e, Put(s, i, Checking(req, map[0 := false])))
  {
    var none: map<nat, bool> := map[];
    assert req.ids[0] == id && 0 !in none && MayAnswer(s, req.pk, req.ids[0], false);
    assert none[0 := false] == map[0 := false];
    assert ReadStep(e, s, Checking(req, none), Checking(req, none[0 := false]));
    Quiet(e, s, i, Checking(req, map[0 := false]));
  }

  lemma Filtered(e: Engine, s: State, i: nat, req: Request, id: string)
    requires Reachable(e, s) && i in s.writers && s.writers[i] == Checking(req, map[0 := false]) && req.ids == [id]
    ensures Reachable(e, Put(s, i, Fetching(req, [id])))
  {
    var answers: map<nat, bool> := map[0 := false];
    assert ToApply([id][..0], answers) == [];
    assert ToApply([id], answers) == [id];
    Quiet(e, s, i, Fetching(req, [id]));
  }

  lemma Checked(e: Engine, s: State, i: nat, id: string)
    requires Reachable(e, s) && i !in s.writers
    ensures Reachable(e, Put(s, i, Fetching(Request(PK, [id]), [id])))
  {
    var req := Request(PK, [id]);
    var s0 := Put(s, i, Checking(req, map[]));
    var s1 := Put(s0, i, Checking(req, map[0 := false]));
    Arrived(e, s, i, req);
    Answered(e, s0, i, req, id);
    Filtered(e, s1, i, req, id);
    assert Put(s1, i, Fetching(req, [id])) == Put(s, i, Fetching(req, [id]));
  }

  /** A new writer with one new signal may get as far as a computed state that has seen no version. */
  lemma Prepared(e: Engine, s: State, i: nat, sig: Signal, state: Fields)
    requires Reachable(e, s) && i !in s.writers && e.reduces(PK, None, [sig], state) && e.valid(state)
    ensures Reachable(e, Put(s, i, Reading(FreshJob(sig, state), 0)))
  {
    Checked(e, s, i, sig.id);
    var req := Request(PK, [sig.id]);
    var s2 := Put(s, i, Fetching(req, [sig.id]));
    assert OrderSignalsByIds([sig], [sig.id]) == [sig] by {
      assert [sig.id][1..] == [];
    }
    Quiet(e, s2, i, Computing(req, [sig.id], [sig]));
    var s3 := Put(s2, i, Computing(req, [sig.id], [sig]));
    assert MayRead(s3, PK, None);
    Quiet(e, s3, i, Reading(FreshJob(sig, state), 0));
    assert Put(s3, i, Reading(FreshJob(sig, state), 0)) == Put(s, i, Reading(FreshJob(sig, state), 0));
  }

  lemma Saved(e: Engine, s: State, i: nat, job: Job, v: nat, t: State)
    requires Reachable(e, s) && i in s.writers && s.writers[i] == Saving(job, 0, v)
    requires CommitStep(s, t, i, Returned(job.req, Applied(VersionOf(job.seen), v, job.toApply)))
    ensures Reachable(e, t)
  {
    assert SaveStep(s, t, i);
    assert StepOf(e, s, t, i);
    Extend(e, s, t);
  }

  /** The tables after the writer's transaction, its answer delivered. */
  function After(s: State, i: nat, job: Job, v: nat): State {
    var ids := Ids(job.signals);
    State(s.rows[(job.req.pk, v) := RowOf(job, v)], s.applied + (map id | id in ids :: (job.req.pk, id) := v),
          s.writers[i := Returned(job.req, Applied(VersionOf(job.seen), v, job.toApply))],
          s.history + [Commit(i, job, 0, v)])
  }

  /** A writer that has computed may read some version and commit the next one. */
  lemma Committed(e: Engine, s: State, i: nat, sig: Signal, state: Fields, r: Option<Row>)
    requires Reachable(e, s) && i in s.writers && s.writers[i] == Reading(FreshJob(sig, state), 0)
    requires MayRead(s, PK, r) && (PK, VersionOf(r) + 1) !in s.rows && (PK, sig.id) !in s.applied
    ensures Reachable(e, After(s, i, FreshJob(sig, state), VersionOf(r) + 1))
  {
    var job := FreshJob(sig, state);
    var v := VersionOf(r) + 1;
    Quiet(e, s, i, Saving(job, 0, v));
    var s1 := Put(s, i, Saving(job, 0, v));
    assert Ids(job.signals) == [sig.id];
    assert Accepts(s1, PK, v, Ids(job.signals));
    Saved(e, s1, i, job, v, After(s1, i, job, v));
    assert After(s1, i, job, v).writers == After(s, i, job, v).writers;
  }

  const X: Fields := map["x" := Num(1.0)]
  const Y: Fields := map["y" := Num(1.0)]
  const FIRST: Row := RowOf(FreshJob(A, X), 1)

  /** The engine takes each payload for the first version. */
  ghost predicate TakesBoth(e: Engine) {
    e.reduces(PK, None, [A], X) && e.valid(X) && e.reduces(PK, None, [B], Y) && e.valid(Y)
  }

  lemma BothComputed(e: Engine, s: State)
    requires TakesBoth(e) && s == Put(Put(INITIAL, 0, Reading(FreshJob(A, X), 0)), 1, Reading(FreshJob(B, Y), 0))
    ensures Reachable(e, s)
  {
    assert Reachable(e, INITIAL) by {
      assert IsRun(e, [INITIAL]);
    }
    Prepared(e, INITIAL, 0, A, X);
    Prepared(e, Put(INITIAL, 0, Reading(FreshJob(A, X), 0)), 1, B, Y);
  }

  /** Both writers have computed from the empty state, and the first has committed version 1. */
  lemma FirstCommitted(e: Engine) returns (s: State)
    requires TakesBoth(e)
    ensures Reachable(e, s) && s.rows == map[(PK, 1) := FIRST] && |s.history| == 1 && s.applied.Keys == {(PK, "a")}
    ensures 1 in s.writers && s.writers[1] == Reading(FreshJob(B, Y), 0)
  {
    var s0 := Put(Put(INITIAL, 0, Reading(FreshJob(A, X), 0)), 1, Reading(FreshJob(B, Y), 0));
    BothComputed(e, s0);
    assert MayRead(s0, PK, None);
    Committed(e, s0, 0, A, X, None);
    s := After(s0, 0, FreshJob(A, X), 1);
    assert Ids([A]) == ["a"];
  }

  /** The second writer then reads version 1 and commits version 2. */
  lemma SecondCommitted(e: Engine) returns (s: State, c: Commit)
    requires TakesBoth(e)
    ensures Reachable(e, s) && c in s.history && c == Commit(1, FreshJob(B, Y), 0, 2)
    ensures (PK, 2) in s.rows && s.rows[(PK, 2)].state == Y && Previous(s, PK, 2) == Some(FIRST)
  {
    var t := FirstCommitted(e);
    assert t.rows[(PK, 1)] == FIRST && MayRead(t, PK, Some(FIRST));
    Committed(e, t, 1, B, Y, Some(FIRST));
    s := After(t, 1, FreshJob(B, Y), 2);
    c := s.history[1];
  }

  /** On its first attempt, and without any conflict, the second writer stores a state that is not the engine's
      result on the version before: the field the first writer stored is gone. */
  lemma UpdateIsLost(config: AsyncReplay.Configs) returns (s: State, c: Commit, before: Row, stored: Row)
    ensures Reachable(AsyncReplay.Reducing(config), s)
    ensures c in s.history && c.attempt == 0 && VersionOf(c.job.base) + 1 != c.version == before.version + 1
    ensures Previous(s, Pk(c), c.version) == Some(before) && (Pk(c), c.version) in s.rows &&
            s.rows[(Pk(c), c.version)] == stored
    ensures !StateReducer.Applies(before.state, AsyncReplay.Payloads(c.job.signals), config(Pk(c)), c.version,
                                  stored.state)
    ensures "x" in before.state && "x" !in stored.state
  {
    EngineTakesBoth(config);
    s, c := SecondCommitted(AsyncReplay.Reducing(config));
    before, stored := FIRST, s.rows[(PK, 2)];
    SecondState(config(PK));
  }

  // ----- The engine on these two payloads -----

  lemma ShortIsAllowed(k: string)
    requires |k| == 1
    ensures !Forbidden(k) && Base(k) && k != AGGREGATION && k !in [SKILLS, SKILL, MASTERY]
  {
    assert forall i | 0 <= i < |PII_KEYS| :: |PII_KEYS[i]| > 1;
    assert forall i | 0 <= i < |SEMANTIC_KEYS| :: |SEMANTIC_KEYS[i]| > 1;
  }

  lemma FirstApplies(config: Option<Aggregation.SubjectConfig>, k: string, m: Fields)
    requires m == map[k := Num(1.0)] && |k| == 1
    ensures StateReducer.Applies(map[], [Obj(m)], config, 1, m)
  {
    assert DeepMerge.Merge(map[], m) - {AGGREGATION} == m;
    ShortIsAllowed(k);
    StateReducer.PlainNewState(map[], m, config, 1, m);
    NothingBefore(m);
  }

  lemma FirstState(config: AsyncReplay.Configs, sig: Signal, k: string, m: Fields)
    requires sig.payload == Obj(m) && m == map[k := Num(1.0)] && |k| == 1
    ensures AsyncReplay.Reducing(config).reduces(PK, None, [sig], m) && AsyncReplay.Reducing(config).valid(m)
  {
    FirstApplies(config(PK), k, m);
    FirstIsClean(k, m);
    AsyncReplay.ReducingIs(config, PK, None, [sig], m);
    assert AsyncReplay.Payloads([sig]) == [Obj(m)];
  }

  lemma FirstIsClean(k: string, m: Fields)
    requires m == map[k := Num(1.0)] && |k| == 1
    ensures Clean(Obj(m))
  {
    ShortIsAllowed(k);
    forall j | j in m ensures j == k && m[j] == Num(1.0) {}
  }

  lemma EngineTakesBoth(config: AsyncReplay.Configs)
    ensures TakesBoth(AsyncReplay.Reducing(config))
  {
    FirstState(config, A, "x", X);
    FirstState(config, B, "y", Y);
  }

  lemma NothingBefore(m: Fields)
    ensures IsDeltas(map[], m, m)
  {
    forall q ensures At(m, q) == Flat(map[], m, q) {}
  }

  /** Over version 1 the engine would have kept its field. */
  lemma SecondState(config: Option<Aggregation.SubjectConfig>)
    ensures !StateReducer.Applies(X, AsyncReplay.Payloads([B]), config, 2, Y)
  {
    assert AsyncReplay.Payloads([B]) == [Obj(Y)];
    assert |SKILLS| > 1 && |SKILL| > 1;
    if next :| StateReducer.IsNewState(X, [Obj(Y)], config, 2, next) && IsDeltas(X, next, Y) {
      StateReducer.PlainNewState(X, Y, config, 2, next);
      KeepsX(next);
    }
  }

  lemma KeepsX(next: Fields)
    requires next == DeepMerge.Merge(X, Y) - {AGGREGATION}
    ensures !IsDeltas(X, next, Y)
  {
    ShortIsAllowed("x");
    assert At(next, "x") == Some(Num(1.0));
    assert Flat(X, next, "x") == At(next, "x") && At(Y, "x") == None;
  }
}
