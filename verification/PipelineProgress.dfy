/** A worker that nobody disturbs takes its signal from arrival to a decision. */
module PipelineProgress {
  import opened Json
  import opened Pipeline
  import Protocol
  import ProtocolProgress

  ghost predicate SoloRun(e: Protocol.Engine, i: nat, run: seq<State>) {
    run != [] && forall k | 0 <= k < |run| - 1 :: StepAt(e, i, run, k)
  }

  ghost predicate StepAt(e: Protocol.Engine, i: nat, run: seq<State>, k: int) {
    0 <= k < |run| - 1 && StepOf(e, run[k], run[k + 1], i)
  }

  ghost predicate Leads(e: Protocol.Engine, i: nat, s: State, t: State) {
    exists run :: SoloRun(e, i, run) && run[0] == s && run[|run| - 1] == t
  }

  lemma LeadsHere(e: Protocol.Engine, i: nat, s: State)
    ensures Leads(e, i, s, s)
  {
    assert SoloRun(e, i, [s]);
  }

  lemma LeadsOn(e: Protocol.Engine, i: nat, s: State, t: State, u: State)
    requires Leads(e, i, s, t) && StepOf(e, t, u, i)
    ensures Leads(e, i, s, u)
  {
    var run :| SoloRun(e, i, run) && run[0] == s && run[|run| - 1] == t;
    var longer := run + [u];
    forall k | 0 <= k < |longer| - 1 ensures StepAt(e, i, longer, k) {
      if k < |run| - 1 {
        assert StepAt(e, i, run, k);
      }
    }
    assert SoloRun(e, i, longer);
  }

  // ----- Claim, record, start -----

  lemma Arrives(e: Protocol.Engine, i: nat, s: State, env: Envelope)
    requires i !in s.workers
    ensures Leads(e, i, s, Put(s, i, Claiming(env)))
  {
    LeadsHere(e, i, s);
    assert ArriveStep(s, Put(s, i, Claiming(env)), i, env);
    LeadsOn(e, i, s, s, Put(s, i, Claiming(env)));
  }

  lemma PutTwice(s: State, i: nat, w: Worker, w': Worker)
    ensures Put(Put(s, i, w), i, w') == Put(s, i, w')
  {
    assert s.workers[i := w][i := w'] == s.workers[i := w'];
  }

  /** The state once the claim and the record are stored. */
  function Recording(s: State, env: Envelope): State {
    s.(claims := s.claims + {KeyOf(env)}, log := s.log[KeyOf(env) := env])
  }

  lemma Records(e: Protocol.Engine, i: nat, s: State, env: Envelope)
    requires i !in s.workers && KeyOf(env) !in s.claims && KeyOf(env) !in s.log
    ensures Leads(e, i, s, Put(Recording(s, env), i, Starting(env)))
  {
    var s1 := Put(s, i, Claiming(env));
    var claimed := s.(claims := s.claims + {KeyOf(env)});
    var s2, s3 := Put(claimed, i, Appending(env)), Put(Recording(s, env), i, Starting(env));
    Arrives(e, i, s, env);
    assert s2 == Put(s1.(claims := s1.claims + {KeyOf(env)}), i, Appending(env)) by {
      PutTwice(claimed, i, Claiming(env), Appending(env));
    }
    assert ClaimStep(s1, s2, i);
    LeadsOn(e, i, s, s1, s2);
    assert s3 == Put(s2.(log := s2.log[KeyOf(env) := env]), i, Starting(env)) by {
      PutTwice(Recording(s, env), i, Appending(env), Starting(env));
    }
    assert AppendStep(s2, s3, i);
    LeadsOn(e, i, s, s2, s3);
  }

  // ----- The state protocol inside -----

  /** The worker is about to have its writer apply the signal. */
  ghost predicate Engaged(s: State, i: nat, j: nat, env: Envelope) {
    i in s.workers && s.workers[i] == Applying(env, j) && j in s.proto.writers &&
    KeyOf(env) in s.log && s.log[KeyOf(env)] == env
  }

  lemma LiftStep(e: Protocol.Engine, s: State, i: nat, j: nat, env: Envelope, p: Protocol.State)
    requires Engaged(s, i, j, env) && Protocol.StepOf(e, s.proto, p, j)
    requires ProtocolProgress.Fetched(p, j, BatchOf(env))
    ensures ApplyStep(e, s, s.(proto := p), i) && Engaged(s.(proto := p), i, j, env)
  {
    assert Protocol.WriterStep(e, s.proto, p, j);
    StaysWriter(e, s.proto, p, j);
  }

  lemma StaysWriter(e: Protocol.Engine, p: Protocol.State, p': Protocol.State, j: nat)
    requires Protocol.WriterStep(e, p, p', j)
    ensures j in p'.writers
  {
  }

  /** What its writer can do alone the worker can, as long as the writer fetches the record from the log. */
  lemma {:induction false} Lifts(e: Protocol.Engine, s: State, i: nat, j: nat, env: Envelope, run: seq<Protocol.State>,
                                 k: nat)
    requires Engaged(s, i, j, env) && ProtocolProgress.SoloRun(e, j, BatchOf(env), run) && run[0] == s.proto &&
             k < |run|
    ensures Leads(e, i, s, s.(proto := run[k])) && Engaged(s.(proto := run[k]), i, j, env)
  {
    if k == 0 {
      LeadsHere(e, i, s);
      assert s.(proto := run[0]) == s;
    } else {
      Lifts(e, s, i, j, env, run, k - 1);
      var t, u := s.(proto := run[k - 1]), s.(proto := run[k]);
      SoloStep(e, j, BatchOf(env), run, k - 1);
      LiftStep(e, t, i, j, env, run[k]);
      assert t.(proto := run[k]) == u;
      LeadsOn(e, i, s, t, u);
    }
  }

  lemma SoloStep(e: Protocol.Engine, j: nat, fetched: seq<Protocol.Signal>, run: seq<Protocol.State>, k: nat)
    requires ProtocolProgress.SoloRun(e, j, fetched, run) && k + 1 < |run|
    ensures Protocol.StepOf(e, run[k], run[k + 1], j) && ProtocolProgress.Fetched(run[k + 1], j, fetched)
  {
    assert ProtocolProgress.StepAt(e, j, run, k);
    assert ProtocolProgress.FetchedAt(run, k + 1, j, fetched);
  }

  lemma LeadsFurther(e: Protocol.Engine, i: nat, s: State, t: State, u: State)
    requires Leads(e, i, s, t) && Leads(e, i, t, u)
    ensures Leads(e, i, s, u)
  {
    var a :| SoloRun(e, i, a) && a[0] == s && a[|a| - 1] == t;
    var b :| SoloRun(e, i, b) && b[0] == t && b[|b| - 1] == u;
    Concatenated(e, i, a, b);
    assert (a + b[1..])[|a + b[1..]| - 1] == u;
  }

  lemma Concatenated(e: Protocol.Engine, i: nat, a: seq<State>, b: seq<State>)
    requires SoloRun(e, i, a) && SoloRun(e, i, b) && a[|a| - 1] == b[0]
    ensures SoloRun(e, i, a + b[1..])
  {
    var run := a + b[1..];
    forall k | 0 <= k < |run| - 1 ensures StepAt(e, i, run, k) {
      if k < |a| - 1 {
        assert StepAt(e, i, a, k);
      } else {
        assert StepAt(e, i, b, k - |a| + 1);
      }
    }
  }

  lemma Starts(e: Protocol.Engine, i: nat, j: nat, s: State, env: Envelope) returns (t: State)
    requires i in s.workers && s.workers[i] == Starting(env) && j !in s.proto.writers
    requires KeyOf(env) in s.log && s.log[KeyOf(env)] == env
    ensures Leads(e, i, s, t) && Engaged(t, i, j, env) && ProtocolProgress.Started(t.proto, j, RequestFor(env))
    ensures t == Put(s, i, Applying(env, j)).(proto := Protocol.Put(s.proto, j,
                                                                    Protocol.Checking(RequestFor(env), map[])))
  {
    var p := Protocol.Put(s.proto, j, Protocol.Checking(RequestFor(env), map[]));
    t := Put(s.(proto := p), i, Applying(env, j));
    assert Protocol.StartStep(s.proto, p, j, RequestFor(env));
    assert StartStep(s, t, i, j);
    LeadsHere(e, i, s);
    LeadsOn(e, i, s, s, t);
  }

  lemma OneUnrecorded(applied: map<(string, string), nat>, pk: string, id: string)
    requires (pk, id) !in applied
    ensures ProtocolProgress.Unrecorded(applied, pk, [id]) == [id]
  {
    assert [id][1..] == [];
  }

  /** The state protocol applies the worker's signal. */
  lemma Applies(e: Protocol.Engine, i: nat, j: nat, s: State, env: Envelope, r: Option<Protocol.Row>, state: Fields)
      returns (p: Protocol.State)
    requires Engaged(s, i, j, env) && ProtocolProgress.Started(s.proto, j, RequestFor(env))
    requires ProtocolProgress.IsCurrent(s.proto, RequestFor(env).pk, r) &&
             (RequestFor(env).pk, env.id) !in s.proto.applied
    requires e.reduces(RequestFor(env).pk, r, BatchOf(env), state) && e.valid(state)
    ensures Leads(e, i, s, s.(proto := p))
    ensures ProtocolProgress.StoredAs(s.proto, p, j, RequestFor(env), Protocol.VersionOf(r), Protocol.VersionOf(r) + 1,
                                      state, [env.id])
  {
    var req, batch := RequestFor(env), BatchOf(env);
    OneUnrecorded(s.proto.applied, req.pk, env.id);
    assert Protocol.Ids(batch) == [env.id];
    p := ProtocolProgress.AppliesStarted(e, j, s.proto, req, batch, batch, r, state);
    var run :| ProtocolProgress.SoloRun(e, j, batch, run) && run[0] == s.proto && run[|run| - 1] == p;
    Lifts(e, s, i, j, env, run, |run| - 1);
  }

  // ----- The decision -----

  lemma Decides(e: Protocol.Engine, i: nat, s: State, env: Envelope, version: nat, row: Protocol.Row)
    requires i in s.workers && s.workers[i] == Deciding(env, version) && row.version == version
    requires (RequestFor(env).pk, version) in s.proto.rows && s.proto.rows[(RequestFor(env).pk, version)] == row
    ensures Leads(e, i, s, Put(s.(decisions := s.decisions + [Decided(i, env, row)]), i, Finished(env, true)))
  {
    var t := Put(s.(decisions := s.decisions + [Decided(i, env, row)]), i, Finished(env, true));
    assert Protocol.MayRead(s.proto, RequestFor(env).pk, Some(row));
    assert DecideStep(s, t, i, Some(row));
    LeadsHere(e, i, s);
    LeadsOn(e, i, s, s, t);
  }

  lemma Returns(e: Protocol.Engine, i: nat, j: nat, s: State, env: Envelope, prior: nat, version: nat, ids: seq<string>)
    requires i in s.workers && s.workers[i] == Applying(env, j) && j in s.proto.writers
    requires s.proto.writers[j] == Protocol.Returned(RequestFor(env), Protocol.Applied(prior, version, ids))
    ensures Leads(e, i, s, Put(s, i, Deciding(env, version)))
  {
    assert AppliedStep(s, Put(s, i, Deciding(env, version)), i);
    LeadsHere(e, i, s);
    LeadsOn(e, i, s, s, Put(s, i, Deciding(env, version)));
  }

  /** What is there when the worker is done: its claim, its record, the new version with its entry, and its decision. */
  ghost predicate Done(s: State, t: State, i: nat, env: Envelope, v: nat, state: Fields) {
    var pk, row := RequestFor(env).pk, Protocol.Row(v, state, env.id);
    t.claims == s.claims + {KeyOf(env)} && t.log == s.log[KeyOf(env) := env] &&
    t.proto.rows == s.proto.rows[(pk, v) := row] && t.proto.applied == s.proto.applied[(pk, env.id) := v] &&
    t.decisions == s.decisions + [Decided(i, env, row)] && t.workers == s.workers[i := Finished(env, true)]
  }

  /** From start to decision. */
  lemma Serves(e: Protocol.Engine, i: nat, j: nat, s: State, env: Envelope, r: Option<Protocol.Row>, state: Fields)
      returns (t: State)
    requires i in s.workers && s.workers[i] == Starting(env) && j !in s.proto.writers
    requires KeyOf(env) in s.log && s.log[KeyOf(env)] == env
    requires ProtocolProgress.IsCurrent(s.proto, RequestFor(env).pk, r) &&
             (RequestFor(env).pk, env.id) !in s.proto.applied
    requires e.reduces(RequestFor(env).pk, r, BatchOf(env), state) && e.valid(state)
    ensures Leads(e, i, s, t) && t.claims == s.claims && t.log == s.log
    ensures var pk, v := RequestFor(env).pk, Protocol.VersionOf(r) + 1;
            var row := Protocol.Row(v, state, env.id);
            t.proto.rows == s.proto.rows[(pk, v) := row] && t.proto.applied == s.proto.applied[(pk, env.id) := v] &&
            t.decisions == s.decisions + [Decided(i, env, row)] && t.workers == s.workers[i := Finished(env, true)]
  {
    var pk, v := RequestFor(env).pk, Protocol.VersionOf(r) + 1;
    var row := Protocol.Row(v, state, env.id);
    var u := Starts(e, i, j, s, env);
    var p := Applies(e, i, j, u, env, r, state);
    var a := u.(proto := p);
    LeadsFurther(e, i, s, u, a);
    Returns(e, i, j, a, env, Protocol.VersionOf(r), v, [env.id]);
    var d := Put(a, i, Deciding(env, v));
    LeadsFurther(e, i, s, a, d);
    Decides(e, i, d, env, v, row);
    t := Put(d.(decisions := d.decisions + [Decided(i, env, row)]), i, Finished(env, true));
    LeadsFurther(e, i, s, d, t);
    OneEntry(s.proto.applied, pk, env.id, v);
    assert t.workers == s.workers[i := Finished(env, true)];
  }

  lemma OneEntry(applied: map<(string, string), nat>, pk: string, id: string, v: nat)
    ensures applied + (map x | x in [id] :: (pk, x) := v) == applied[(pk, id) := v]
  {
  }

  /** Progress: a signal that is new to claims, log and table, whose state is valid, is claimed, logged, applied as the
      version after the current one, and decided upon, if its worker is left to go on. */
  lemma DecidesAlone(e: Protocol.Engine, i: nat, j: nat, s: State, env: Envelope, r: Option<Protocol.Row>,
                     state: Fields)
      returns (t: State)
    requires i !in s.workers && j !in s.proto.writers && KeyOf(env) !in s.claims && KeyOf(env) !in s.log
    requires ProtocolProgress.IsCurrent(s.proto, RequestFor(env).pk, r) &&
             (RequestFor(env).pk, env.id) !in s.proto.applied
    requires e.reduces(RequestFor(env).pk, r, BatchOf(env), state) && e.valid(state)
    ensures Leads(e, i, s, t) && Done(s, t, i, env, Protocol.VersionOf(r) + 1, state)
  {
    var u := Put(Recording(s, env), i, Starting(env));
    Records(e, i, s, env);
    t := Serves(e, i, j, u, env, r, state);
    LeadsFurther(e, i, s, u, t);
    assert u.workers[i := Finished(env, true)] == s.workers[i := Finished(env, true)];
  }
}
