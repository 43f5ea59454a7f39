/** The synchronous ingestion of one signal: claim, log, apply, decide. */
module Ingestion {
  import opened Json
  import opened ForbiddenKeys
  import SignalLog
  import opened StateStore
  import opened Replay
  import StateEngine
  import DecisionEngine
  import Policy
  import FieldMappings
  import SharedObjects
  import SharedText
  import Text

  type Key = (string, string)

  datatype Checked = Checked(isDuplicate: bool, receivedAt: string)

  class SqliteIdempotencyRepository {
    var received: map<Key, string>

    constructor ()
      ensures received == map[]
    {
      received := map[];
    }

    /** INSERT OR IGNORE, and for a key that was there already the time it was first received. */
    method CheckAndStore(key: Key, now: string) returns (r: Checked)
      modifies this
      ensures r.isDuplicate <==> key in old(received)
      ensures received == if key in old(received) then old(received) else old(received)[key := now]
      ensures key in received && r.receivedAt == received[key]
    {
      if key !in received {
        received := received[key := now];
        return Checked(false, now);
      }
      r := Checked(true, received[key]);
    }
  }

  /** An envelope that passed the envelope check; `schoolId` is from its metadata. */
  datatype Envelope = Envelope(org: string, id: string, learner: string, payload: Json, schoolId: string)

  /** `Threw`: the normalised payload cannot be written out for the log. */
  datatype Result = Rejected | Duplicate(receivedAt: string) | Threw | Accepted(receivedAt: string)

  /** A text member of the payload; anything else counts as absent. */
  function TextMember(payload: Json, k: string): string {
    if payload.Obj? && k in payload.fields && payload.fields[k].Str? then payload.fields[k].s else ""
  }

  function ContextFrom(payload: Json, schoolId: string): Fields {
    DecisionEngine.ContextOf(
      DecisionEngine.SignalContext(TextMember(payload, "skill"), TextMember(payload, "assessment_type"), schoolId))
  }

  /** The payload a signal goes on with: free of forbidden keys, and normalised. */
  function Goes<N>(nums: FieldMappings.Numbers<N>, mapping: Option<FieldMappings.Mapping>,
                   payload: Json): Option<SharedObjects.Heap> {
    if Clean(payload) then FieldMappings.Normal(nums, mapping, payload) else None
  }

  /** What is written to the log of it. */
  function LogText<N>(nums: FieldMappings.Numbers<N>, mapping: Option<FieldMappings.Mapping>,
                      payload: Json): Option<Json> {
    var h := Goes(nums, mapping, payload);
    if h.Some? then SharedText.Text(h.value, FieldMappings.TOP, {}) else None
  }

  function KeyOf(env: Envelope): Key {
    (env.org, env.id)
  }

  ghost predicate LogClaimed(log: seq<SignalLog.Signal>, received: map<Key, string>) {
    forall x | x in log :: (x.org, x.id) in received
  }

  class Handler<!N> {
    const idempotency: SqliteIdempotencyRepository
    const engine: StateEngine.Engine
    const decider: DecisionEngine.DecisionEngine
    const nums: FieldMappings.Numbers<N>

    ghost predicate Valid()
      reads idempotency, engine, engine.stateStore, engine.signalLog, decider
    {
      engine.Valid() && decider.stateStore == engine.stateStore &&
      LogClaimed(engine.signalLog.log, idempotency.received) && OwnSignals(engine.history) &&
      |decider.decisions| <= |idempotency.received|
    }

    constructor (config: string -> Config, num: Policy.ToNumber, nums: FieldMappings.Numbers<N>)
      ensures Valid()
    {
      var e := new StateEngine.Engine(config);
      engine := e;
      idempotency := new SqliteIdempotencyRepository();
      decider := new DecisionEngine.DecisionEngine(e.stateStore, num);
      this.nums := nums;
    }

    method Append(signal: SignalLog.Signal)
      requires engine.Valid() && !SignalLog.Has(engine.signalLog.log, signal.org, signal.id)
      modifies engine.signalLog
      ensures engine.Valid() && engine.signalLog.log == old(engine.signalLog.log) + [signal]
    {
      LongerLog(engine.Now(), engine.history, engine.config, signal);
      var appended := engine.signalLog.AppendSignal(signal);
    }

    /** Applies one new signal of the log. There is something to apply, so the engine never answers that there
        is nothing. */
    method Apply(signal: SignalLog.Signal, now: string) returns (applied: StateEngine.Outcome)
      requires engine.Valid() && engine.signalLog.log != [] &&
               engine.signalLog.log[|engine.signalLog.log| - 1] == signal
      requires (Learner(signal.org, signal.learner), signal.id) !in engine.stateStore.applied
      modifies engine, engine.stateStore
      ensures engine.Valid() && engine.signalLog.log == old(engine.signalLog.log) && !applied.Nothing?
      ensures !applied.Applied? ==>
                engine.history == old(engine.history) &&
                !Welcome(old(engine.Now()), old(engine.history), engine.config, signal)
      ensures applied.Applied? ==>
                Text.Trim(signal.org) != "" && Text.Trim(signal.learner) != "" &&
                Applied(old(engine.history), engine.history, signal, applied.stateId, applied.version) &&
                Current(engine.stateStore.rows, Learner(signal.org, signal.learner)) ==
                Some(engine.history[|old(engine.history)|].row)
    {
      var l := Learner(signal.org, signal.learner);
      ghost var h := engine.history;
      ghost var t := engine.Now();
      applied := engine.ApplySignals(StateEngine.Request(l, [signal.id]), now);
      StateEngine.ToApplyOne(signal.id, t.applied, l);
      if Welcome(t, h, engine.config, signal) {
        StateEngine.CleanBatchOutcome(t, h, engine.history, engine.config, StateEngine.Request(l, [signal.id]),
                                      applied);
      }
      if applied.Applied? {
        ghost var c := engine.history[|h|];
        OneMore(h, engine.history);
        NewBatch(engine.signalLog.log, signal);
        LastIsCurrent(h, c, l, engine.config, engine.stateStore.rows);
      }
    }

    /** Judges the learner's current version, which is the one just stored. */
    method Decide(signal: SignalLog.Signal, stateId: string, version: nat, schoolId: string,
                  policy: Option<DecisionEngine.Definition>, decisionId: string, now: string, ghost row: Row)
      requires Text.Trim(signal.org) != "" && Text.Trim(signal.learner) != ""
      requires Current(decider.stateStore.rows, Learner(signal.org, signal.learner)) == Some(row)
      requires row.stateId == stateId && row.version == version
      modifies decider
      ensures Judged(old(decider.decisions), decider.decisions, row, decider.num, policy,
                     ContextFrom(signal.payload, schoolId))
    {
      var context := DecisionEngine.SignalContext(
        TextMember(signal.payload, "skill"), TextMember(signal.payload, "assessment_type"), schoolId);
      DecisionEngine.ContextIsClean(context);
      var request := DecisionEngine.Request(Learner(signal.org, signal.learner), stateId, version, context);
      var decided := decider.EvaluateState(request, policy, decisionId, now);
      DecisionEngine.DecidedExactly(decider.num, row, request, policy, decided);
    }

    /** Log, apply, decide: the signal alone makes up the batch of the new version, and a decision follows
        from the row that was just stored. */
    method Process(signal: SignalLog.Signal, schoolId: string, policy: Option<DecisionEngine.Definition>,
                   decisionId: string, now: string)
      requires engine.Valid() && decider.stateStore == engine.stateStore
      requires !SignalLog.Has(engine.signalLog.log, signal.org, signal.id)
      modifies engine, engine.stateStore, engine.signalLog, decider
      ensures engine.Valid() && engine.signalLog.log == old(engine.signalLog.log) + [signal]
      ensures Processed(old(engine.Now()), engine.config, old(engine.history), engine.history, old(decider.decisions),
                        decider.decisions, signal, decider.num, policy,
                        ContextFrom(signal.payload, schoolId))
    {
      NotAppliedYet(engine.Now(), engine.history, engine.config, signal);
      Append(signal);
      var applied := Apply(signal, now);
      if applied.Applied? {
        ghost var h := old(engine.history);
        Decide(signal, applied.stateId, applied.version, schoolId, policy, decisionId, now, engine.history[|h|].row);
      }
    }

    ghost predicate Unchanged(received: map<Key, string>, t: StateEngine.Tables, h: seq<Commit>,
                              d: seq<DecisionEngine.Kept>)
      reads idempotency, engine, engine.stateStore, engine.signalLog, decider
    {
      idempotency.received == received && engine.Now() == t && engine.history == h && decider.decisions == d
    }

    /** Log, apply and decide for a signal whose claim has just been stored. */
    method Proceed(env: Envelope, payload: Json, receivedAt: string, policy: Option<DecisionEngine.Definition>,
                   decisionId: string, now: string)
      requires Valid() && KeyOf(env) in idempotency.received && |decider.decisions| < |idempotency.received|
      requires !SignalLog.Has(engine.signalLog.log, env.org, env.id)
      modifies engine, engine.stateStore, engine.signalLog, decider
      ensures Valid()
      ensures var signal := SignalLog.Signal(env.org, env.learner, env.id, payload, receivedAt);
              engine.signalLog.log == old(engine.signalLog.log) + [signal] &&
              Processed(old(engine.Now()), engine.config, old(engine.history), engine.history, old(decider.decisions),
                        decider.decisions, signal, decider.num, policy,
                        ContextFrom(payload, env.schoolId))
    {
      ghost var t, h, d := engine.Now(), engine.history, decider.decisions;
      var signal := SignalLog.Signal(env.org, env.learner, env.id, payload, receivedAt);
      Process(signal, env.schoolId, policy, decisionId, now);
      ProcessedKeeps(t, engine.config, h, engine.history, d, decider.decisions, signal, decider.num, policy,
                     ContextFrom(payload, env.schoolId));
    }

    /** The claim, with everything else as it was. */
    method Claim(key: Key, now: string) returns (claim: Checked)
      requires Valid()
      modifies idempotency
      ensures Valid() && (claim.isDuplicate <==> key in old(idempotency.received))
      ensures idempotency.received == if claim.isDuplicate then old(idempotency.received)
              else old(idempotency.received)[key := now]
      ensures claim.receivedAt == if claim.isDuplicate then old(idempotency.received)[key] else now
      ensures !claim.isDuplicate ==>
                |decider.decisions| < |idempotency.received| && !SignalLog.Has(engine.signalLog.log, key.0, key.1)
    {
      ghost var received := idempotency.received;
      if key !in received {
        NotLogged(engine.signalLog.log, received, key);
        MoreClaims(received, key, now);
      }
      claim := idempotency.CheckAndStore(key, now);
    }

    method Handle(env: Envelope, mapping: Option<FieldMappings.Mapping>, policy: Option<DecisionEngine.Definition>,
                  decisionId: string, now: string) returns (r: Result)
      requires Valid()
      modifies idempotency, engine, engine.stateStore, engine.signalLog, decider
      ensures Valid()
      ensures r.Rejected? <==> Goes(nums, mapping, env.payload).None?
      ensures r.Duplicate? <==> Goes(nums, mapping, env.payload).Some? && KeyOf(env) in old(idempotency.received)
      ensures r.Threw? <==> Goes(nums, mapping, env.payload).Some? && KeyOf(env) !in old(idempotency.received) &&
                            LogText(nums, mapping, env.payload).None?
      ensures r.Rejected? || r.Duplicate? ==>
                Unchanged(old(idempotency.received), old(engine.Now()), old(engine.history), old(decider.decisions))
      ensures r.Duplicate? ==> r.receivedAt == old(idempotency.received)[KeyOf(env)]
      ensures r.Threw? ==>
                Unchanged(old(idempotency.received)[KeyOf(env) := now], old(engine.Now()), old(engine.history),
                          old(decider.decisions))
      ensures r.Accepted? ==>
                var payload := LogText(nums, mapping, env.payload).value;
                var signal := SignalLog.Signal(env.org, env.learner, env.id, payload, now);
                idempotency.received == old(idempotency.received)[KeyOf(env) := now] &&
                engine.signalLog.log == old(engine.signalLog.log) + [signal] &&
                Processed(old(engine.Now()), engine.config, old(engine.history), engine.history, old(decider.decisions),
                        decider.decisions, signal, decider.num, policy,
                          ContextFrom(payload, env.schoolId))
    {
      var forbidden := DetectForbiddenKeys(env.payload, "payload");
      if forbidden.Some? {
        return Rejected;
      }
      var normalized := FieldMappings.NormalizeAndValidate(nums, mapping, env.payload);
      if normalized.Rejected? {
        return Rejected;
      }
      var claim := Claim(KeyOf(env), now);
      if claim.isDuplicate {
        return Duplicate(claim.receivedAt);
      }
      var text := SharedText.Text(normalized.payload, FieldMappings.TOP, {});
      if text.None? {
        return Threw;
      }
      Proceed(env, text.value, claim.receivedAt, policy, decisionId, now);
      r := Accepted(claim.receivedAt);
    }
  }

  lemma MoreClaims(received: map<Key, string>, key: Key, now: string)
    requires key !in received
    ensures |received[key := now]| == |received| + 1
  {
  }

  /** The decision's context is taken from the payload as it was logged, and from the envelope. */
  lemma ContextByKey(payload: Fields, schoolId: string)
    ensures forall s | At(payload, "skill") == Some(Str(s)) && s != "" ::
              At(ContextFrom(Obj(payload), schoolId), "skill") == Some(Str(s))
    ensures forall s | At(payload, "assessment_type") == Some(Str(s)) && s != "" ::
              At(ContextFrom(Obj(payload), schoolId), "assessment_type") == Some(Str(s))
    ensures schoolId != "" ==> At(ContextFrom(Obj(payload), schoolId), "school_id") == Some(Str(schoolId))
  {
    DecisionEngine.ContextMeans(DecisionEngine.SignalContext(
      TextMember(Obj(payload), "skill"), TextMember(Obj(payload), "assessment_type"), schoolId));
  }

  lemma {:induction false} OfIsPart(h: seq<Commit>, l: Learner, c: Commit)
    requires c in Of(h, l)
    ensures c in h && c.row.learner == l
  {
    var n := |h| - 1;
    if c in Of(h[..n], l) {
      OfIsPart(h[..n], l, c);
    }
  }

  /** Every batch is made of records of the learner it was applied to. */
  ghost predicate OwnSignals(h: seq<Commit>) {
    forall i, x | 0 <= i < |h| && x in h[i].batch :: x.learner == h[i].row.learner.ref
  }

  /** Every applied signal is logged under its organisation, and under its learner as long as every batch so
      far was made of its learner's own records, which ingestion keeps. */
  lemma AppliedIsLogged(t: StateEngine.Tables, h: seq<Commit>, config: string -> Config, l: Learner, id: string)
      returns (x: SignalLog.Signal)
    requires StateEngine.Coherent(t, h, config) && (l, id) in t.applied
    ensures x in t.log && x.org == l.org && x.id == id && (OwnSignals(h) ==> x.learner == l.ref)
  {
    x := RecordedIsLogged(t.log, h, l, id, t.applied[(l, id)]);
  }

  lemma RecordedIsLogged(log: seq<SignalLog.Signal>, h: seq<Commit>, l: Learner, id: string, v: nat)
      returns (x: SignalLog.Signal)
    requires StateEngine.Logged(log, h) && RecordedAt(Of(h, l), id, v)
    ensures x in log && x.org == l.org && x.id == id && (OwnSignals(h) ==> x.learner == l.ref)
  {
    var c := Of(h, l)[v - 1];
    x :| x in c.batch && x.id == id;
    OfIsPart(h, l, c);
  }

  lemma NotAppliedYet(t: StateEngine.Tables, h: seq<Commit>, config: string -> Config, x: SignalLog.Signal)
    requires StateEngine.Coherent(t, h, config) && !SignalLog.Has(t.log, x.org, x.id)
    ensures (Learner(x.org, x.learner), x.id) !in t.applied
  {
    if (Learner(x.org, x.learner), x.id) in t.applied {
      var y := AppliedIsLogged(t, h, config, Learner(x.org, x.learner), x.id);
    }
  }

  lemma NotLogged(log: seq<SignalLog.Signal>, received: map<Key, string>, key: Key)
    requires LogClaimed(log, received) && key !in received
    ensures !SignalLog.Has(log, key.0, key.1)
  {
  }

  lemma ProcessedKeeps(t: StateEngine.Tables, config: string -> Config, h: seq<Commit>, h': seq<Commit>,
                       d: seq<DecisionEngine.Kept>, d': seq<DecisionEngine.Kept>, signal: SignalLog.Signal,
                       num: Policy.ToNumber, policy: Option<DecisionEngine.Definition>, context: Fields)
    requires Processed(t, config, h, h', d, d', signal, num, policy, context)
    ensures |d'| <= |d| + 1 && (OwnSignals(h) ==> OwnSignals(h'))
  {
    if h' != h {
      assert h' == h + [h'[|h|]];
    }
  }

  lemma LongerLog(t: StateEngine.Tables, h: seq<Commit>, config: string -> Config, x: SignalLog.Signal)
    requires StateEngine.Coherent(t, h, config)
    ensures StateEngine.Coherent(t.(log := t.log + [x]), h, config)
  {
  }

  /** The records selected by the new signal's id are that signal alone. */
  lemma NewBatch(log: seq<SignalLog.Signal>, signal: SignalLog.Signal)
    requires SignalLog.Unique(log) && log != [] && log[|log| - 1] == signal
    ensures SignalLog.Selected(log, signal.org, [signal.id]) == [signal]
  {
    SignalLog.SelectedHolds(log, signal.org, [signal.id]);
    OnlyOne(SignalLog.Selected(log, signal.org, [signal.id]), signal);
  }

  lemma OneMore(h: seq<Commit>, h': seq<Commit>)
    requires |h'| == |h| + 1 && h'[..|h|] == h
    ensures h' == h + [h'[|h|]]
  {
  }

  lemma OtherId(s: seq<SignalLog.Signal>, x: SignalLog.Signal)
    requires SignalLog.DistinctIds(s) && |s| > 1
    ensures exists y :: y in s && y.id != x.id
  {
    assert s[0] in s && s[1] in s && s[0].id != s[1].id;
  }

  lemma OnlyOne(s: seq<SignalLog.Signal>, x: SignalLog.Signal)
    requires SignalLog.DistinctIds(s) && x in s && forall y | y in s :: y.id == x.id
    ensures s == [x]
  {
    if |s| > 1 {
      OtherId(s, x);
    }
  }

  lemma LastIsCurrent(h: seq<Commit>, c: Commit, l: Learner, config: string -> Config, rows: seq<Row>)
    requires LearnersOk(h + [c], config) && rows == Rows(h + [c]) && c.row.learner == l
    ensures Current(rows, l) == Some(c.row)
  {
    OfAppend(h, c, l);
    CurrentIsLast(h + [c], l, config(l.org));
  }

  /** The history has one commit more, of this signal, for its learner. */
  ghost predicate Applied(h: seq<Commit>, h': seq<Commit>, signal: SignalLog.Signal, stateId: string, version: nat) {
    |h'| == |h| + 1 && h'[..|h|] == h && h'[|h|].batch == [signal] &&
    h'[|h|].row.learner == Learner(signal.org, signal.learner) &&
    h'[|h|].row.stateId == stateId && h'[|h|].row.version == version
  }

  function WithSignal(t: StateEngine.Tables, signal: SignalLog.Signal): StateEngine.Tables {
    t.(log := t.log + [signal])
  }

  /** Nothing speaks against applying the signal, once it is in the log: the names of the request are not blank,
      the state it makes is clean, and the identifier of the learner's next version is free. */
  ghost predicate Welcome(t: StateEngine.Tables, h: seq<Commit>, config: string -> Config, signal: SignalLog.Signal) {
    var l := Learner(signal.org, signal.learner);
    StateEngine.ValidRequest(StateEngine.Request(l, [signal.id])) &&
    StateEngine.CleanBatch(t.log, Of(h, l), l, [signal.id], config(l.org)) &&
    !StateEngine.StateIdTaken(t.rows, l, |Of(h, l)| + 1)
  }

  /** What judging the version just stored leaves behind: a decision exactly when the policy speaks. */
  ghost predicate Judged(d: seq<DecisionEngine.Kept>, d': seq<DecisionEngine.Kept>, row: Row, num: Policy.ToNumber,
                         policy: Option<DecisionEngine.Definition>, context: Fields)
  {
    if DecisionEngine.Speaks(num, policy, row.state)
    then |d'| == |d| + 1 && d'[..|d|] == d && DecisionEngine.FollowsFromSome(num, row, policy.value, context, d'[|d|])
    else d' == d
  }

  /** What processing a new signal leaves behind: a welcome one is applied, and what is applied is judged. */
  ghost predicate Processed(t: StateEngine.Tables, config: string -> Config, h: seq<Commit>, h': seq<Commit>,
                            d: seq<DecisionEngine.Kept>, d': seq<DecisionEngine.Kept>, signal: SignalLog.Signal,
                            num: Policy.ToNumber, policy: Option<DecisionEngine.Definition>, context: Fields)
  {
    if h' == h then !Welcome(WithSignal(t, signal), h, config, signal) && d' == d
    else
      |h'| == |h| + 1 && h'[..|h|] == h && h'[|h|].batch == [signal] &&
      h'[|h|].row.learner == Learner(signal.org, signal.learner) && Judged(d, d', h'[|h|].row, num, policy, context)
  }
}
