/** The synchronous engine: one call of `applySignals` over the state store and the signal log. */
module StateEngine {
  import opened Json
  import opened ForbiddenKeys
  import opened SignalLog
  import opened StateStore
  import opened Replay
  import opened StateIds
  import Text
  import Evidence
  import Aggregation
  import StateReducer

  datatype Request = Request(learner: Learner, ids: seq<string>)

  datatype Failure = InvalidRequest | UnknownSignalId | SignalsNotInOrgScope | InvalidState | VersionConflict

  datatype Outcome =
    | Nothing(version: nat)
    | Applied(prior: nat, version: nat, stateId: string, ids: seq<string>)
    | Rejected(failure: Failure)

  const MAX_RETRIES: nat := 2

  predicate ValidRequest(r: Request) {
    Text.Trim(r.learner.org) != "" && Text.Trim(r.learner.ref) != "" && r.ids != []
  }

  /** Blank names and empty batches are refused. */
  lemma ValidExactly(r: Request)
    ensures ValidRequest(r) <==> !Text.Blank(r.learner.org) && !Text.Blank(r.learner.ref) && r.ids != []
  {
    Text.BlankExactly(r.learner.org);
    Text.BlankExactly(r.learner.ref);
  }

  /** The ids not applied yet, in request order. */
  function ToApply(ids: seq<string>, applied: AppliedTable, l: Learner): seq<string> {
    if ids == [] then []
    else ToApply(ids[..|ids| - 1], applied, l) + if (l, ids[|ids| - 1]) in applied then [] else [ids[|ids| - 1]]
  }

  /** Request order is kept. */
  lemma {:induction false} ToApplyAppend(a: seq<string>, b: seq<string>, applied: AppliedTable, l: Learner)
    ensures ToApply(a + b, applied, l) == ToApply(a, applied, l) + ToApply(b, applied, l)
  {
    if b == [] {
      assert a + b == a;
    } else {
      assert (a + b)[..|a + b| - 1] == a + b[..|b| - 1];
      ToApplyAppend(a, b[..|b| - 1], applied, l);
    }
  }

  lemma ToApplyOne(id: string, applied: AppliedTable, l: Learner)
    ensures ToApply([id], applied, l) == if (l, id) in applied then [] else [id]
  {
    assert ToApply([id][..0], applied, l) == [];
  }

  lemma {:induction false} ToApplyHolds(ids: seq<string>, applied: AppliedTable, l: Learner)
    ensures forall id :: id in ToApply(ids, applied, l) <==> id in ids && (l, id) !in applied
  {
    if ids != [] {
      ToApplyHolds(ids[..|ids| - 1], applied, l);
      assert ids == ids[..|ids| - 1] + [ids[|ids| - 1]];
    }
  }

  function StateIn(r: Option<Row>): Fields {
    match r case None => map[] case Some(row) => row.state
  }

  function VersionIn(r: Option<Row>): nat {
    match r case None => 0 case Some(row) => row.version
  }

  ghost predicate Taken(rows: seq<Row>, stateId: string) {
    exists r :: r in rows && r.stateId == stateId
  }

  /** Another learner's version already has the identifier of the learner's next one. */
  ghost predicate StateIdTaken(rows: seq<Row>, l: Learner, version: nat) {
    Taken(rows, FormatStateId(l.org, l.ref, version))
  }

  /** Nothing about the batch gives cause to reject it. */
  ghost predicate CleanBatch(log: seq<Signal>, c: seq<Commit>, l: Learner, toApply: seq<string>, config: Config) {
    var payloads := Payloads(Selected(log, l.org, toApply));
    (forall id | id in toApply :: Has(log, l.org, id)) && (forall p | p in payloads :: Clean(p)) &&
    StateReducer.SkillNamesAllowed(payloads) &&
    StateReducer.SubjectNamesAllowed(
      Aggregation.Table(Evidence.Object(StateReducer.Reduced(StateBefore(c, |c|), payloads), Evidence.SKILLS), config))
  }

  /** The batch goes into one new version, the next one of the learner. */
  ghost predicate Extends(h: seq<Commit>, h': seq<Commit>, log: seq<Signal>, l: Learner, toApply: seq<string>,
                          outcome: Outcome) {
    outcome.Applied? && |h'| == |h| + 1 && h'[..|h|] == h &&
    var c := h'[|h|];
    c.row.learner == l && c.batch == Selected(log, l.org, toApply) && HasStateId(c.row) &&
    outcome == Applied(|Of(h, l)|, c.row.version, c.row.stateId, toApply) && c.row.version == |Of(h, l)| + 1
  }

  /** What the tables hold before a call. */
  datatype Tables = Tables(rows: seq<Row>, applied: AppliedTable, log: seq<Signal>)

  /** Which outcome a call has, and what it leaves of the history `h`. */
  ghost predicate Answers(t: Tables, h: seq<Commit>, h': seq<Commit>, config: string -> Config, r: Request,
                          outcome: Outcome) {
    var l := r.learner;
    var toApply := ToApply(r.ids, t.applied, l);
    (outcome != Rejected(InvalidRequest) <==> ValidRequest(r)) && (!outcome.Applied? ==> h' == h) &&
    match outcome
    case Rejected(InvalidRequest) => true
    case Nothing(version) => toApply == [] && version == |Of(h, l)|
    case Rejected(UnknownSignalId) => toApply != [] && IsLookup(t.log, l.org, toApply, Unknown)
    case Rejected(SignalsNotInOrgScope) => toApply != [] && IsLookup(t.log, l.org, toApply, OutOfScope)
    case Rejected(InvalidState) => toApply != [] && !CleanBatch(t.log, Of(h, l), l, toApply, config(l.org))
    case Rejected(VersionConflict) => toApply != [] && StateIdTaken(t.rows, l, |Of(h, l)| + 1)
    case Applied(_, _, _, _) =>
      toApply != [] && Extends(h, h', t.log, l, toApply, outcome) && !StateIdTaken(t.rows, l, |Of(h, l)| + 1)
  }

  lemma LoggedIsFound(log: seq<Signal>, org: string, ids: seq<string>)
    requires forall id | id in ids :: Has(log, org, id)
    ensures !IsLookup(log, org, ids, Unknown) && !IsLookup(log, org, ids, OutOfScope)
  {
    forall id | id in ids ensures Anywhere(log, id) {
      var i :| 0 <= i < |log| && log[i].org == org && log[i].id == id;
    }
  }

  /** A valid request for something new and clean is applied if and only if the next identifier is free, and is
      otherwise reported as a version conflict. */
  lemma CleanBatchOutcome(t: Tables, h: seq<Commit>, h': seq<Commit>, config: string -> Config, r: Request,
                          outcome: Outcome)
    requires Answers(t, h, h', config, r, outcome) && ValidRequest(r)
    requires var toApply := ToApply(r.ids, t.applied, r.learner);
             toApply != [] && CleanBatch(t.log, Of(h, r.learner), r.learner, toApply, config(r.learner.org))
    ensures var taken := StateIdTaken(t.rows, r.learner, |Of(h, r.learner)| + 1);
            (outcome.Applied? <==> !taken) && (outcome == Rejected(VersionConflict) <==> taken)
  {
    LoggedIsFound(t.log, r.learner.org, ToApply(r.ids, t.applied, r.learner));
    match outcome
    case Nothing(_) =>
    case Applied(_, _, _, _) =>
    case Rejected(_) =>
  }

  ghost predicate Coherent(t: Tables, h: seq<Commit>, config: string -> Config) {
    Good(t.rows, t.applied, h, config) && Logged(t.log, h) && Identified(t.rows)
  }

  /** Every applied signal is in the log, under the organisation of the learner it was applied to. */
  ghost predicate Logged(log: seq<Signal>, h: seq<Commit>) {
    forall i, x | 0 <= i < |h| && x in h[i].batch :: x in log && x.org == h[i].row.learner.org
  }

  ghost predicate Identified(rows: seq<Row>) {
    forall r | r in rows :: HasStateId(r)
  }

  ghost predicate HasStateId(r: Row) {
    r.stateId == FormatStateId(r.learner.org, r.learner.ref, r.version)
  }

  lemma LoggedAppend(log: seq<Signal>, h: seq<Commit>, c: Commit)
    requires Logged(log, h) && forall x | x in c.batch :: x in log && x.org == c.row.learner.org
    ensures Logged(log, h + [c])
  {
  }

  lemma TakenIs(rows: seq<Row>, r: Row, l: Learner, version: nat)
    requires HasStateId(r) && r.learner == l && r.version == version
    ensures StateIdTaken(rows, l, version) <==> Taken(rows, r.stateId)
  {
  }

  lemma CoherentAppend(t: Tables, h: seq<Commit>, c: Commit, config: string -> Config)
    requires Coherent(t, h, config) && Follows(Of(h, c.row.learner), c, t.applied, config(c.row.learner.org))
    requires forall x | x in c.batch :: x in t.log && x.org == c.row.learner.org
    requires HasStateId(c.row)
    ensures Coherent(Tables(t.rows + [c.row], InsertOrIgnore(t.applied, c.row.learner, Ids(c.batch), c.row.version),
                            t.log),
                     h + [c], config)
  {
    GoodAppend(t.rows, t.applied, h, c, config);
    LoggedAppend(t.log, h, c);
  }

  lemma SomethingSelected(log: seq<Signal>, org: string, ids: seq<string>)
    requires Unique(log) && ids != [] && Has(log, org, ids[0])
    ensures Selected(log, org, ids) != []
  {
    SelectedHolds(log, org, ids);
    var i :| 0 <= i < |log| && log[i].org == org && log[i].id == ids[0];
    assert log[i] in Selected(log, org, ids);
  }

  lemma LearnerReplays(t: Tables, h: seq<Commit>, config: string -> Config, l: Learner)
    requires Coherent(t, h, config)
    ensures Replays(Of(h, l), config(l.org))
  {
  }

  /** From a replayed history and a clean batch the state is clean. */
  lemma CleanBatchStaysClean(log: seq<Signal>, c: seq<Commit>, l: Learner, toApply: seq<string>, config: Config,
                             state: Fields)
    requires Replays(c, config) && CleanBatch(log, c, l, toApply, config)
    requires Computed(c, Selected(log, l.org, toApply), config, state)
    ensures Clean(Obj(state))
  {
    assert |c| > 0 ==> Made(c, |c| - 1, config);
    StateReducer.StoredStateClean(StateBefore(c, |c|), Payloads(Selected(log, l.org, toApply)), config, |c| + 1, state);
  }

  class Engine {
    const stateStore: SqliteStateRepository
    const signalLog: SqliteSignalLogRepository
    const config: string -> Config
    /** The batches behind the rows of the store. */
    ghost var history: seq<Commit>

    ghost function Now(): Tables reads this, stateStore, signalLog {
      Tables(stateStore.rows, stateStore.applied, signalLog.log)
    }

    ghost predicate Valid() reads this, stateStore, signalLog {
      stateStore.Valid() && signalLog.Valid() && Coherent(Now(), history, config)
    }

    constructor (config: string -> Config)
      ensures Valid() && history == [] && fresh(stateStore) && fresh(signalLog)
      ensures stateStore.rows == [] && stateStore.applied == map[] && signalLog.log == []
    {
      this.config := config;
      stateStore := new SqliteStateRepository();
      signalLog := new SqliteSignalLogRepository();
      history := [];
    }

    method FilterApplied(l: Learner, ids: seq<string>) returns (toApply: seq<string>)
      ensures toApply == ToApply(ids, stateStore.applied, l)
    {
      toApply := [];
      for i := 0 to |ids|
        invariant toApply == ToApply(ids[..i], stateStore.applied, l)
      {
        assert ids[..i + 1][..i] == ids[..i];
        var applied := stateStore.IsSignalApplied(l, ids[i]);
        if !applied {
          toApply := toApply + [ids[i]];
        }
      }
      assert ids[..|ids|] == ids;
    }

    lemma CurrentRow(l: Learner)
      requires Valid()
      ensures var r := Current(stateStore.rows, l); var c := Of(history, l);
              VersionIn(r) == |c| && StateIn(r) == StateBefore(c, |c|) && (r.Some? ==> Clean(Obj(r.value.state)))
    {
      var c := Of(history, l);
      assert Replays(c, config(l.org));
      CurrentIsLast(history, l, config(l.org));
      if c != [] {
        assert Made(c, |c| - 1, config(l.org));
      }
    }

    /** New state and deltas over the current row, checked for forbidden keys. */
    method Compute(l: Learner, signals: seq<Signal>) returns (current: Option<Row>, state: Fields, valid: bool)
      requires Valid()
      ensures VersionIn(current) == |Of(history, l)| && Computed(Of(history, l), signals, config(l.org), state)
      ensures valid <==> Clean(Obj(state))
    {
      current := stateStore.GetState(l);
      CurrentRow(l);
      state := StateReducer.ComputeState(StateIn(current), Payloads(signals), config(l.org), VersionIn(current) + 1);
      var forbidden := DetectForbiddenKeys(Obj(state), "state");
      valid := forbidden.None?;
    }

    lemma BatchIsClean(l: Learner, toApply: seq<string>, state: Fields)
      requires Valid() && CleanBatch(signalLog.log, Of(history, l), l, toApply, config(l.org))
      requires Computed(Of(history, l), Selected(signalLog.log, l.org, toApply), config(l.org), state)
      ensures Clean(Obj(state))
    {
      LearnerReplays(Now(), history, config, l);
      CleanBatchStaysClean(signalLog.log, Of(history, l), l, toApply, config(l.org), state);
    }

    /** The same for a batch from the log: the check finds nothing in a clean one. */
    method ComputeBatch(l: Learner, toApply: seq<string>, signals: seq<Signal>)
        returns (current: Option<Row>, state: Fields, valid: bool)
      requires Valid() && signals == Selected(signalLog.log, l.org, toApply)
      ensures VersionIn(current) == |Of(history, l)| && Computed(Of(history, l), signals, config(l.org), state)
      ensures valid <==> Clean(Obj(state))
      ensures !valid ==> !CleanBatch(signalLog.log, Of(history, l), l, toApply, config(l.org))
    {
      current, state, valid := Compute(l, signals);
      if CleanBatch(signalLog.log, Of(history, l), l, toApply, config(l.org)) {
        BatchIsClean(l, toApply, state);
      }
    }

    /** The version after the learner's current one is not in the table: only its identifier can be taken. */
    lemma ConflictIsIdentifier(row: Row)
      requires Valid() && row.version == |Of(history, row.learner)| + 1
      requires HasStateId(row)
      ensures Free(stateStore.rows, row) <==> !Taken(stateStore.rows, row.stateId)
    {
      CurrentRow(row.learner);
      CurrentIsHighest(stateStore.rows, row.learner);
    }

    /** A batch from the log, none of it applied yet, over the current row follows the learner's history. */
    lemma BatchFollows(l: Learner, toApply: seq<string>, signals: seq<Signal>, row: Row)
      requires Valid() && signals == Selected(signalLog.log, l.org, toApply) && signals != []
      requires forall id | id in toApply :: (l, id) !in stateStore.applied
      requires row.learner == l && row.version == |Of(history, l)| + 1 && Clean(Obj(row.state))
      requires Computed(Of(history, l), signals, config(l.org), row.state)
      ensures Follows(Of(history, l), Commit(row, signals), stateStore.applied, config(l.org))
      ensures forall x | x in signals :: x in signalLog.log && x.org == l.org
    {
      SelectedHolds(signalLog.log, l.org, toApply);
    }

    method Save(row: Row, ghost signals: seq<Signal>, ids: seq<string>) returns (ok: bool)
      requires Valid() && ids == Ids(signals)
      requires Follows(Of(history, row.learner), Commit(row, signals), stateStore.applied, config(row.learner.org))
      requires forall x | x in signals :: x in signalLog.log && x.org == row.learner.org
      requires HasStateId(row)
      modifies this, stateStore
      ensures Valid() && signalLog.log == old(signalLog.log)
      ensures ok <==> !Taken(old(stateStore.rows), row.stateId)
      ensures if ok then history == old(history) + [Commit(row, signals)]
              else history == old(history) && Now() == old(Now())
    {
      ConflictIsIdentifier(row);
      CoherentAppend(Now(), history, Commit(row, signals), config);
      ok := stateStore.SaveStateWithAppliedSignals(row, ids);
      if ok {
        history := history + [Commit(row, signals)];
      }
    }

    /** Saves the state as the version after the current one. */
    method SaveOnce(l: Learner, toApply: seq<string>, signals: seq<Signal>, state: Fields, now: string)
        returns (ok: bool, version: nat, stateId: string)
      requires Valid() && signals == Selected(signalLog.log, l.org, toApply) && signals != []
      requires forall id | id in toApply :: (l, id) !in stateStore.applied
      requires Clean(Obj(state)) && Computed(Of(history, l), signals, config(l.org), state)
      modifies this, stateStore
      ensures Valid() && signalLog.log == old(signalLog.log)
      ensures ok <==> !StateIdTaken(old(stateStore.rows), l, |Of(old(history), l)| + 1)
      ensures if ok then Extends(old(history), history, signalLog.log, l, toApply,
                                 Applied(|Of(old(history), l)|, version, stateId, toApply))
              else history == old(history) && Now() == old(Now())
    {
      var currentForSave := stateStore.GetState(l);
      CurrentRow(l);
      version := VersionIn(currentForSave) + 1;
      stateId := FormatStateId(l.org, l.ref, version);
      var last := signals[|signals| - 1];
      var row := Row(l, stateId, version, now, state, last.id, last.acceptedAt);
      BatchFollows(l, toApply, signals, row);
      TakenIs(stateStore.rows, row, l, |Of(history, l)| + 1);
      ok := Save(row, signals, Ids(signals));
    }

    /** The save, and once more after a conflict over a state computed anew. Between the two attempts nothing
        else runs, so the second meets the conflict of the first. */
    method SaveWithRetry(l: Learner, toApply: seq<string>, signals: seq<Signal>, prior: nat, state: Fields, now: string)
        returns (outcome: Outcome)
      requires Valid() && signals == Selected(signalLog.log, l.org, toApply) && signals != []
      requires forall id | id in toApply :: (l, id) !in stateStore.applied
      requires prior == |Of(history, l)| && Clean(Obj(state)) && Computed(Of(history, l), signals, config(l.org), state)
      modifies this, stateStore
      ensures Valid()
      ensures if StateIdTaken(old(stateStore.rows), l, prior + 1)
              then (outcome == Rejected(VersionConflict) ||
                    (outcome == Rejected(InvalidState) &&
                     !CleanBatch(signalLog.log, Of(old(history), l), l, toApply, config(l.org)))) &&
                   history == old(history) && Now() == old(Now())
              else Extends(old(history), history, signalLog.log, l, toApply, outcome)
    {
      var stateToSave := state;
      for attempt := 0 to MAX_RETRIES
        invariant Valid() && Now() == old(Now()) && history == old(history)
        invariant Clean(Obj(stateToSave)) && Computed(Of(history, l), signals, config(l.org), stateToSave)
        invariant attempt > 0 ==> StateIdTaken(old(stateStore.rows), l, prior + 1)
      {
        var ok, version, stateId := SaveOnce(l, toApply, signals, stateToSave, now);
        if ok {
          return Applied(prior, version, stateId, toApply);
        }
        if attempt < MAX_RETRIES - 1 {
          var refreshed, recomputed, revalid := ComputeBatch(l, toApply, signals);
          if !revalid {
            return Rejected(InvalidState);
          }
          stateToSave := recomputed;
        }
      }
      outcome := Rejected(VersionConflict);
    }

    method ApplyBatch(l: Learner, toApply: seq<string>, signals: seq<Signal>, now: string) returns (outcome: Outcome)
      requires Valid() && signals == Selected(signalLog.log, l.org, toApply) && signals != []
      requires forall id | id in toApply :: (l, id) !in stateStore.applied
      modifies this, stateStore
      ensures Valid()
      ensures match outcome
              case Applied(_, _, _, _) =>
                Extends(old(history), history, signalLog.log, l, toApply, outcome) &&
                !StateIdTaken(old(stateStore.rows), l, |Of(old(history), l)| + 1)
              case Rejected(InvalidState) =>
                !CleanBatch(signalLog.log, Of(old(history), l), l, toApply, config(l.org))
              case Rejected(VersionConflict) => StateIdTaken(old(stateStore.rows), l, |Of(old(history), l)| + 1)
              case _ => false
      ensures !outcome.Applied? ==> history == old(history) && Now() == old(Now())
    {
      var current, state, valid := ComputeBatch(l, toApply, signals);
      if valid {
        outcome := SaveWithRetry(l, toApply, signals, VersionIn(current), state, now);
      } else {
        outcome := Rejected(InvalidState);
      }
    }

    /** Fetches the records of ids that are not applied yet, and applies them. */
    method ApplyNew(l: Learner, toApply: seq<string>, now: string) returns (outcome: Outcome)
      requires Valid() && toApply != [] && forall id | id in toApply :: (l, id) !in stateStore.applied
      modifies this, stateStore
      ensures Valid() && signalLog.log == old(signalLog.log)
      ensures match outcome
              case Applied(_, _, _, _) =>
                Extends(old(history), history, signalLog.log, l, toApply, outcome) &&
                !StateIdTaken(old(stateStore.rows), l, |Of(old(history), l)| + 1)
              case Rejected(UnknownSignalId) => IsLookup(signalLog.log, l.org, toApply, Unknown)
              case Rejected(SignalsNotInOrgScope) => IsLookup(signalLog.log, l.org, toApply, OutOfScope)
              case Rejected(InvalidState) => !CleanBatch(signalLog.log, Of(old(history), l), l, toApply, config(l.org))
              case Rejected(VersionConflict) => StateIdTaken(old(stateStore.rows), l, |Of(old(history), l)| + 1)
              case _ => false
      ensures !outcome.Applied? ==> history == old(history) && Now() == old(Now())
    {
      var lookup := signalLog.GetSignalsByIds(l.org, toApply);
      match lookup {
        case Unknown => return Rejected(UnknownSignalId);
        case OutOfScope => return Rejected(SignalsNotInOrgScope);
        case Records(signals) =>
          SomethingSelected(signalLog.log, l.org, toApply);
          outcome := ApplyBatch(l, toApply, signals, now);
      }
    }

    method ApplySignals(request: Request, now: string) returns (outcome: Outcome)
      requires Valid()
      modifies this, stateStore
      ensures Valid() && signalLog.log == old(signalLog.log)
      ensures Answers(old(Now()), old(history), history, config, request, outcome)
      ensures !outcome.Applied? ==> Now() == old(Now())
    {
      if !ValidRequest(request) {
        return Rejected(InvalidRequest);
      }
      var l := request.learner;
      var toApply := FilterApplied(l, request.ids);
      if |toApply| == 0 {
        var current := stateStore.GetState(l);
        CurrentRow(l);
        return Nothing(VersionIn(current));
      }
      ToApplyHolds(request.ids, stateStore.applied, l);
      outcome := ApplyNew(l, toApply, now);
    }
  }
}
