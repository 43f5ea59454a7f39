/** What a writer left to itself arrives at, and what a conflict that was reported had behind it. */
module ProtocolProgress {
  import opened Json
  import opened Protocol
  import ProtocolSafety

  /** A run in which only writer `i` steps, and in which it fetches these records if any. */
  ghost predicate SoloRun(e: Engine, i: nat, fetched: seq<Signal>, run: seq<State>) {
    run != [] && (forall k | 0 <= k < |run| - 1 :: StepAt(e, i, run, k)) &&
    forall k | 0 <= k < |run| :: FetchedAt(run, k, i, fetched)
  }

  ghost predicate StepAt(e: Engine, i: nat, run: seq<State>, k: int) {
    0 <= k < |run| - 1 && StepOf(e, run[k], run[k + 1], i)
  }

  predicate FetchedAt(run: seq<State>, k: int, i: nat, fetched: seq<Signal>) {
    0 <= k < |run| && Fetched(run[k], i, fetched)
  }

  predicate Fetched(s: State, i: nat, fetched: seq<Signal>) {
    i in s.writers && s.writers[i].Computing? ==> s.writers[i].signals == fetched
  }

  ghost predicate Leads(e: Engine, i: nat, fetched: seq<Signal>, s: State, t: State) {
    exists run :: SoloRun(e, i, fetched, run) && run[0] == s && run[|run| - 1] == t
  }

  lemma LeadsHere(e: Engine, i: nat, fetched: seq<Signal>, s: State)
    requires Fetched(s, i, fetched)
    ensures Leads(e, i, fetched, s, s)
  {
    assert FetchedAt([s], 0, i, fetched);
    assert SoloRun(e, i, fetched, [s]);
  }

  lemma LeadsOn(e: Engine, i: nat, fetched: seq<Signal>, s: State, t: State, u: State)
    requires Leads(e, i, fetched, s, t) && StepOf(e, t, u, i) && Fetched(u, i, fetched)
    ensures Leads(e, i, fetched, s, u)
  {
    var run :| SoloRun(e, i, fetched, run) && run[0] == s && run[|run| - 1] == t;
    var longer := run + [u];
    forall k | 0 <= k < |longer| - 1 ensures StepAt(e, i, longer, k) {
      if k < |run| - 1 {
        assert StepAt(e, i, run, k);
      }
    }
    forall k | 0 <= k < |longer| ensures FetchedAt(longer, k, i, fetched) {
      if k < |run| {
        assert FetchedAt(run, k, i, fetched);
      }
    }
    assert SoloRun(e, i, fetched, longer);
  }

  lemma Reads(e: Engine, i: nat, fetched: seq<Signal>, s: State, t: State, w': Writer)
    requires Leads(e, i, fetched, s, t) && i in t.writers && Running(t.writers[i]) && ReadStep(e, t, t.writers[i], w')
    requires w'.Computing? ==> w'.signals == fetched
    ensures Leads(e, i, fetched, s, Put(t, i, w'))
  {
    assert QuietStep(e, t, Put(t, i, w'), i, w');
    LeadsOn(e, i, fetched, s, t, Put(t, i, w'));
  }

  /** The ids that are not recorded, in request order. */
  function Unrecorded(applied: map<(string, string), nat>, pk: string, ids: seq<string>): seq<string> {
    if ids == [] then []
    else (if (pk, ids[0]) in applied then [] else [ids[0]]) + Unrecorded(applied, pk, ids[1..])
  }

  /** The row is the partition's highest version, or there is none. */
  ghost predicate IsCurrent(s: State, pk: string, r: Option<Row>) {
    match r
    case None => forall v :: (pk, v) !in s.rows
    case Some(row) => (pk, row.version) in s.rows && s.rows[(pk, row.version)] == row &&
                      forall v | (pk, v) in s.rows :: v <= row.version
  }

  lemma CurrentIsRead(s: State, pk: string, r: Option<Row>, i: nat, w: Writer)
    requires IsCurrent(s, pk, r)
    ensures MayRead(Put(s, i, w), pk, r) && (pk, VersionOf(r) + 1) !in s.rows
  {
  }

  // ----- The checks -----

  /** The first `n` checks are answered, and rightly. */
  ghost predicate Answered(s: State, req: Request, n: nat, answers: map<nat, bool>) {
    n <= |req.ids| && (forall k: nat :: k in answers <==> k < n) &&
    forall k: nat | k < n :: answers[k] == ((req.pk, req.ids[k]) in s.applied)
  }

  lemma PutTwice(s: State, i: nat, w: Writer, w': Writer)
    ensures Put(Put(s, i, w), i, w') == Put(s, i, w')
  {
    assert s.writers[i := w][i := w'] == s.writers[i := w'];
  }

  lemma PutSame(s: State, i: nat, w: Writer)
    requires i in s.writers && s.writers[i] == w
    ensures Put(s, i, w) == s
  {
    assert s.writers[i := w] == s.writers;
  }

  /** The writer has arrived with its request. */
  ghost predicate Started(s: State, i: nat, req: Request) {
    i in s.writers && s.writers[i] == Checking(req, map[])
  }

  lemma Arrives(e: Engine, i: nat, fetched: seq<Signal>, s: State, req: Request)
    requires i !in s.writers && req.ids != []
    ensures Leads(e, i, fetched, s, Put(s, i, Checking(req, map[])))
  {
    var t := Put(s, i, Checking(req, map[]));
    LeadsHere(e, i, fetched, s);
    assert StartStep(s, t, i, req);
    LeadsOn(e, i, fetched, s, s, t);
  }

  lemma {:induction false} Checks(e: Engine, i: nat, fetched: seq<Signal>, s: State, req: Request, n: nat)
      returns (answers: map<nat, bool>)
    requires Started(s, i, req) && n <= |req.ids|
    ensures Answered(s, req, n, answers) && Leads(e, i, fetched, s, Put(s, i, Checking(req, answers)))
  {
    if n == 0 {
      answers := map[];
      PutSame(s, i, Checking(req, map[]));
      LeadsHere(e, i, fetched, s);
    } else {
      answers := Checks(e, i, fetched, s, req, n - 1);
      answers := ChecksNext(e, i, fetched, s, req, n - 1, answers);
    }
  }

  lemma CheckIsRead(e: Engine, t: State, req: Request, before: map<nat, bool>, n: nat, answer: bool)
    requires n < |req.ids| && n !in before && MayAnswer(t, req.pk, req.ids[n], answer)
    ensures ReadStep(e, t, Checking(req, before), Checking(req, before[n := answer]))
  {
  }

  lemma ChecksNext(e: Engine, i: nat, fetched: seq<Signal>, s: State, req: Request, n: nat, before: map<nat, bool>)
      returns (answers: map<nat, bool>)
    requires n < |req.ids| && Answered(s, req, n, before)
    requires Leads(e, i, fetched, s, Put(s, i, Checking(req, before)))
    ensures Answered(s, req, n + 1, answers) && Leads(e, i, fetched, s, Put(s, i, Checking(req, answers)))
  {
    var t := Put(s, i, Checking(req, before));
    answers := before[n := (req.pk, req.ids[n]) in s.applied];
    CheckIsRead(e, t, req, before, n, answers[n]);
    Reads(e, i, fetched, s, t, Checking(req, answers));
    PutTwice(s, i, Checking(req, before), Checking(req, answers));
  }

  lemma {:induction false} UnrecordedAppend(applied: map<(string, string), nat>, pk: string, a: seq<string>,
                                            b: seq<string>)
    ensures Unrecorded(applied, pk, a + b) == Unrecorded(applied, pk, a) + Unrecorded(applied, pk, b)
  {
    if a == [] {
      assert a + b == b;
    } else {
      assert (a + b)[1..] == a[1..] + b;
      UnrecordedAppend(applied, pk, a[1..], b);
    }
  }

  lemma LastUnrecorded(applied: map<(string, string), nat>, pk: string, front: seq<string>, last: string)
    ensures Unrecorded(applied, pk, front + [last]) ==
            Unrecorded(applied, pk, front) + if (pk, last) in applied then [] else [last]
  {
    UnrecordedAppend(applied, pk, front, [last]);
    assert [last][1..] == [];
    assert [last] + [] == [last];
  }

  lemma LastToApply(ids: seq<string>, answers: map<nat, bool>)
    requires ids != [] && forall k | 0 <= k < |ids| :: k in answers
    ensures ToApply(ids, answers) ==
            ToApply(ids[..|ids| - 1], answers) + if answers[|ids| - 1] then [] else [ids[|ids| - 1]]
  {
  }

  lemma {:induction false} FilterIs(applied: map<(string, string), nat>, pk: string, ids: seq<string>,
                                    answers: map<nat, bool>)
    requires forall k | 0 <= k < |ids| :: k in answers && answers[k] == ((pk, ids[k]) in applied)
    ensures ToApply(ids, answers) == Unrecorded(applied, pk, ids)
  {
    if ids != [] {
      var front, last := ids[..|ids| - 1], ids[|ids| - 1];
      FilterIs(applied, pk, front, answers);
      LastToApply(ids, answers);
      LastUnrecorded(applied, pk, front, last);
      assert front + [last] == ids;
    }
  }

  /** With fresh answers the writer sets out to apply what is not recorded. */
  lemma Filters(e: Engine, i: nat, fetched: seq<Signal>, s: State, req: Request)
    requires Started(s, i, req)
    ensures var toApply := Unrecorded(s.applied, req.pk, req.ids);
            Leads(e, i, fetched, s, Put(s, i, if toApply == [] then Idle(req) else Fetching(req, toApply)))
  {
    var toApply := Unrecorded(s.applied, req.pk, req.ids);
    var w := if toApply == [] then Idle(req) else Fetching(req, toApply);
    var answers := Checks(e, i, fetched, s, req, |req.ids|);
    var t := Put(s, i, Checking(req, answers));
    FilterIsRead(e, s, t, req, answers);
    Reads(e, i, fetched, s, t, w);
    PutTwice(s, i, t.writers[i], w);
  }

  lemma FilterIsRead(e: Engine, s: State, t: State, req: Request, answers: map<nat, bool>)
    requires Answered(s, req, |req.ids|, answers)
    ensures var toApply := Unrecorded(s.applied, req.pk, req.ids);
            ReadStep(e, t, Checking(req, answers), if toApply == [] then Idle(req) else Fetching(req, toApply))
  {
    FilterIs(s.applied, req.pk, req.ids, answers);
  }

  /** When everything is recorded already, the writer returns ok at the current version and stores nothing. */
  lemma NothingToApply(e: Engine, i: nat, s: State, req: Request, r: Option<Row>)
    requires i !in s.writers && req.ids != [] && IsCurrent(s, req.pk, r)
    requires forall id | id in req.ids :: (req.pk, id) in s.applied
    ensures Leads(e, i, [], s, Put(s, i, Returned(req, Nothing(VersionOf(r)))))
  {
    var u, w := Put(s, i, Checking(req, map[])), Returned(req, Nothing(VersionOf(r)));
    var t := Put(u, i, Idle(req));
    Arrives(e, i, [], s, req);
    NoneUnrecorded(s.applied, req.pk, req.ids);
    Filters(e, i, [], u, req);
    LeadsFurther(e, i, [], s, u, t);
    PutTwice(s, i, u.writers[i], Idle(req));
    CurrentIsRead(s, req.pk, r, i, Idle(req));
    Reads(e, i, [], s, t, w);
    PutTwice(s, i, Idle(req), w);
  }

  lemma {:induction false} NoneUnrecorded(applied: map<(string, string), nat>, pk: string, ids: seq<string>)
    requires forall id | id in ids :: (pk, id) in applied
    ensures Unrecorded(applied, pk, ids) == []
  {
    if ids != [] {
      NoneUnrecorded(applied, pk, ids[1..]);
    }
  }

  // ----- The records -----

  ghost predicate DistinctIds(batch: seq<Signal>) {
    forall j, k | 0 <= j < k < |batch| :: batch[j].id != batch[k].id
  }

  lemma {:induction false} FindsIt(batch: seq<Signal>, x: Signal)
    requires DistinctIds(batch) && x in batch
    ensures Find(batch, x.id) == Some(x)
  {
    var n := |batch| - 1;
    if batch[n] != x {
      assert batch == batch[..n] + [batch[n]] && x in batch[..n];
      FindsIt(batch[..n], x);
    }
  }

  /** In whatever order the records come, they are put in the order of the ids. */
  lemma {:induction false} PutInOrder(batch: seq<Signal>, signals: seq<Signal>)
    requires DistinctIds(batch) && forall x | x in signals :: x in batch
    ensures OrderSignalsByIds(batch, Ids(signals)) == signals
  {
    if signals != [] {
      FindsIt(batch, signals[0]);
      PutInOrder(batch, signals[1..]);
      assert Ids(signals)[1..] == Ids(signals[1..]);
      assert signals == [signals[0]] + signals[1..];
    }
  }

  lemma {:induction false} OneMissing(batch: seq<Signal>, ids: seq<string>, id: string)
    requires id in ids && forall x | x in batch :: x.id != id
    ensures |OrderSignalsByIds(batch, ids)| < |ids|
  {
    FoundHasId(batch, ids[0]);
    OrderedByIds(batch, ids[1..]);
    if ids[0] != id {
      OneMissing(batch, ids[1..], id);
    }
  }

  /** A record that cannot be found makes the writer give up without storing anything. */
  lemma MissingIsUnknown(e: Engine, i: nat, s: State, req: Request, batch: seq<Signal>, id: string)
    requires i !in s.writers && id in Unrecorded(s.applied, req.pk, req.ids) && forall x | x in batch :: x.id != id
    ensures Leads(e, i, [], s, Put(s, i, Returned(req, Rejected(UnknownSignalId))))
  {
    var toApply := Unrecorded(s.applied, req.pk, req.ids);
    var u, w := Put(s, i, Checking(req, map[])), Returned(req, Rejected(UnknownSignalId));
    var t := Put(u, i, Fetching(req, toApply));
    Arrives(e, i, [], s, req);
    Filters(e, i, [], u, req);
    LeadsFurther(e, i, [], s, u, t);
    PutTwice(s, i, u.writers[i], Fetching(req, toApply));
    OneMissing(batch, toApply, id);
    Reads(e, i, [], s, t, w);
    PutTwice(s, i, Fetching(req, toApply), w);
  }

  lemma Fetches(e: Engine, i: nat, fetched: seq<Signal>, s: State, req: Request, batch: seq<Signal>,
                signals: seq<Signal>)
    requires Started(s, i, req) && signals != []
    requires Ids(signals) == Unrecorded(s.applied, req.pk, req.ids)
    requires DistinctIds(batch) && (forall x | x in signals :: x in batch) && fetched == signals
    ensures Leads(e, i, fetched, s, Put(s, i, Computing(req, Ids(signals), signals)))
  {
    Filters(e, i, fetched, s, req);
    PutInOrder(batch, signals);
    var t, w := Put(s, i, Fetching(req, Ids(signals))), Computing(req, Ids(signals), signals);
    assert |signals| == |Ids(signals)|;
    assert w == Computing(req, Ids(signals), OrderSignalsByIds(batch, Ids(signals)));
    Reads(e, i, fetched, s, t, w);
    PutTwice(s, i, t.writers[i], w);
  }

  // ----- The write -----

  /** The tables and the writer after version `v` of the job has been stored. */
  ghost predicate StoredAs(s: State, t: State, i: nat, req: Request, prior: nat, v: nat, state: Fields,
                           ids: seq<string>)
    requires ids != []
  {
    t.rows == s.rows[(req.pk, v) := Row(v, state, ids[|ids| - 1])] &&
    t.applied == s.applied + (map id | id in ids :: (req.pk, id) := v) &&
    t.writers == s.writers[i := Returned(req, Applied(prior, v, ids))]
  }

  lemma RowIs(job: Job, v: nat)
    requires job.signals != [] && Ids(job.signals) == job.toApply
    ensures job.toApply != [] && RowOf(job, v) == Row(v, job.state, job.toApply[|job.toApply| - 1])
  {
  }

  /** The transaction is accepted. */
  lemma WriteIsTaken(e: Engine, i: nat, fetched: seq<Signal>, s: State, job: Job, attempt: nat, v: nat)
      returns (t: State)
    requires i in s.writers && s.writers[i] == Saving(job, attempt, v) && (job.req.pk, v) !in s.rows
    requires job.signals != [] && Ids(job.signals) == job.toApply && Distinct(job.toApply)
    requires forall id | id in job.toApply :: (job.req.pk, id) !in s.applied
    ensures Leads(e, i, fetched, s, t) && job.toApply != []
    ensures StoredAs(s, t, i, job.req, VersionOf(job.seen), v, job.state, job.toApply)
  {
    var w := Returned(job.req, Applied(VersionOf(job.seen), v, job.toApply));
    var ids := Ids(job.signals);
    t := State(s.rows[(job.req.pk, v) := RowOf(job, v)], s.applied + (map id | id in ids :: (job.req.pk, id) := v),
               s.writers[i := w], s.history + [Commit(i, job, attempt, v)]);
    RowIs(job, v);
    assert CommitStep(s, t, i, w);
    LeadsHere(e, i, fetched, s);
    LeadsOn(e, i, fetched, s, s, t);
  }

  lemma ReadsVersion(e: Engine, i: nat, fetched: seq<Signal>, s: State, job: Job, attempt: nat, r: Option<Row>)
    requires i in s.writers && s.writers[i] == Reading(job, attempt) && IsCurrent(s, job.req.pk, r)
    ensures Leads(e, i, fetched, s, Put(s, i, Saving(job, attempt, VersionOf(r) + 1)))
  {
    LeadsHere(e, i, fetched, s);
    CurrentIsRead(s, job.req.pk, r, i, s.writers[i]);
    assert s.writers[i := s.writers[i]] == s.writers;
    Reads(e, i, fetched, s, s, Saving(job, attempt, VersionOf(r) + 1));
  }

  lemma SameStored(s: State, u: State, t: State, i: nat, req: Request, prior: nat, v: nat, state: Fields,
                   ids: seq<string>)
    requires ids != [] && i in u.writers && u == Put(s, i, u.writers[i]) && StoredAs(u, t, i, req, prior, v, state, ids)
    ensures StoredAs(s, t, i, req, prior, v, state, ids)
  {
    assert u.writers[i := t.writers[i]] == s.writers[i := t.writers[i]];
  }

  lemma Writes(e: Engine, i: nat, fetched: seq<Signal>, s: State, job: Job, attempt: nat, r: Option<Row>)
      returns (t: State)
    requires i in s.writers && s.writers[i] == Reading(job, attempt) && IsCurrent(s, job.req.pk, r)
    requires job.signals != [] && Ids(job.signals) == job.toApply && Distinct(job.toApply)
    requires forall id | id in job.toApply :: (job.req.pk, id) !in s.applied
    ensures Leads(e, i, fetched, s, t) && job.toApply != []
    ensures StoredAs(s, t, i, job.req, VersionOf(job.seen), VersionOf(r) + 1, job.state, job.toApply)
  {
    var v := VersionOf(r) + 1;
    var u := Put(s, i, Saving(job, attempt, v));
    CurrentIsRead(s, job.req.pk, r, i, s.writers[i]);
    ReadsVersion(e, i, fetched, s, job, attempt, r);
    t := WriteIsTaken(e, i, fetched, u, job, attempt, v);
    LeadsFurther(e, i, fetched, s, u, t);
    SameStored(s, u, t, i, job.req, VersionOf(job.seen), v, job.state, job.toApply);
  }

  lemma LeadsFurther(e: Engine, i: nat, fetched: seq<Signal>, s: State, t: State, u: State)
    requires Leads(e, i, fetched, s, t) && Leads(e, i, fetched, t, u)
    ensures Leads(e, i, fetched, s, u)
  {
    var a :| SoloRun(e, i, fetched, a) && a[0] == s && a[|a| - 1] == t;
    var b :| SoloRun(e, i, fetched, b) && b[0] == t && b[|b| - 1] == u;
    var run := a + b[1..];
    forall k | 0 <= k < |run| - 1 ensures StepAt(e, i, run, k) {
      if k < |a| - 1 {
        assert StepAt(e, i, a, k);
      } else {
        assert StepAt(e, i, b, k - |a| + 1);
      }
    }
    forall k | 0 <= k < |run| ensures FetchedAt(run, k, i, fetched) {
      if k < |a| {
        assert FetchedAt(a, k, i, fetched);
      } else {
        assert FetchedAt(b, k - |a| + 1, i, fetched);
      }
    }
    assert SoloRun(e, i, fetched, run);
  }

  lemma Computes(e: Engine, i: nat, fetched: seq<Signal>, s: State, req: Request, batch: seq<Signal>,
                 signals: seq<Signal>, r: Option<Row>,
                 state: Fields)
    requires Started(s, i, req) && signals != [] && IsCurrent(s, req.pk, r)
    requires Ids(signals) == Unrecorded(s.applied, req.pk, req.ids)
    requires DistinctIds(batch) && (forall x | x in signals :: x in batch) && fetched == signals
    requires e.reduces(req.pk, r, signals, state)
    ensures Leads(e, i, fetched, s,
                  Put(s, i, if e.valid(state) then Reading(Job(req, Ids(signals), signals, r, r, state), 0)
                                     else Returned(req, Rejected(InvalidState))))
  {
    Fetches(e, i, fetched, s, req, batch, signals);
    var t := Put(s, i, Computing(req, Ids(signals), signals));
    var w := if e.valid(state) then Reading(Job(req, Ids(signals), signals, r, r, state), 0)
             else Returned(req, Rejected(InvalidState));
    CurrentIsRead(s, req.pk, r, i, t.writers[i]);
    Reads(e, i, fetched, s, t, w);
    PutTwice(s, i, t.writers[i], w);
  }

  /** A result that does not pass the check is refused, and nothing is stored. */
  lemma InvalidIsRejected(e: Engine, i: nat, s: State, req: Request, batch: seq<Signal>, signals: seq<Signal>,
                          r: Option<Row>, state: Fields)
    requires i !in s.writers && req.ids != [] && signals != [] && IsCurrent(s, req.pk, r)
    requires Ids(signals) == Unrecorded(s.applied, req.pk, req.ids)
    requires DistinctIds(batch) && forall x | x in signals :: x in batch
    requires e.reduces(req.pk, r, signals, state) && !e.valid(state)
    ensures Leads(e, i, signals, s, Put(s, i, Returned(req, Rejected(InvalidState))))
  {
    var u, w := Put(s, i, Checking(req, map[])), Returned(req, Rejected(InvalidState));
    Arrives(e, i, signals, s, req);
    Computes(e, i, signals, u, req, batch, signals, r, state);
    LeadsFurther(e, i, signals, s, u, Put(u, i, w));
    PutTwice(s, i, u.writers[i], w);
  }

  lemma {:induction false} UnrecordedHolds(applied: map<(string, string), nat>, pk: string, ids: seq<string>)
    ensures forall id :: id in Unrecorded(applied, pk, ids) <==> id in ids && (pk, id) !in applied
    ensures Distinct(ids) ==> Distinct(Unrecorded(applied, pk, ids))
  {
    if ids != [] {
      UnrecordedHolds(applied, pk, ids[1..]);
      assert ids == [ids[0]] + ids[1..];
    }
  }

  lemma AppliesStarted(e: Engine, i: nat, s: State, req: Request, batch: seq<Signal>, signals: seq<Signal>,
                       r: Option<Row>, state: Fields) returns (t: State)
    requires Started(s, i, req) && Distinct(req.ids) && signals != [] && IsCurrent(s, req.pk, r)
    requires Ids(signals) == Unrecorded(s.applied, req.pk, req.ids)
    requires DistinctIds(batch) && forall x | x in signals :: x in batch
    requires e.reduces(req.pk, r, signals, state) && e.valid(state)
    ensures Leads(e, i, signals, s, t) && Ids(signals) != []
    ensures StoredAs(s, t, i, req, VersionOf(r), VersionOf(r) + 1, state, Ids(signals))
  {
    UnrecordedHolds(s.applied, req.pk, req.ids);
    assert Ids(signals)[0] in Ids(signals);
    Computes(e, i, signals, s, req, batch, signals, r, state);
    var job := Job(req, Ids(signals), signals, r, r, state);
    var u := Put(s, i, Reading(job, 0));
    t := Writes(e, i, signals, u, job, 0, r);
    LeadsFurther(e, i, signals, s, u, t);
    SameStored(s, u, t, i, req, VersionOf(r), VersionOf(r) + 1, state, Ids(signals));
  }

  /** Progress: with distinct ids, all records at hand and a valid result, a writer that nobody disturbs applies what
      is not recorded yet: one version more, made from the current one, and an entry for each id. */
  lemma AppliesAlone(e: Engine, i: nat, s: State, req: Request, batch: seq<Signal>, signals: seq<Signal>,
                     r: Option<Row>,
                     state: Fields) returns (t: State)
    requires i !in s.writers && Distinct(req.ids) && signals != [] && IsCurrent(s, req.pk, r)
    requires Ids(signals) == Unrecorded(s.applied, req.pk, req.ids)
    requires DistinctIds(batch) && forall x | x in signals :: x in batch
    requires e.reduces(req.pk, r, signals, state) && e.valid(state)
    ensures Leads(e, i, signals, s, t) && Ids(signals) != []
    ensures StoredAs(s, t, i, req, VersionOf(r), VersionOf(r) + 1, state, Ids(signals))
  {
    var u := Put(s, i, Checking(req, map[]));
    assert Ids(signals) != [];
    Arrives(e, i, signals, s, req);
    t := AppliesStarted(e, i, u, req, batch, signals, r, state);
    LeadsFurther(e, i, signals, s, u, t);
    SameStored(s, u, t, i, req, VersionOf(r), VersionOf(r) + 1, state, Ids(signals));
  }

  /** The retry: a writer whose first write was refused reads again, computes again and, left to itself, stores the
      result as the version after the current one. */
  lemma RetryCommits(e: Engine, i: nat, s: State, r: Option<Row>, state: Fields)
      returns (t: State)
    requires i in s.writers && s.writers[i].Saving? && s.writers[i].attempt == 0
    requires var job := s.writers[i].job;
             job.signals != [] && Ids(job.signals) == job.toApply && Distinct(job.toApply) &&
             (forall id | id in job.toApply :: (job.req.pk, id) !in s.applied) &&
             IsCurrent(s, job.req.pk, r) && e.recomputes(job.req.pk, r, job.signals, state) && e.valid(state)
    ensures Leads(e, i, [], s, t) && s.writers[i].job.toApply != []
    ensures var job := s.writers[i].job;
            StoredAs(s, t, i, job.req, VersionOf(job.seen), VersionOf(r) + 1, state, job.toApply)
  {
    var job := s.writers[i].job;
    var again := job.(base := r, state := state);
    var t1, t2 := Put(s, i, Refreshing(job)), Put(s, i, Reading(again, 1));
    LeadsHere(e, i, [], s);
    Reads(e, i, [], s, s, Refreshing(job));
    CurrentIsRead(s, job.req.pk, r, i, Refreshing(job));
    Reads(e, i, [], s, t1, Reading(again, 1));
    PutTwice(s, i, Refreshing(job), Reading(again, 1));
    t := Writes(e, i, [], t2, again, 1, r);
    LeadsFurther(e, i, [], s, t2, t);
    SameStored(s, t2, t, i, job.req, VersionOf(job.seen), VersionOf(r) + 1, state, job.toApply);
  }
  /** In every reachable state: a writer whose version was taken under it, with distinct ids that nobody has recorded
      meanwhile and a valid recomputation over the current row, ends with its signals applied if it is left to go on. */
  lemma RefusedIsRetried(e: Engine, s: State, i: nat, r: Option<Row>, state: Fields)
      returns (t: State)
    requires Reachable(e, s) && i in s.writers && s.writers[i].Saving? && s.writers[i].attempt == 0
    requires var Saving(job, _, version) := s.writers[i];
             (job.req.pk, version) in s.rows && Distinct(job.toApply) &&
             (forall id | id in job.toApply :: (job.req.pk, id) !in s.applied) &&
             IsCurrent(s, job.req.pk, r) && e.recomputes(job.req.pk, r, job.signals, state) && e.valid(state)
    ensures Leads(e, i, [], s, t) && s.writers[i].job.toApply != []
    ensures var job := s.writers[i].job;
            StoredAs(s, t, i, job.req, VersionOf(job.seen), VersionOf(r) + 1, state, job.toApply)
  {
    ProtocolSafety.ReachableInv(e, s);
    SavingHasBatch(e, s, i);
    t := RetryCommits(e, i, s, r, state);
  }

  /** A recomputation that does not pass the check ends the retry. */
  lemma InvalidRetryIsRejected(e: Engine, i: nat, s: State, r: Option<Row>, state: Fields)
    requires i in s.writers && s.writers[i].Saving? && s.writers[i].attempt == 0
    requires var job := s.writers[i].job;
             IsCurrent(s, job.req.pk, r) && e.recomputes(job.req.pk, r, job.signals, state) && !e.valid(state)
    ensures Leads(e, i, [], s, Put(s, i, Returned(s.writers[i].job.req, Rejected(InvalidState))))
  {
    var job := s.writers[i].job;
    var t, w := Put(s, i, Refreshing(job)), Returned(job.req, Rejected(InvalidState));
    LeadsHere(e, i, [], s);
    Reads(e, i, [], s, s, Refreshing(job));
    CurrentIsRead(s, job.req.pk, r, i, Refreshing(job));
    Reads(e, i, [], s, t, w);
    PutTwice(s, i, Refreshing(job), w);
  }

  lemma SavingHasBatch(e: Engine, s: State, i: nat)
    requires ProtocolSafety.WritersOk(e, s) && i in s.writers && s.writers[i].Saving?
    ensures var job := s.writers[i].job; Ids(job.signals) == job.toApply && job.signals != []
  {
    assert ProtocolSafety.WriterOk(e, s, s.writers[i]);
  }

  /** A partition always has a current row or none at all. */
  lemma HasCurrent(e: Engine, s: State, pk: string) returns (r: Option<Row>)
    requires ProtocolSafety.RowsCounted(s) && ProtocolSafety.RowsWritten(s)
    ensures IsCurrent(s, pk, r)
  {
    var n := ProtocolSafety.Count(s.history, pk);
    r := if n == 0 then None else Some(s.rows[(pk, n)]);
  }

  // ----- What a version conflict had behind it -----

  /** The writer's save at this attempt came back, and nothing was stored. */
  ghost predicate Refused(s: State, s': State, i: nat, attempt: nat) {
    i in s.writers && i in s'.writers && s.writers[i].Saving? && s.writers[i].attempt == attempt &&
    !s'.writers[i].Saving? && s'.rows == s.rows && s'.applied == s.applied
  }

  ghost predicate RefusedAt(run: seq<State>, k: int, i: nat, attempt: nat) {
    0 <= k < |run| - 1 && Refused(run[k], run[k + 1], i, attempt)
  }

  ghost predicate RefusedBefore(run: seq<State>, k: int, i: nat) {
    exists a :: 0 <= a < k && RefusedAt(run, a, i, 0)
  }

  ghost predicate RefusedTwice(run: seq<State>, k: int, i: nat) {
    exists a, b :: 0 <= a < b < k && RefusedAt(run, a, i, 0) && RefusedAt(run, b, i, 1)
  }

  /** On the second attempt, which is the last. */
  predicate InRetry(w: Writer) {
    w.Refreshing? || ((w.Reading? || w.Saving?) && w.attempt == 1)
  }

  predicate AttemptOk(w: Writer) {
    w.Reading? || w.Saving? ==> w.attempt <= 1
  }

  predicate InConflict(w: Writer) {
    w.Returned? && w.outcome == Rejected(VersionConflict)
  }

  /** What one step can make of the writer. */
  ghost predicate Comes(s: State, s': State, i: nat)
    requires i in s'.writers
  {
    AttemptOk(s'.writers[i]) &&
    (InRetry(s'.writers[i]) ==> Refused(s, s', i, 0) || (i in s.writers && InRetry(s.writers[i]))) &&
    (InConflict(s'.writers[i]) ==> Refused(s, s', i, 1) || (i in s.writers && InConflict(s.writers[i])))
  }

  lemma QuietComes(e: Engine, s: State, s': State, i: nat, w': Writer)
    requires QuietStep(e, s, s', i, w') && AttemptOk(s.writers[i])
    ensures Comes(s, s', i)
  {
    match s.writers[i]
    case Saving(_, _, _) =>
    case Refreshing(_) =>
    case _ =>
  }

  lemma StepComes(e: Engine, s: State, s': State, i: nat)
    requires Next(e, s, s') && i in s'.writers && (i in s.writers ==> AttemptOk(s.writers[i]))
    ensures Comes(s, s', i)
  {
    var j :| StepOf(e, s, s', j);
    if i == j {
      if SaveStep(s, s', i) {
        assert CommitStep(s, s', i, s'.writers[i]);
      } else if w' :| QuietStep(e, s, s', i, w') {
        QuietComes(e, s, s', i, w');
      } else {
        var req :| StartStep(s, s', i, req);
      }
    } else {
      assert i in s.writers && s'.writers[i] == s.writers[i];
    }
  }

  /** Up to step `k`, a writer is in its retry or reports a conflict with the refusals behind it that this takes. */
  ghost predicate Explained(run: seq<State>, k: int, i: nat)
    requires 0 <= k < |run|
  {
    i in run[k].writers ==>
      AttemptOk(run[k].writers[i]) && (InRetry(run[k].writers[i]) ==> RefusedBefore(run, k, i)) &&
      (InConflict(run[k].writers[i]) ==> RefusedTwice(run, k, i))
  }

  lemma ExplainedNext(run: seq<State>, k: nat, i: nat)
    requires k + 1 < |run| && Explained(run, k, i) && i in run[k + 1].writers && Comes(run[k], run[k + 1], i)
    ensures Explained(run, k + 1, i)
  {
    assert Refused(run[k], run[k + 1], i, 0) ==> RefusedAt(run, k, i, 0);
    assert Refused(run[k], run[k + 1], i, 1) ==> RefusedAt(run, k, i, 1);
  }

  lemma {:induction false} RunExplains(e: Engine, run: seq<State>, k: nat, i: nat)
    requires IsRun(e, run) && k < |run|
    ensures Explained(run, k, i)
  {
    if k > 0 {
      RunExplains(e, run, k - 1, i);
      StepIsNext(e, run, k - 1);
      if i in run[k].writers {
        StepComes(e, run[k - 1], run[k], i);
        ExplainedNext(run, k - 1, i);
      }
    }
  }

  lemma StepIsNext(e: Engine, run: seq<State>, k: nat)
    requires IsRun(e, run) && k + 1 < |run|
    ensures Next(e, run[k], run[k + 1])
  {
  }

  /** A writer that reported a version conflict had its write refused at the first attempt and again, later, at the
      second. */
  lemma ConflictWasRefusedTwice(e: Engine, run: seq<State>, k: nat, i: nat)
    requires IsRun(e, run) && k < |run| && i in run[k].writers && InConflict(run[k].writers[i])
    ensures RefusedTwice(run, k, i)
  {
    RunExplains(e, run, k, i);
  }
}
