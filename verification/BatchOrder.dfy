/** The signals of a batch in their order: what the last one says is what is stored. */
module BatchOrder {
  import opened Json
  import opened Deltas
  import opened Evidence
  import opened Aggregation
  import opened StateReducer
  import DeepMerge

  // ----- The merge of a batch -----

  /** A batch of one is one merge; a payload that is no object is passed over. */
  lemma MergeOne(state: Fields, p: Json)
    ensures MergeAll(state, [p]) == if p.Obj? then DeepMerge.Merge(state, p.fields) else state
  {
    assert [p][..0] == [];
    assert MergeAll(state, []) == state;
  }

  /** A batch merges as its first part and then the rest. */
  lemma {:induction false} MergeAppend(state: Fields, a: seq<Json>, b: seq<Json>)
    ensures MergeAll(state, a + b) == MergeAll(MergeAll(state, a), b)
  {
    if b == [] {
      assert a + b == a;
    } else {
      var n := |b| - 1;
      assert (a + b)[..|a + b| - 1] == a + b[..n];
      MergeAppend(state, a, b[..n]);
    }
  }

  /** The payload has no leaf at, above or below the path. */
  ghost predicate Spares(payload: Json, p: Path) {
    payload.Obj? ==> forall q :: DeepMerge.Leaf(payload, q) ==> !Comparable(q, p)
  }

  lemma {:induction false} SparedByAll(state: Fields, b: seq<Json>, p: Path)
    requires forall x | x in b :: Spares(x, p)
    ensures Get(Obj(MergeAll(state, b)), p) == Get(Obj(state), p)
  {
    if b != [] {
      var n := |b| - 1;
      SparedByAll(state, b[..n], p);
      assert b[n] in b && Spares(b[n], p);
      if b[n].Obj? {
        DeepMerge.OtherPathsAreKept(MergeAll(state, b[..n]), b[n].fields, p);
      }
    }
  }

  /** What the last null-free payload to speak of a path says is what the merge holds there. */
  lemma LastIsMerged(state: Fields, a: seq<Json>, last: Fields, b: seq<Json>, p: Path)
    requires DeepMerge.NullFree(Obj(last)) && Get(Obj(last), p).Some? && !Get(Obj(last), p).value.Obj?
    requires forall x | x in b :: Spares(x, p)
    ensures Get(Obj(MergeAll(state, a + [Obj(last)] + b)), p) == Get(Obj(last), p)
  {
    var before := MergeAll(state, a);
    MergeAppend(state, a + [Obj(last)], b);
    MergeAppend(state, a, [Obj(last)]);
    MergeOne(before, Obj(last));
    DeepMerge.SourceLeafIsRead(before, last, p);
    SparedByAll(DeepMerge.Merge(before, last), b, p);
  }

  // ----- Through counting, promotion and aggregation -----

  /** Not a count, not below one, not a mirrored score and not in the aggregation. */
  predicate Outside(p: Path) {
    p != [] && p[0] !in {AGGREGATION, MASTERY, STABILITY} && (p[0] == SKILLS ==> |p| >= 3 && p[2] != EVIDENCE)
  }

  lemma GetFirst(f: Fields, g: Fields, p: Path)
    requires p != [] && At(f, p[0]) == At(g, p[0])
    ensures Get(Obj(f), p) == Get(Obj(g), p)
  {
  }

  lemma GetEntry(f: Fields, p: Path)
    requires |p| >= 3 && p[0] == SKILLS
    ensures Get(Obj(f), p) ==
            match At(Object(Object(f, SKILLS), p[1]), p[2]) case None => None case Some(v) => Get(v, p[3..])
  {
    var q, r := p[1..], p[2..];
    assert q[1..] == r && r[1..] == p[3..];
    GetStep(Obj(f), p);
    if SKILLS in f {
      GetStep(f[SKILLS], q);
      if f[SKILLS].Obj? && p[1] in f[SKILLS].fields {
        GetStep(f[SKILLS].fields[p[1]], r);
      }
    }
  }

  lemma GetStep(j: Json, p: Path)
    requires p != []
    ensures Get(j, p) == if j.Obj? && p[0] in j.fields then Get(j.fields[p[0]], p[1..]) else None
  {
  }

  lemma CountedKeeps(state: Fields, payloads: seq<Json>, p: Path)
    requires Outside(p)
    ensures Get(Obj(Counted(state, payloads)), p) == Get(Obj(state), p)
  {
    if p[0] == SKILLS {
      CountedElsewhere(state, payloads, MASTERY, p[1], p[2]);
      GetEntry(state, p);
      GetEntry(Counted(state, payloads), p);
    } else {
      EvidenceIsNoScore();
      CountedElsewhere(state, payloads, p[0], "", MASTERY);
      GetFirst(state, Counted(state, payloads), p);
    }
  }

  lemma EvidenceIsNoScore()
    ensures MASTERY != EVIDENCE && MASTERY != SKILLS
  {
    assert MASTERY[0] == 'm' && EVIDENCE[0] == 'e' && SKILLS[0] == 's';
  }

  /** There the new state holds what the merge has left. */
  lemma NewStateAt(prior: Fields, payloads: seq<Json>, config: Option<SubjectConfig>, version: nat, next: Fields,
                   p: Path)
    requires IsNewState(prior, payloads, config, version, next) && Outside(p)
    ensures Get(Obj(next), p) == Get(Obj(MergeAll(prior, payloads)), p)
  {
    var merged := MergeAll(prior, payloads);
    var counted := Counted(merged, payloads);
    CountedKeeps(merged, payloads, p);
    PromotedExactly(counted, p[0]);
    GetFirst(counted, Promoted(counted), p);
    assert At(next, p[0]) == At(Promoted(counted), p[0]);
    GetFirst(Promoted(counted), next, p);
  }

  // ----- Through the deltas -----

  predicate AllBase(p: Path) {
    forall i | 0 <= i < |p| :: Base(p[i])
  }

  lemma TailIsBase(p: Path)
    requires p != [] && AllBase(p)
    ensures Base(p[0]) && AllBase(p[1..])
  {
    forall i | 0 <= i < |p[1..]| ensures Base(p[1..][i]) {
      assert p[1..][i] == p[i + 1];
    }
  }

  /** No object is read at the path. */
  predicate NoObject(f: Fields, p: Path) {
    Get(Obj(f), p).Some? ==> !Get(Obj(f), p).value.Obj?
  }

  lemma {:induction false} SameBaseReads(a: Json, b: Json, p: Path)
    requires SameBase(a, b) && AllBase(p)
    ensures Get(a, p).Some? <==> Get(b, p).Some?
    ensures Get(a, p).Some? ==> SameBase(Get(a, p).value, Get(b, p).value)
    decreases |p|
  {
    if p != [] {
      TailIsBase(p);
      if a.Obj? && b.Obj? && p[0] in a.fields {
        SameBaseReads(a.fields[p[0]], b.fields[p[0]], p[1..]);
      }
    }
  }

  /** Away from companions a value that is no object is stored as the new state has it, and nothing is where it has
      nothing. */
  lemma DeltasKeep(prior: Fields, next: Fields, state: Fields, p: Path)
    requires IsDeltas(prior, next, state) && AllBase(p) && NoObject(next, p)
    ensures Get(Obj(state), p) == Get(Obj(next), p)
  {
    DeltasSameBase(prior, next, state);
    SameBaseReads(Obj(next), Obj(state), p);
  }

  // ----- From payload to stored state -----

  /** The last writer wins: away from counts, mirrored scores, the aggregation and companions, what the last null-free
      payload to speak of a path says there is what is stored there. */
  lemma LastIsStored(prior: Fields, a: seq<Json>, last: Fields, b: seq<Json>, config: Option<SubjectConfig>,
                     version: nat, state: Fields, p: Path)
    requires Applies(prior, a + [Obj(last)] + b, config, version, state)
    requires DeepMerge.NullFree(Obj(last)) && Get(Obj(last), p).Some? && !Get(Obj(last), p).value.Obj?
    requires (forall x | x in b :: Spares(x, p)) && Outside(p) && AllBase(p)
    ensures Get(Obj(state), p) == Get(Obj(last), p)
  {
    var payloads := a + [Obj(last)] + b;
    var next :| IsNewState(prior, payloads, config, version, next) && IsDeltas(prior, next, state);
    LastIsMerged(prior, a, last, b, p);
    NewStateAt(prior, payloads, config, version, next, p);
    DeltasKeep(prior, next, state, p);
  }

  lemma {:induction false} StaysGone(state: Fields, b: seq<Json>, k: string)
    requires k !in state && forall x | x in b :: x.Obj? ==> k !in x.fields
    ensures k !in MergeAll(state, b)
  {
    if b != [] {
      var n := |b| - 1;
      StaysGone(state, b[..n], k);
      assert b[n] in b;
    }
  }

  /** A key that the last payload to mention it sets to null is gone from the stored state. */
  lemma NullIsGone(prior: Fields, a: seq<Json>, last: Fields, b: seq<Json>, config: Option<SubjectConfig>,
                   version: nat, state: Fields, k: string)
    requires Applies(prior, a + [Obj(last)] + b, config, version, state)
    requires At(last, k) == Some(Null) && forall x | x in b :: x.Obj? ==> k !in x.fields
    requires Base(k) && k !in {AGGREGATION, MASTERY, STABILITY, SKILLS}
    ensures k !in state
  {
    var payloads := a + [Obj(last)] + b;
    var next :| IsNewState(prior, payloads, config, version, next) && IsDeltas(prior, next, state);
    var before := MergeAll(prior, a);
    MergeAppend(prior, a + [Obj(last)], b);
    MergeAppend(prior, a, [Obj(last)]);
    MergeOne(before, Obj(last));
    StaysGone(DeepMerge.Merge(before, last), b, k);
    NewStateAt(prior, payloads, config, version, next, [k]);
    DeltasKeep(prior, next, state, [k]);
    GetOne(MergeAll(prior, payloads), k);
    GetOne(state, k);
  }
}
