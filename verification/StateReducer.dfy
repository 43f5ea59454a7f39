/** One batch of signals applied to a state: merge, count, promote, aggregate, then compare with the state before. */
module StateReducer {
  import opened Json
  import opened ForbiddenKeys
  import opened Deltas
  import opened Evidence
  import opened Aggregation
  import DeepMerge

  const COMPUTED_AT := "computed_at_version"

  /** What the merge, the counting and the promotion make of a prior state. */
  function Reduced(prior: Fields, payloads: seq<Json>): Fields {
    Promoted(Counted(MergeAll(prior, payloads), payloads))
  }

  ghost predicate IsNewState(prior: Fields, payloads: seq<Json>, config: Option<SubjectConfig>, version: nat,
                             next: Fields) {
    IsAggregated(Reduced(prior, payloads), config, version, next)
  }

  /** `state` may be stored as version `version` after a batch: the new state with its delta companions. */
  ghost predicate Applies(prior: Fields, payloads: seq<Json>, config: Option<SubjectConfig>, version: nat,
                          state: Fields) {
    exists next :: IsNewState(prior, payloads, config, version, next) && IsDeltas(prior, next, state)
  }

  lemma AppliesFollows(prior: Fields, payloads: seq<Json>, config: Option<SubjectConfig>, version: nat, state: Fields)
    requires Applies(prior, payloads, config, version, state)
    ensures exists next :: IsDeltas(prior, next, state)
  {
  }

  method PromoteDominantSkillScores(state: Fields) returns (newState: Fields)
    ensures newState == Promoted(state)
  {
    newState := state;
    if SKILL !in state || !state[SKILL].Str? || state[SKILL].s == "" {
      return;
    }
    var scores := Object(Object(state, SKILLS), state[SKILL].s);
    if Numeric(scores, MASTERY) {
      newState := newState[MASTERY := scores[MASTERY]];
    }
    if Numeric(scores, STABILITY) {
      newState := newState[STABILITY := scores[STABILITY]];
    }
  }

  method ComputeNewState(prior: Fields, payloads: seq<Json>, config: Option<SubjectConfig>, version: nat)
      returns (next: Fields)
    ensures IsNewState(prior, payloads, config, version, next)
  {
    var state := prior;
    for i := 0 to |payloads|
      invariant state == MergeAll(prior, payloads[..i])
    {
      assert payloads[..i + 1][..i] == payloads[..i];
      if payloads[i].Obj? {
        state := DeepMerge.Run(state, payloads[i].fields);
      }
    }
    assert payloads[..|payloads|] == payloads;
    state := IncrementSkillEvidenceCounts(state, payloads);
    state := PromoteDominantSkillScores(state);
    next := ComputeLearnerAggregation(state, config, version);
  }

  /** The state to store: new state, then deltas. */
  method ComputeState(prior: Fields, payloads: seq<Json>, config: Option<SubjectConfig>, version: nat)
      returns (state: Fields)
    ensures Applies(prior, payloads, config, version, state)
  {
    var next := ComputeNewState(prior, payloads, config, version);
    state := ComputeStateDeltas(prior, next);
  }

  /** A payload that speaks of no skill, over a state that knows of none, is merged and that is all. */
  lemma PlainNewState(prior: Fields, m: Fields, config: Option<SubjectConfig>, version: nat, next: Fields)
    requires SKILLS !in prior && SKILL !in prior && SKILLS !in m && SKILL !in m
    ensures IsNewState(prior, [Obj(m)], config, version, next) <==> next == DeepMerge.Merge(prior, m) - {AGGREGATION}
  {
    var one := [Obj(m)];
    assert one[..0] == [];
    assert MergeAll(prior, []) == prior;
    var merged := DeepMerge.Merge(prior, m);
    assert MergeAll(prior, one) == merged;
    assert Scored(Obj(m)) == {};
    assert Counted(merged, []) == merged;
    assert Counted(merged, one) == CountOne(merged, Obj(m));
    assert Table(map[], config) == map[];
  }

  // ----- Closure under the forbidden-key check -----

  /** How the engine's own keys begin; no forbidden key begins so. */
  predicate BeginsLikeEngineKey(s: string) {
    |s| >= 5 &&
    ((s[0] == 's' && (s[1] == 'k' || s[1] == 'u' || (s[1] == 't' && (s[3] == 'b' || s[3] == 'o')))) ||
     (s[0] == 'c' && s[1] == 'o' && s[4] == 'u') || (s[0] == 'm' && s[1] == 'a') || (s[0] == 'e' && s[1] == 'v') ||
     (s[0] == 'a' && s[1] == 'g') || (s[0] == 'o' && s[1] == 'v') || (s[0] == 'w' && s[1] == 'e'))
  }

  lemma NoPiiBeginsSo()
    ensures forall k | k in PII_KEYS :: !BeginsLikeEngineKey(k)
  {
    assert forall i | 0 <= i < |PII_KEYS| :: !BeginsLikeEngineKey(PII_KEYS[i]);
  }

  lemma NoSemanticBeginsSo()
    ensures forall k | k in SEMANTIC_KEYS :: !BeginsLikeEngineKey(k)
  {
    assert forall i | 0 <= i < |SEMANTIC_KEYS| :: !BeginsLikeEngineKey(SEMANTIC_KEYS[i]);
  }

  lemma KeyIsAllowed(k: string)
    requires BeginsLikeEngineKey(k)
    ensures !Forbidden(k)
  {
    NoPiiBeginsSo();
    NoSemanticBeginsSo();
  }

  /** Writing an allowed key into a clean object leaves it as clean as the value. */
  lemma PutClean(m: Fields, k: string, v: Json)
    requires Clean(Obj(m)) && !Forbidden(k)
    ensures Clean(Obj(m[k := v])) <==> Clean(v)
  {
    assert m[k := v][k] == v;
  }

  lemma {:induction false} MergeClean(target: Fields, source: Fields)
    requires Clean(Obj(target)) && Clean(Obj(source))
    ensures Clean(Obj(DeepMerge.Merge(target, source)))
    decreases Obj(source)
  {
    var m := DeepMerge.Merge(target, source);
    forall k | k in m ensures !Forbidden(k) && Clean(m[k]) {
      if k in source && source[k].Obj? && k in target && target[k].Obj? {
        MergeClean(target[k].fields, source[k].fields);
      }
    }
  }

  lemma {:induction false} MergeAllClean(state: Fields, payloads: seq<Json>)
    requires Clean(Obj(state)) && forall p | p in payloads :: Clean(p)
    ensures Clean(Obj(MergeAll(state, payloads)))
  {
    if payloads != [] {
      var n := |payloads| - 1;
      MergeAllClean(state, payloads[..n]);
      assert Clean(payloads[n]);
      if payloads[n].Obj? {
        MergeClean(MergeAll(state, payloads[..n]), payloads[n].fields);
      }
    }
  }

  lemma BumpedClean(entry: Fields)
    requires Clean(Obj(entry))
    ensures Clean(Bumped(entry))
  {
    KeyIsAllowed(EVIDENCE);
    PutClean(entry, EVIDENCE, Num((CountOf(entry) + 1) as real));
  }

  lemma BumpedSkillsClean(skills: Fields, scored: set<string>)
    requires Clean(Obj(skills)) && forall k | k in scored :: !Forbidden(k)
    ensures Clean(Obj(BumpedSkills(skills, scored)))
  {
    forall k | k in scored ensures Clean(Bumped(Object(skills, k))) {
      BumpedClean(Object(skills, k));
    }
  }

  lemma CountOneClean(state: Fields, payload: Json)
    requires Clean(Obj(state)) && forall k | k in Scored(payload) :: !Forbidden(k)
    ensures Clean(Obj(CountOne(state, payload)))
  {
    BumpedSkillsClean(Object(state, SKILLS), Scored(payload));
    KeyIsAllowed(SKILLS);
    PutClean(state, SKILLS, Obj(BumpedSkills(Object(state, SKILLS), Scored(payload))));
  }

  /** No payload of the batch scores a skill whose name is forbidden. */
  ghost predicate SkillNamesAllowed(payloads: seq<Json>) {
    forall k | Tally(payloads, k) > 0 :: !Forbidden(k)
  }

  lemma {:induction false} CountedHasSkill(state: Fields, payloads: seq<Json>, k: string)
    requires Tally(payloads, k) > 0
    ensures k in Object(Counted(state, payloads), SKILLS)
  {
    var n := |payloads| - 1;
    if k !in Scored(payloads[n]) {
      CountedHasSkill(state, payloads[..n], k);
    }
  }

  lemma {:induction false} CountedClean(state: Fields, payloads: seq<Json>)
    requires Clean(Obj(state)) && SkillNamesAllowed(payloads)
    ensures Clean(Obj(Counted(state, payloads)))
  {
    if payloads != [] {
      var n := |payloads| - 1;
      forall k | Tally(payloads[..n], k) > 0 ensures !Forbidden(k) {
        assert Tally(payloads, k) > 0;
      }
      CountedClean(state, payloads[..n]);
      forall k | k in Scored(payloads[n]) ensures !Forbidden(k) {
        assert Tally(payloads, k) > 0;
      }
      CountOneClean(Counted(state, payloads[..n]), payloads[n]);
    }
  }

  lemma PromoteOneClean(state: Fields, scores: Fields, field: string)
    requires Clean(Obj(state)) && !Forbidden(field)
    ensures Clean(Obj(PromoteOne(state, scores, field)))
  {
    if Numeric(scores, field) {
      PutClean(state, field, scores[field]);
    }
  }

  lemma PromotedClean(state: Fields)
    requires Clean(Obj(state))
    ensures Clean(Obj(Promoted(state)))
  {
    KeyIsAllowed(MASTERY);
    KeyIsAllowed(STABILITY);
    if SKILL in state && state[SKILL].Str? {
      var scores := Object(Object(state, SKILLS), state[SKILL].s);
      PromoteOneClean(state, scores, MASTERY);
      PromoteOneClean(PromoteOne(state, scores, MASTERY), scores, STABILITY);
    }
  }

  lemma PromotedSkills(state: Fields)
    ensures Object(Promoted(state), SKILLS) == Object(state, SKILLS)
  {
  }

  ghost predicate SubjectNamesAllowed(t: map<string, SkillInfo>) {
    forall s | s in Subjects(t) :: !Forbidden(s)
  }

  lemma AllAllowed(keys: seq<string>)
    requires forall i | 0 <= i < |keys| :: BeginsLikeEngineKey(keys[i])
    ensures forall k | k in keys :: !Forbidden(k)
  {
    forall k | k in keys ensures !Forbidden(k) {
      KeyIsAllowed(k);
    }
  }

  /** An object of clean values under allowed keys. */
  lemma ObjectClean(f: Fields)
    requires forall k | k in f :: !Forbidden(k)
    ensures Clean(Obj(f)) <==> forall k | k in f :: Clean(f[k])
  {
  }

  lemma SubjectJsonClean(e: SubjectEntry)
    ensures Clean(SubjectJson(e))
  {
    AllAllowed([MASTERY, "skill_count", "strongest_skill", "weakest_skill", "skills", STABILITY]);
    ObjectClean(SubjectJson(e).fields);
  }

  lemma OverallJsonClean(o: Overall)
    ensures Clean(OverallJson(o))
  {
    AllAllowed([MASTERY, "subject_count", "skill_count", STABILITY]);
    ObjectClean(OverallJson(o).fields);
  }

  lemma SkillJsonClean(e: SkillInfo)
    ensures Clean(SkillJson(e))
  {
    AllAllowed(["subject", MASTERY, "masteryScore_direction", EVIDENCE, STABILITY]);
    ObjectClean(SkillJson(e).fields);
  }

  lemma SubjectsJsonClean(subjects: map<string, SubjectEntry>)
    ensures Clean(Obj(map s | s in subjects :: SubjectJson(subjects[s]))) <==> forall s | s in subjects :: !Forbidden(s)
  {
    forall s | s in subjects ensures Clean(SubjectJson(subjects[s])) { SubjectJsonClean(subjects[s]); }
  }

  lemma SkillsJsonClean(skills: map<string, SkillInfo>)
    requires forall id | id in skills :: !Forbidden(id)
    ensures Clean(Obj(map id | id in skills :: SkillJson(skills[id])))
  {
    forall id | id in skills ensures Clean(SkillJson(skills[id])) { SkillJsonClean(skills[id]); }
  }

  lemma FourPutsClean(k1: string, v1: Json, k2: string, v2: Json, k3: string, v3: Json, k4: string, v4: Json)
    requires !Forbidden(k1) && !Forbidden(k2) && !Forbidden(k3) && !Forbidden(k4)
    requires Clean(v1) && Clean(v2) && Clean(v4) && k1 != k3 && k2 != k3 && k3 != k4
    ensures Clean(Obj(map[k1 := v1, k2 := v2, k3 := v3, k4 := v4])) <==> Clean(v3)
  {
    var three := map[k1 := v1, k2 := v2, k4 := v4];
    ThreePutsClean(k1, v1, k2, v2, k4, v4);
    PutClean(three, k3, v3);
    assert map[k1 := v1, k2 := v2, k3 := v3, k4 := v4] == three[k3 := v3];
  }

  lemma ThreePutsClean(k1: string, v1: Json, k2: string, v2: Json, k4: string, v4: Json)
    requires !Forbidden(k1) && !Forbidden(k2) && !Forbidden(k4) && Clean(v1) && Clean(v2) && Clean(v4)
    ensures Clean(Obj(map[k1 := v1, k2 := v2, k4 := v4]))
  {
  }

  lemma ToJsonClean(a: Aggregation)
    requires forall id | id in a.skills :: !Forbidden(id)
    ensures Clean(ToJson(a)) <==> forall s | s in a.subjects :: !Forbidden(s)
  {
    OverallJsonClean(a.overall);
    SubjectsJsonClean(a.subjects);
    SkillsJsonClean(a.skills);
    KeyIsAllowed("computed_at_version");
    KeyIsAllowed("overall");
    KeyIsAllowed("subjects");
    KeyIsAllowed("skills");
    FourPutsClean("computed_at_version", Num(a.version as real), "overall", OverallJson(a.overall),
                  "subjects", Obj(map s | s in a.subjects :: SubjectJson(a.subjects[s])),
                  "skills", Obj(map id | id in a.skills :: SkillJson(a.skills[id])));
  }

  lemma AggregatedClean(state: Fields, config: Option<SubjectConfig>, version: nat, r: Fields)
    requires Clean(Obj(state)) && IsAggregated(state, config, version, r)
    ensures Clean(Obj(r)) <==> SubjectNamesAllowed(Table(Object(state, SKILLS), config))
  {
    var t := Table(Object(state, SKILLS), config);
    SkillNamesClean(state, t, config);
    if t == map[] {
      RemoveClean(state, AGGREGATION);
    } else {
      var a := AggregatedAs(state, config, version, r);
      AggregationClean(t, version, a);
      AggregationIsAllowed();
      PutClean(state, AGGREGATION, ToJson(a));
    }
  }

  lemma AggregatedAs(state: Fields, config: Option<SubjectConfig>, version: nat, r: Fields) returns (a: Aggregation)
    requires IsAggregated(state, config, version, r) && Table(Object(state, SKILLS), config) != map[]
    ensures AggregationOk(Table(Object(state, SKILLS), config), version, a) && r == state[AGGREGATION := ToJson(a)]
  {
    a :| AggregationOk(Table(Object(state, SKILLS), config), version, a) && r == state[AGGREGATION := ToJson(a)];
  }

  lemma AggregationIsAllowed()
    ensures !Forbidden(AGGREGATION)
  {
    KeyIsAllowed(AGGREGATION);
  }

  lemma RemoveClean(m: Fields, k: string)
    requires Clean(Obj(m))
    ensures Clean(Obj(m - {k}))
  {
  }

  lemma AggregationClean(t: map<string, SkillInfo>, version: nat, a: Aggregation)
    requires AggregationOk(t, version, a) && forall id | id in t :: !Forbidden(id)
    ensures Clean(ToJson(a)) <==> SubjectNamesAllowed(t)
  {
    ToJsonClean(a);
  }

  lemma SkillNamesClean(state: Fields, t: map<string, SkillInfo>, config: Option<SubjectConfig>)
    requires Clean(Obj(state)) && t == Table(Object(state, SKILLS), config)
    ensures forall id | id in t :: !Forbidden(id)
  {
    if SKILLS in state {
      assert Clean(state[SKILLS]);
    }
  }

  /** From a clean state and clean payloads the new state passes the check exactly when the batch scores no
      skill, and the scored skills fall under no subject, whose name is a forbidden key. */
  lemma NewStateClean(prior: Fields, payloads: seq<Json>, config: Option<SubjectConfig>, version: nat, next: Fields)
    requires Clean(Obj(prior)) && forall p | p in payloads :: Clean(p)
    requires IsNewState(prior, payloads, config, version, next)
    ensures Clean(Obj(next)) <==>
            SkillNamesAllowed(payloads) && SubjectNamesAllowed(Table(Object(Reduced(prior, payloads), SKILLS), config))
  {
    var merged := MergeAll(prior, payloads);
    var counted := Counted(merged, payloads);
    MergeAllClean(prior, payloads);
    if SkillNamesAllowed(payloads) {
      CountedClean(merged, payloads);
      PromotedClean(counted);
      AggregatedClean(Reduced(prior, payloads), config, version, next);
    } else {
      var k :| Tally(payloads, k) > 0 && Forbidden(k);
      CountedHasSkill(merged, payloads, k);
      PromotedSkills(counted);
      assert At(next, SKILLS) == At(Reduced(prior, payloads), SKILLS);
      assert !Clean(next[SKILLS]);
    }
  }

  /** Closure: what is stored is then accepted by the state validator, companions included. */
  lemma StoredStateClean(prior: Fields, payloads: seq<Json>, config: Option<SubjectConfig>, version: nat, state: Fields)
    requires Clean(Obj(prior)) && forall p | p in payloads :: Clean(p)
    requires SkillNamesAllowed(payloads) && SubjectNamesAllowed(Table(Object(Reduced(prior, payloads), SKILLS), config))
    requires Applies(prior, payloads, config, version, state)
    ensures Clean(Obj(state))
  {
    var next :| IsNewState(prior, payloads, config, version, next) && IsDeltas(prior, next, state);
    NewStateClean(prior, payloads, config, version, next);
  }

  // ----- The version an aggregation says it was computed at -----

  /** The stored aggregation carries the version it was computed for: the delta passes leave it alone. */
  lemma ComputedAtVersion(prior: Fields, payloads: seq<Json>, config: Option<SubjectConfig>, version: nat,
                          state: Fields)
    requires Applies(prior, payloads, config, version, state)
    ensures AGGREGATION in state ==> Get(Obj(state), [AGGREGATION, COMPUTED_AT]) == Some(Num(version as real))
  {
    var next :| IsNewState(prior, payloads, config, version, next) && IsDeltas(prior, next, state);
    AggregationIsNoCompanion();
    assert At(state, AGGREGATION) == Flat(prior, next, AGGREGATION) == At(next, AGGREGATION);
    if AGGREGATION in state {
      AggregatedAtVersion(Reduced(prior, payloads), config, version, next);
      TwoSteps(Obj(state), AGGREGATION, COMPUTED_AT);
    }
  }

  lemma AggregationIsNoCompanion()
    ensures Base(AGGREGATION)
  {
    var n := |AGGREGATION|;
    assert AGGREGATION[n - 6..][0] != DELTA[0] && AGGREGATION[n - 10..][0] != DIRECTION[0];
  }

  lemma TwoSteps(j: Json, k: string, l: string)
    ensures Get(j, [k, l]) == if j.Obj? && k in j.fields && j.fields[k].Obj? then At(j.fields[k].fields, l) else None
  {
    assert [k, l][1..] == [l];
    if j.Obj? && k in j.fields && j.fields[k].Obj? {
      GetOne(j.fields[k].fields, l);
    }
  }

  lemma AggregatedAtVersion(state: Fields, config: Option<SubjectConfig>, version: nat, next: Fields)
    requires IsAggregated(state, config, version, next) && AGGREGATION in next
    ensures next[AGGREGATION].Obj? && At(next[AGGREGATION].fields, COMPUTED_AT) == Some(Num(version as real))
  {
    var a := AggregatedAs(state, config, version, next);
    ToJsonVersion(a);
  }

  lemma ToJsonVersion(a: Aggregation)
    ensures At(ToJson(a).fields, COMPUTED_AT) == Some(Num(a.version as real))
  {
    assert COMPUTED_AT[0] == 'c' && "overall"[0] == 'o' && "subjects"[0] == "skills"[0] == 's';
    FirstOfFour(COMPUTED_AT, Num(a.version as real), "overall", OverallJson(a.overall),
                "subjects", Obj(map s | s in a.subjects :: SubjectJson(a.subjects[s])),
                "skills", Obj(map id | id in a.skills :: SkillJson(a.skills[id])));
  }

  lemma FirstOfFour(k1: string, v1: Json, k2: string, v2: Json, k3: string, v3: Json, k4: string, v4: Json)
    requires k1 !in {k2, k3, k4}
    ensures At(map[k1 := v1, k2 := v2, k3 := v3, k4 := v4], k1) == Some(v1)
  {
  }

  // ----- Evidence over a batch, as stored -----

  /** The skills object a batch makes of a prior state, before the delta passes. */
  function SkillsAfter(prior: Fields, payloads: seq<Json>): Fields {
    Object(Reduced(prior, payloads), SKILLS)
  }

  /** After a batch whose payloads leave the skill's count alone, the stored count is the old one plus the number
      of payloads that score the skill, or nothing. It is never lost by a skill that stands: one named like the
      companion of another loses its entry when that other one is a number on both sides, or goes away. */
  lemma StoredCount(prior: Fields, payloads: seq<Json>, config: Option<SubjectConfig>, version: nat, state: Fields,
                    skill: string)
    requires Applies(prior, payloads, config, version, state)
    requires forall p | p in payloads :: LeavesCount(p, skill)
    ensures var expected := EvidenceCount(prior, skill) + Tally(payloads, skill);
            var p, n := Object(prior, SKILLS), SkillsAfter(prior, payloads);
            EvidenceCount(state, skill) in {expected, 0} &&
            (Stands(p, n, skill) ==> EvidenceCount(state, skill) == expected) &&
            (!Stands(p, n, skill) && OwnerStands(p, n, skill) ==> EvidenceCount(state, skill) == 0)
  {
    var next :| IsNewState(prior, payloads, config, version, next) && IsDeltas(prior, next, state);
    var merged := MergeAll(prior, payloads);
    MergeKeepsCount(prior, payloads, skill);
    CountedConserves(merged, payloads, skill);
    PromotedSkills(Counted(merged, payloads));
    assert Object(next, SKILLS) == SkillsAfter(prior, payloads);
    DeltasOnCount(prior, next, state, skill);
  }

  /** While the owners of the skill are objects and stay, the skill stands through the batch. */
  lemma OwnersThroughBatch(prior: Fields, payloads: seq<Json>, skill: string)
    requires OwnersAreObjects(Object(prior, SKILLS), skill)
    requires forall p | p in payloads :: LeavesCount(p, skill) && LeavesOwners(p, skill)
    ensures OwnersAreObjects(SkillsAfter(prior, payloads), skill) &&
            OwnersStay(Object(prior, SKILLS), SkillsAfter(prior, payloads), skill)
    ensures Stands(Object(prior, SKILLS), SkillsAfter(prior, payloads), skill)
  {
    var merged := MergeAll(prior, payloads);
    MergeAllKeepsOwners(prior, payloads, skill);
    CountedKeepsOwners(merged, payloads, skill);
    PromotedSkills(Counted(merged, payloads));
    OwnersStayTransitive(Object(prior, SKILLS), Object(merged, SKILLS), SkillsAfter(prior, payloads), skill);
    ObjectsStand(Object(prior, SKILLS), SkillsAfter(prior, payloads), skill);
  }

  lemma StoredOwners(prior: Fields, payloads: seq<Json>, config: Option<SubjectConfig>, version: nat, state: Fields,
                     skill: string)
    requires Applies(prior, payloads, config, version, state) && OwnersAreObjects(Object(prior, SKILLS), skill)
    requires forall p | p in payloads :: LeavesCount(p, skill) && LeavesOwners(p, skill)
    ensures OwnersAreObjects(Object(state, SKILLS), skill)
  {
    var next :| IsNewState(prior, payloads, config, version, next) && IsDeltas(prior, next, state);
    NewSkills(prior, payloads, config, version, next);
    OwnersThroughBatch(prior, payloads, skill);
    DeltasKeepOwners(prior, next, state, skill);
  }

  /** `skills.math` goes from 1 to 2 while `skills.math_delta` is scored for the first time: the delta of the
      one takes the place of the other, and its count is lost. */
  lemma CompanionNamedSkillIsLost(config: Option<SubjectConfig>, version: nat, state: Fields)
    requires var prior: Fields := map["skills" := Obj(map["math" := Num(1.0)])];
             var payload := Obj(map["skills" := Obj(map["math" := Num(2.0),
                                                        "math_delta" := Obj(map["masteryScore" := Num(0.5)])])]);
             Applies(prior, [payload], config, version, state)
    ensures EvidenceCount(state, "math_delta") == 0
  {
    var prior: Fields := map["skills" := Obj(map["math" := Num(1.0)])];
    var entry := Obj(map["masteryScore" := Num(0.5)]);
    var skills: Fields := map["math" := Num(2.0), "math_delta" := entry];
    var payload := Obj(map["skills" := Obj(skills)]);
    MathStandsAlone(prior, payload, skills);
    assert forall p | p in [payload] :: p == payload;
    StoredCount(prior, [payload], config, version, state, "math_delta");
  }

  lemma MathStandsAlone(prior: Fields, payload: Json, skills: Fields)
    requires prior == map["skills" := Obj(map["math" := Num(1.0)])] && payload == Obj(map["skills" := Obj(skills)])
    requires skills == map["math" := Num(2.0), "math_delta" := Obj(map["masteryScore" := Num(0.5)])]
    ensures LeavesCount(payload, "math_delta")
    ensures OwnerStands(Object(prior, SKILLS), SkillsAfter(prior, [payload]), "math_delta")
    ensures !Stands(Object(prior, SKILLS), SkillsAfter(prior, [payload]), "math_delta")
  {
    assert "math" + DELTA == "math_delta";
    OwnerIs("math", "math_delta");
    MathIsBase();
    MathAfter(prior, payload, skills);
    assert "masteryScore"[0] != EVIDENCE[0];
    assert payload.fields[SKILLS] == Obj(skills);
  }

  lemma MathIsBase()
    ensures Base("math")
  {
  }

  lemma MathAfter(prior: Fields, payload: Json, skills: Fields)
    requires prior == map["skills" := Obj(map["math" := Num(1.0)])] && payload == Obj(map["skills" := Obj(skills)])
    requires skills == map["math" := Num(2.0), "math_delta" := Obj(map["masteryScore" := Num(0.5)])]
    ensures At(SkillsAfter(prior, [payload]), "math") == Some(Num(2.0))
  {
    var one := [payload];
    assert one[..0] == [];
    assert MergeAll(prior, []) == prior;
    var merged := DeepMerge.Merge(prior, payload.fields);
    assert MergeAll(prior, one) == merged;
    assert merged[SKILLS] == Obj(DeepMerge.Merge(prior[SKILLS].fields, skills));
    assert Object(merged, SKILLS)["math"] == Num(2.0);
    assert "math" !in Scored(payload);
    assert Counted(merged, []) == merged;
    assert Counted(merged, one) == CountOne(merged, payload);
    PromotedSkills(CountOne(merged, payload));
  }

  // ----- The dominant skill, as stored -----

  lemma TopLevelIsBase()
    ensures Base(SKILL) && Base(SKILLS) && Base(MASTERY) && Base(STABILITY)
  {
  }

  lemma TopLevelKept(prior: Fields, next: Fields, state: Fields, field: string)
    requires IsDeltas(prior, next, state) && Base(field) && field != AGGREGATION
    ensures field in state && !state[field].Obj? ==> At(next, field) == At(state, field)
    ensures field in next && !next[field].Obj? ==> At(next, field) == At(state, field)
  {
    if BothObjects(prior, next, field) {
      assert field in state && state[field].Obj?;
    } else {
      assert At(state, field) == Flat(prior, next, field);
    }
  }

  /** In a new state the scores at the top level are the dominant skill's. */
  lemma NewStateMirrors(prior: Fields, payloads: seq<Json>, config: Option<SubjectConfig>, version: nat, next: Fields,
                        field: string)
    requires IsNewState(prior, payloads, config, version, next) && field in [MASTERY, STABILITY]
    requires Numeric(DominantScores(next), field)
    ensures At(next, field) == At(DominantScores(next), field)
  {
    var counted := Counted(MergeAll(prior, payloads), payloads);
    AggregationIsItsOwn();
    OtherKeysAreNotScores();
    assert At(next, SKILL) == At(Promoted(counted), SKILL);
    assert At(next, SKILLS) == At(Promoted(counted), SKILLS);
    assert At(next, field) == At(Promoted(counted), field);
    PromotedTwice(counted);
    PromotedExactly(counted, field);
  }

  lemma AggregationIsItsOwn()
    ensures AGGREGATION !in [SKILL, SKILLS, MASTERY, STABILITY]
  {
    assert AGGREGATION[0] == 'a' && SKILL[0] == SKILLS[0] == STABILITY[0] == 's' && MASTERY[0] == 'm';
  }

  lemma DeltasKeepMirror(prior: Fields, next: Fields, state: Fields, field: string)
    requires IsDeltas(prior, next, state) && field in [MASTERY, STABILITY]
    requires SKILL in state && state[SKILL].Str? && Numeric(DominantScores(state), field)
    ensures At(DominantScores(next), field) == At(DominantScores(state), field)
    ensures At(next, field) == At(DominantScores(next), field) ==> At(state, field) == At(next, field)
  {
    TopLevelIsBase();
    AggregationIsItsOwn();
    TopLevelKept(prior, next, state, SKILL);
    DeltasOnEntry(prior, next, state, state[SKILL].s, field);
    TopLevelKept(prior, next, state, field);
  }

  lemma NewSkills(prior: Fields, payloads: seq<Json>, config: Option<SubjectConfig>, version: nat, next: Fields)
    requires IsNewState(prior, payloads, config, version, next)
    ensures Object(next, SKILLS) == SkillsAfter(prior, payloads)
  {
    AggregationIsItsOwn();
  }

  /** In every stored state that names a dominant skill with a score, mastery or stability, the score at the top
      level is that score. */
  lemma StoredScoreMirrors(prior: Fields, payloads: seq<Json>, config: Option<SubjectConfig>, version: nat,
                           state: Fields, field: string)
    requires Applies(prior, payloads, config, version, state) && field in [MASTERY, STABILITY]
    requires SKILL in state && state[SKILL].Str?
    requires Numeric(DominantScores(state), field)
    ensures At(state, field) == At(DominantScores(state), field)
  {
    var next :| IsNewState(prior, payloads, config, version, next) && IsDeltas(prior, next, state);
    NewSkills(prior, payloads, config, version, next);
    DeltasKeepMirror(prior, next, state, field);
    NewStateMirrors(prior, payloads, config, version, next, field);
  }
}
