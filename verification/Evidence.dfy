/** Evidence counting per skill, and the promotion of the dominant skill's scores. */
module Evidence {
  import opened Json
  import opened Deltas
  import DeepMerge

  const SKILLS := "skills"
  const SKILL := "skill"
  const MASTERY := "masteryScore"
  const STABILITY := "stabilityScore"
  const EVIDENCE := "evidenceCount"

  function Object(m: Fields, k: string): Fields {
    if k in m && m[k].Obj? then m[k].fields else map[]
  }

  predicate HasScore(entry: Json) {
    entry.Obj? && Numeric(entry.fields, MASTERY)
  }

  /** The skills a payload carries a score for: its scored entries, and the skill it names when the score
      stands at the top level. */
  function Scored(payload: Json): set<string> {
    if !payload.Obj? then {}
    else
      var skills := Object(payload.fields, SKILLS);
      (set k | k in skills && HasScore(skills[k])) +
      if Numeric(payload.fields, MASTERY) && SKILL in payload.fields && payload.fields[SKILL].Str? &&
         payload.fields[SKILL].s != ""
      then {payload.fields[SKILL].s} else {}
  }

  /** How many of the payloads carry a score for `skill`. */
  function Tally(payloads: seq<Json>, skill: string): nat {
    if payloads == [] then 0
    else Tally(payloads[..|payloads| - 1], skill) + if skill in Scored(payloads[|payloads| - 1]) then 1 else 0
  }

  /** A stored count is read as a whole number, anything else as none. */
  function CountOf(entry: Fields): int {
    if Numeric(entry, EVIDENCE) then entry[EVIDENCE].n.Floor else 0
  }

  function EvidenceCount(state: Fields, skill: string): int {
    CountOf(Object(Object(state, SKILLS), skill))
  }

  function Bumped(entry: Fields): Json {
    Obj(entry[EVIDENCE := Num((CountOf(entry) + 1) as real)])
  }

  function BumpedSkills(skills: Fields, scored: set<string>): Fields {
    map k | k in skills.Keys + scored :: if k in scored then Bumped(Object(skills, k)) else skills[k]
  }

  function CountOne(state: Fields, payload: Json): Fields {
    if Scored(payload) == {} then state
    else state[SKILLS := Obj(BumpedSkills(Object(state, SKILLS), Scored(payload)))]
  }

  function Counted(state: Fields, payloads: seq<Json>): Fields {
    if payloads == [] then state
    else CountOne(Counted(state, payloads[..|payloads| - 1]), payloads[|payloads| - 1])
  }

  /** Conservation over one batch: a count becomes what it was plus one for each payload that scores it. */
  lemma {:induction false} CountedConserves(state: Fields, payloads: seq<Json>, skill: string)
    ensures EvidenceCount(Counted(state, payloads), skill) == EvidenceCount(state, skill) + Tally(payloads, skill)
  {
    if payloads != [] {
      var n := |payloads| - 1;
      CountedConserves(state, payloads[..n], skill);
      CountOneConserves(Counted(state, payloads[..n]), payloads[n], skill);
    }
  }

  lemma CountOneConserves(state: Fields, payload: Json, skill: string)
    ensures EvidenceCount(CountOne(state, payload), skill)
            == EvidenceCount(state, skill) + if skill in Scored(payload) then 1 else 0
  {
    var skills := Object(state, SKILLS);
    if Scored(payload) != {} {
      assert Object(CountOne(state, payload), SKILLS) == BumpedSkills(skills, Scored(payload));
    }
  }

  /** Counting touches nothing but the counts: every other key of the state, and every other member of a
      skill's entry, reads as before. */
  lemma {:induction false} CountedElsewhere(state: Fields, payloads: seq<Json>, key: string, skill: string,
                                            field: string)
    requires key != SKILLS && field != EVIDENCE
    ensures At(Counted(state, payloads), key) == At(state, key)
    ensures At(Object(Object(Counted(state, payloads), SKILLS), skill), field) ==
            At(Object(Object(state, SKILLS), skill), field)
  {
    if payloads != [] {
      var n := |payloads| - 1;
      var before := Counted(state, payloads[..n]);
      CountedElsewhere(state, payloads[..n], key, skill, field);
      if Scored(payloads[n]) != {} {
        assert Object(CountOne(before, payloads[n]), SKILLS) ==
               BumpedSkills(Object(before, SKILLS), Scored(payloads[n]));
      }
    }
  }

  /** The program's loops: one signal after the other, and the skills of a signal in any order. */
  method IncrementSkillEvidenceCounts(state: Fields, payloads: seq<Json>) returns (newState: Fields)
    ensures newState == Counted(state, payloads)
  {
    newState := state;
    for i := 0 to |payloads|
      invariant newState == Counted(state, payloads[..i])
    {
      assert payloads[..i + 1][..i] == payloads[..i];
      var toIncrement := Scored(payloads[i]);
      if toIncrement != {} {
        var skills := BumpSkills(Object(newState, SKILLS), toIncrement);
        newState := newState[SKILLS := Obj(skills)];
      }
    }
    assert payloads[..|payloads|] == payloads;
  }

  method BumpSkills(skills: Fields, toIncrement: set<string>) returns (result: Fields)
    ensures result == BumpedSkills(skills, toIncrement)
  {
    result := skills;
    var left := toIncrement;
    while left != {}
      invariant left <= toIncrement
      invariant forall k :: At(result, k) == At(BumpedSkills(skills, toIncrement - left), k)
    {
      var skillId :| skillId in left;
      ghost var done := toIncrement - left;
      left := left - {skillId};
      assert toIncrement - left == done + {skillId};
      assert At(result, skillId) == At(BumpedSkills(skills, done), skillId) == At(skills, skillId);
      var entry := Object(result, skillId);
      assert entry == Object(skills, skillId);
      forall k | k != skillId
        ensures At(BumpedSkills(skills, done + {skillId}), k) == At(BumpedSkills(skills, done), k)
      {}
      result := result[skillId := Obj(entry[EVIDENCE := Num((CountOf(entry) + 1) as real)])];
    }
    assert toIncrement - left == toIncrement;
    SameFields(result, BumpedSkills(skills, toIncrement));
  }

  // ----- Promotion -----

  function PromoteOne(state: Fields, scores: Fields, field: string): Fields {
    if Numeric(scores, field) then state[field := scores[field]] else state
  }

  /** The dominant skill's scores are mirrored at the top level. */
  function Promoted(state: Fields): Fields {
    if SKILL in state && state[SKILL].Str? && state[SKILL].s != "" then
      var scores := Object(Object(state, SKILLS), state[SKILL].s);
      PromoteOne(PromoteOne(state, scores, MASTERY), scores, STABILITY)
    else state
  }

  // ----- Over a run -----

  /** The payload neither sets the skill's count nor removes or replaces the skill. */
  predicate LeavesCount(payload: Json, skill: string) {
    payload.Obj? && SKILLS in payload.fields ==>
      payload.fields[SKILLS].Obj? &&
      (skill in payload.fields[SKILLS].fields ==>
         payload.fields[SKILLS].fields[skill].Obj? && EVIDENCE !in payload.fields[SKILLS].fields[skill].fields)
  }

  /** Payloads merged in order; one that is not an object is passed over. */
  function MergeAll(state: Fields, payloads: seq<Json>): Fields {
    if payloads == [] then state
    else
      var before := MergeAll(state, payloads[..|payloads| - 1]);
      var p := payloads[|payloads| - 1];
      if p.Obj? then DeepMerge.Merge(before, p.fields) else before
  }

  lemma {:induction false} MergeKeepsCount(state: Fields, payloads: seq<Json>, skill: string)
    requires forall p | p in payloads :: LeavesCount(p, skill)
    ensures EvidenceCount(MergeAll(state, payloads), skill) == EvidenceCount(state, skill)
  {
    if payloads != [] {
      var n := |payloads| - 1;
      MergeKeepsCount(state, payloads[..n], skill);
      assert payloads[n] in payloads;
      if payloads[n].Obj? {
        MergeOneKeepsCount(MergeAll(state, payloads[..n]), payloads[n].fields, skill);
      }
    }
  }

  lemma MergeOneKeepsCount(state: Fields, payload: Fields, skill: string)
    requires LeavesCount(Obj(payload), skill)
    ensures EvidenceCount(DeepMerge.Merge(state, payload), skill) == EvidenceCount(state, skill)
  {
    var m := DeepMerge.Merge(state, payload);
    if SKILLS in payload && SKILLS in state && state[SKILLS].Obj? {
      var a, b := state[SKILLS].fields, payload[SKILLS].fields;
      assert m[SKILLS] == Obj(DeepMerge.Merge(a, b));
      if skill in b && skill in a && a[skill].Obj? {
        assert DeepMerge.Merge(a, b)[skill] == Obj(DeepMerge.Merge(a[skill].fields, b[skill].fields));
      }
    }
  }

  /** The skill's owner, if the skill is named like a companion, is not itself rewritten as one. */
  predicate OwnerStands(prior: Fields, next: Fields, skill: string) {
    Owner(skill).Some? && Owner(skill).value in prior ==> Stands(prior, next, Owner(skill).value)
  }

  /** What the delta passes make of a number in a skill's entry: it is kept, or lost with the entry; no other
      number is put in its place. Kept it is whenever the skill stands. A skill named like the companion of one that
      stands loses it when that one was and is a number, or went away. */
  lemma DeltasOnEntry(prior: Fields, next: Fields, result: Fields, skill: string, field: string)
    requires IsDeltas(prior, next, result) && Base(SKILLS) && Base(field)
    ensures var p, n := Object(prior, SKILLS), Object(next, SKILLS);
            var entry, r := Object(n, skill), Object(Object(result, SKILLS), skill);
            (Numeric(r, field) ==> At(r, field) == At(entry, field)) &&
            (Stands(p, n, skill) && Numeric(entry, field) ==> At(r, field) == At(entry, field)) &&
            (!Stands(p, n, skill) && OwnerStands(p, n, skill) ==> !Numeric(r, field))
  {
    if BothObjects(prior, next, SKILLS) {
      NestedOnEntry(prior[SKILLS].fields, next[SKILLS].fields, result[SKILLS].fields, skill, field);
    } else {
      assert At(result, SKILLS) == Flat(prior, next, SKILLS);
    }
  }

  lemma NestedOnEntry(p: Fields, n: Fields, r: Fields, skill: string, field: string)
    requires Nested(p, n, r, 0) && Base(field)
    ensures Numeric(Object(r, skill), field) ==> At(Object(r, skill), field) == At(Object(n, skill), field)
    ensures Stands(p, n, skill) && Numeric(Object(n, skill), field) ==>
              At(Object(r, skill), field) == At(Object(n, skill), field)
    ensures !Stands(p, n, skill) && OwnerStands(p, n, skill) ==> !Numeric(Object(r, skill), field)
  {
    assert Accounted(p, n, r, 0, skill);
    if BothObjects(p, n, skill) && skill in r && r[skill].Obj? &&
       Nested(p[skill].fields, n[skill].fields, r[skill].fields, 1)
    {
      NestedKeepsNumber(p[skill].fields, n[skill].fields, r[skill].fields, field);
    }
    if !Stands(p, n, skill) && OwnerStands(p, n, skill) {
      assert Owned(p, n, skill);
    }
  }

  lemma NestedKeepsNumber(p: Fields, n: Fields, r: Fields, field: string)
    requires Nested(p, n, r, 1) && Base(field)
    ensures Numeric(n, field) || Numeric(r, field) ==> At(r, field) == At(n, field)
  {
    assert Stands(p, n, field);
  }

  lemma EvidenceIsBase()
    ensures Base(SKILLS) && Base(EVIDENCE) && Base(MASTERY) && Base(STABILITY)
  {
  }

  /** So the delta passes keep a skill's count or lose it: they keep it if the skill stands. */
  lemma DeltasOnCount(prior: Fields, next: Fields, result: Fields, skill: string)
    requires IsDeltas(prior, next, result)
    ensures var p, n := Object(prior, SKILLS), Object(next, SKILLS);
            EvidenceCount(result, skill) in {EvidenceCount(next, skill), 0} &&
            (Stands(p, n, skill) ==> EvidenceCount(result, skill) == EvidenceCount(next, skill)) &&
            (!Stands(p, n, skill) && OwnerStands(p, n, skill) ==> EvidenceCount(result, skill) == 0)
  {
    EvidenceIsBase();
    DeltasOnEntry(prior, next, result, skill, EVIDENCE);
  }

  // ----- What promotion does -----

  /** The entry of the dominant skill; nothing when no skill is named or its entry is no object. */
  function DominantScores(state: Fields): Fields {
    if SKILL in state && state[SKILL].Str? && state[SKILL].s != ""
    then Object(Object(state, SKILLS), state[SKILL].s)
    else map[]
  }

  lemma MasteryIsNotStability()
    ensures MASTERY != STABILITY
  {
    assert MASTERY[0] == 'm' && STABILITY[0] == 's';
  }

  /** Promotion, key by key: the two scores become the dominant skill's where that skill has them as numbers,
      and every other key of the state stays as it was. */
  lemma PromotedExactly(state: Fields, key: string)
    ensures At(Promoted(state), key) ==
            if key in [MASTERY, STABILITY] && Numeric(DominantScores(state), key) then At(DominantScores(state), key)
            else At(state, key)
  {
    MasteryIsNotStability();
  }

  lemma OtherKeysAreNotScores()
    ensures SKILL !in [MASTERY, STABILITY] && SKILLS !in [MASTERY, STABILITY]
  {
    assert SKILL[1] == SKILLS[1] == 'k' && MASTERY[1] == 'a' && STABILITY[1] == 't';
  }

  /** The dominant skill's scores are still there afterwards, and promoting again changes nothing. */
  lemma PromotedTwice(state: Fields)
    ensures DominantScores(Promoted(state)) == DominantScores(state)
    ensures Promoted(Promoted(state)) == Promoted(state)
  {
    OtherKeysAreNotScores();
    PromotedExactly(state, SKILL);
    PromotedExactly(state, SKILLS);
    forall k ensures At(Promoted(Promoted(state)), k) == At(Promoted(state), k) {
      PromotedExactly(state, k);
      PromotedExactly(Promoted(state), k);
    }
    SameFields(Promoted(Promoted(state)), Promoted(state));
  }

  // ----- Skills named like companions, over a run -----

  /** Nothing but objects is put under the skill's owner, the owner's owner, and so on. */
  predicate LeavesOwners(payload: Json, skill: string)
    decreases |skill|
  {
    match Owner(skill)
    case None => true
    case Some(f) =>
      OwnerIsShorter(skill);
      (payload.Obj? && f in Object(payload.fields, SKILLS) ==> Object(payload.fields, SKILLS)[f].Obj?) &&
      LeavesOwners(payload, f)
  }

  /** They are objects in the state, too, where they are there at all. */
  predicate OwnersAreObjects(skills: Fields, skill: string)
    decreases |skill|
  {
    match Owner(skill)
    case None => true
    case Some(f) =>
      OwnerIsShorter(skill);
      (f in skills ==> skills[f].Obj?) && OwnersAreObjects(skills, f)
  }

  /** None of them goes away. */
  predicate OwnersStay(before: Fields, after: Fields, skill: string)
    decreases |skill|
  {
    match Owner(skill)
    case None => true
    case Some(f) =>
      OwnerIsShorter(skill);
      (f in before ==> f in after) && OwnersStay(before, after, f)
  }

  lemma {:induction false} OwnersStayTransitive(a: Fields, b: Fields, c: Fields, skill: string)
    requires OwnersStay(a, b, skill) && OwnersStay(b, c, skill)
    ensures OwnersStay(a, c, skill)
    decreases |skill|
  {
    if Owner(skill).Some? {
      OwnerIsShorter(skill);
      OwnersStayTransitive(a, b, c, Owner(skill).value);
    }
  }

  lemma {:induction false} OwnersStayHere(a: Fields, skill: string)
    ensures OwnersStay(a, a, skill)
    decreases |skill|
  {
    if Owner(skill).Some? {
      OwnerIsShorter(skill);
      OwnersStayHere(a, Owner(skill).value);
    }
  }

  /** While that is so the skill stands. */
  lemma {:induction false} ObjectsStand(prior: Fields, next: Fields, skill: string)
    requires OwnersAreObjects(prior, skill) && OwnersStay(prior, next, skill)
    ensures Stands(prior, next, skill)
    decreases |skill|
  {
    if Owner(skill).Some? {
      OwnerIsShorter(skill);
      ObjectsStand(prior, next, Owner(skill).value);
    }
  }

  lemma {:induction false} MergeKeepsOwners(a: Fields, b: Fields, payload: Fields, skill: string)
    requires SKILLS in payload && payload[SKILLS] == Obj(b) && LeavesOwners(Obj(payload), skill) &&
             OwnersAreObjects(a, skill)
    ensures OwnersAreObjects(DeepMerge.Merge(a, b), skill) && OwnersStay(a, DeepMerge.Merge(a, b), skill)
    decreases |skill|
  {
    if Owner(skill).Some? {
      OwnerIsShorter(skill);
      MergeKeepsOwners(a, b, payload, Owner(skill).value);
    }
  }

  /** A new `skills` object holds what the payload holds. */
  lemma {:induction false} NewOwners(b: Fields, payload: Fields, skill: string)
    requires SKILLS in payload && payload[SKILLS] == Obj(b) && LeavesOwners(Obj(payload), skill)
    ensures OwnersAreObjects(b, skill) && OwnersStay(map[], b, skill)
    decreases |skill|
  {
    if Owner(skill).Some? {
      OwnerIsShorter(skill);
      NewOwners(b, payload, Owner(skill).value);
    }
  }

  lemma MergeOneKeepsOwners(state: Fields, payload: Fields, skill: string)
    requires LeavesCount(Obj(payload), skill) && LeavesOwners(Obj(payload), skill) &&
             OwnersAreObjects(Object(state, SKILLS), skill)
    ensures OwnersAreObjects(Object(DeepMerge.Merge(state, payload), SKILLS), skill)
    ensures OwnersStay(Object(state, SKILLS), Object(DeepMerge.Merge(state, payload), SKILLS), skill)
  {
    OwnersStayHere(Object(state, SKILLS), skill);
    if SKILLS in payload {
      var b := payload[SKILLS].fields;
      if SKILLS in state && state[SKILLS].Obj? {
        MergeKeepsOwners(state[SKILLS].fields, b, payload, skill);
        assert DeepMerge.Merge(state, payload)[SKILLS] == Obj(DeepMerge.Merge(state[SKILLS].fields, b));
      } else {
        NewOwners(b, payload, skill);
        assert DeepMerge.Merge(state, payload)[SKILLS] == payload[SKILLS];
      }
    }
  }

  lemma {:induction false} MergeAllKeepsOwners(state: Fields, payloads: seq<Json>, skill: string)
    requires forall p | p in payloads :: LeavesCount(p, skill) && LeavesOwners(p, skill)
    requires OwnersAreObjects(Object(state, SKILLS), skill)
    ensures OwnersAreObjects(Object(MergeAll(state, payloads), SKILLS), skill)
    ensures OwnersStay(Object(state, SKILLS), Object(MergeAll(state, payloads), SKILLS), skill)
  {
    OwnersStayHere(Object(state, SKILLS), skill);
    if payloads != [] {
      var n := |payloads| - 1;
      MergeAllKeepsOwners(state, payloads[..n], skill);
      assert payloads[n] in payloads;
      if payloads[n].Obj? {
        MergeOneKeepsOwners(MergeAll(state, payloads[..n]), payloads[n].fields, skill);
        OwnersStayTransitive(Object(state, SKILLS), Object(MergeAll(state, payloads[..n]), SKILLS),
                             Object(MergeAll(state, payloads), SKILLS), skill);
      }
    }
  }

  lemma {:induction false} BumpedOwners(skills: Fields, scored: set<string>, skill: string)
    requires OwnersAreObjects(skills, skill)
    ensures OwnersAreObjects(BumpedSkills(skills, scored), skill) &&
            OwnersStay(skills, BumpedSkills(skills, scored), skill)
    decreases |skill|
  {
    if Owner(skill).Some? {
      OwnerIsShorter(skill);
      BumpedOwners(skills, scored, Owner(skill).value);
    }
  }

  lemma {:induction false} CountedKeepsOwners(state: Fields, payloads: seq<Json>, skill: string)
    requires OwnersAreObjects(Object(state, SKILLS), skill)
    ensures OwnersAreObjects(Object(Counted(state, payloads), SKILLS), skill)
    ensures OwnersStay(Object(state, SKILLS), Object(Counted(state, payloads), SKILLS), skill)
  {
    OwnersStayHere(Object(state, SKILLS), skill);
    if payloads != [] {
      var n := |payloads| - 1;
      CountedKeepsOwners(state, payloads[..n], skill);
      var before := Counted(state, payloads[..n]);
      if Scored(payloads[n]) != {} {
        BumpedOwners(Object(before, SKILLS), Scored(payloads[n]), skill);
        assert Object(Counted(state, payloads), SKILLS) == BumpedSkills(Object(before, SKILLS), Scored(payloads[n]));
        OwnersStayTransitive(Object(state, SKILLS), Object(before, SKILLS), Object(Counted(state, payloads), SKILLS),
                             skill);
      }
    }
  }

  /** The nested pass leaves objects objects where the keys stand. */
  lemma {:induction false} NestedKeepsOwners(prior: Fields, next: Fields, result: Fields, skill: string)
    requires Nested(prior, next, result, 0) && OwnersAreObjects(prior, skill) && OwnersStay(prior, next, skill)
    requires OwnersAreObjects(next, skill)
    ensures OwnersAreObjects(result, skill)
    decreases |skill|
  {
    if Owner(skill).Some? {
      var f := Owner(skill).value;
      OwnerIsShorter(skill);
      NestedKeepsOwners(prior, next, result, f);
      ObjectsStand(prior, next, f);
      assert f in result ==> At(result, f).value.Obj?;
    }
  }

  lemma DeltasKeepOwners(prior: Fields, next: Fields, result: Fields, skill: string)
    requires IsDeltas(prior, next, result) && OwnersAreObjects(Object(prior, SKILLS), skill)
    requires OwnersAreObjects(Object(next, SKILLS), skill) &&
             OwnersStay(Object(prior, SKILLS), Object(next, SKILLS), skill)
    ensures OwnersAreObjects(Object(result, SKILLS), skill)
  {
    EvidenceIsBase();
    if BothObjects(prior, next, SKILLS) {
      assert Nested(prior[SKILLS].fields, next[SKILLS].fields, result[SKILLS].fields, 0);
      NestedKeepsOwners(prior[SKILLS].fields, next[SKILLS].fields, result[SKILLS].fields, skill);
    } else {
      assert At(result, SKILLS) == Flat(prior, next, SKILLS);
    }
  }
}
