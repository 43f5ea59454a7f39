/** What counting and promotion read and write, by path. */
module StateMeaning {
  import opened Json
  import opened Evidence
  import opened BatchOrder

  predicate IsNumber(v: Option<Json>) {
    v.Some? && v.value.Num?
  }

  lemma TwoSteps(f: Fields, k: string, l: string)
    ensures Get(Obj(f), [k, l]) == At(Object(f, k), l)
  {
    assert [k, l][1..] == [l];
    if k in f {
      GetStep(f[k], [l]);
      assert [l][1..] == [];
    }
  }

  lemma ThreeSteps(f: Fields, k: string, l: string, m: string)
    ensures Get(Obj(f), [k, l, m]) == At(Object(Object(f, k), l), m)
  {
    assert [k, l, m][1..] == [l, m];
    if k in f && f[k].Obj? {
      TwoSteps(f[k].fields, l, m);
      assert Obj(f[k].fields) == f[k];
    } else if k in f {
      GetStep(f[k], [l, m]);
    }
  }

  /** A payload scores a skill by a number at `skills.<skill>.masteryScore`, or by one at `masteryScore` when
      `skill` names the skill. */
  lemma ScoresBySkill(payload: Fields, skill: string)
    ensures skill in Scored(Obj(payload)) <==>
            IsNumber(Get(Obj(payload), ["skills", skill, "masteryScore"])) ||
            (skill != "" && Get(Obj(payload), ["skill"]) == Some(Str(skill)) &&
             IsNumber(Get(Obj(payload), ["masteryScore"])))
  {
    ThreeSteps(payload, "skills", skill, "masteryScore");
    GetOne(payload, "skill");
    GetOne(payload, "masteryScore");
    var skills := Object(payload, SKILLS);
    assert At(Object(skills, skill), MASTERY) == Get(Obj(payload), ["skills", skill, "masteryScore"]);
  }

  /** The count of a skill is the number at `skills.<skill>.evidenceCount`, rounded down, and zero if there is none. */
  lemma CountByPath(state: Fields, skill: string)
    ensures var v := Get(Obj(state), ["skills", skill, "evidenceCount"]);
            if IsNumber(v) then EvidenceCount(state, skill) as real <= v.value.n < EvidenceCount(state,
                skill) as real + 1.0
            else EvidenceCount(state, skill) == 0
  {
    ThreeSteps(state, "skills", skill, "evidenceCount");
  }

  /** Counting writes the counts where they are read. */
  lemma CountIsWritten(state: Fields, payloads: seq<Json>, skill: string)
    requires Tally(payloads, skill) > 0
    ensures Get(Obj(Counted(state, payloads)), ["skills", skill, "evidenceCount"]) ==
            Some(Num((EvidenceCount(state, skill) + Tally(payloads, skill)) as real))
  {
    CountedConserves(state, payloads, skill);
    ThreeSteps(Counted(state, payloads), "skills", skill, "evidenceCount");
    WholeCount(state, payloads, skill);
  }

  lemma {:induction false} WholeCount(state: Fields, payloads: seq<Json>, skill: string)
    requires Tally(payloads, skill) > 0
    ensures var v := At(Object(Object(Counted(state, payloads), SKILLS), skill), EVIDENCE);
            v == Some(Num(EvidenceCount(Counted(state, payloads), skill) as real))
  {
    var n := |payloads| - 1;
    var before := Counted(state, payloads[..n]);
    if skill in Scored(payloads[n]) {
      assert Object(CountOne(before, payloads[n]), SKILLS) == BumpedSkills(Object(before, SKILLS), Scored(payloads[n]));
    } else {
      WholeCount(state, payloads[..n], skill);
      if Scored(payloads[n]) != {} {
        assert Object(CountOne(before, payloads[n]), SKILLS) ==
               BumpedSkills(Object(before, SKILLS), Scored(payloads[n]));
      }
    }
  }

  /** Promotion copies a number from `skills.<skill>.<score>` to `<score>`, for the skill that `skill` names. */
  lemma PromotesByPath(state: Fields, score: string)
    requires score == "masteryScore" || score == "stabilityScore"
    ensures forall skill | skill != "" && Get(Obj(state), ["skill"]) == Some(Str(skill)) ::
              At(Promoted(state), score) ==
              if IsNumber(Get(Obj(state), ["skills", skill, score])) then Get(Obj(state), ["skills", skill, score])
              else At(state, score)
    ensures (forall skill :: skill != "" ==> Get(Obj(state), ["skill"]) != Some(Str(skill))) ==>
              Promoted(state) == state
  {
    PromotedExactly(state, score);
    GetOne(state, "skill");
    forall skill | skill != "" && Get(Obj(state), ["skill"]) == Some(Str(skill))
      ensures At(Promoted(state), score) ==
              if IsNumber(Get(Obj(state), ["skills", skill, score])) then Get(Obj(state), ["skills", skill, score])
              else At(state, score)
    {
      ThreeSteps(state, "skills", skill, score);
    }
  }
}
