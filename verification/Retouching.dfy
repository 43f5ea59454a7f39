/** What a first computation may leave in the payloads it was given, and so in what a recomputation starts from. */
module Retouching {
  import opened Json
  import opened Deltas
  import opened Evidence
  import Aliasing

  function EntryOf(v: Option<Json>): Fields {
    if v.Some? && v.value.Obj? then v.value.fields else map[]
  }

  /** A skill's entry may have got a count, and companions; one that was missing, or was no object, may have been
      made for the count. */
  ghost predicate EntryRetouched(a: Option<Json>, b: Option<Json>) {
    a == b || (b.Some? && b.value.Obj? && SameBase(Obj(EntryOf(a) - {EVIDENCE}), Obj(b.value.fields - {EVIDENCE})))
  }

  ghost predicate SkillsRetouched(a: Fields, b: Fields) {
    forall s | Base(s) :: EntryRetouched(At(a, s), At(b, s))
  }

  ghost predicate MemberRetouched(key: string, a: Json, b: Json) {
    if key == SKILLS && a.Obj? then b.Obj? && SkillsRetouched(a.fields, b.fields) else SameBase(a, b)
  }

  /** The payload itself gets no new member: the state is never the payload, only parts of it are. */
  ghost predicate Retouched(a: Json, b: Json) {
    if a.Obj?
    then b.Obj? && b.fields.Keys == a.fields.Keys &&
         forall k | k in a.fields :: MemberRetouched(k, a.fields[k], b.fields[k])
    else a == b
  }

  ghost predicate AllRetouched(a: seq<Json>, b: seq<Json>) {
    |a| == |b| && forall i | 0 <= i < |a| :: Retouched(a[i], b[i])
  }

  /** A payload nobody has written to is one such. */
  lemma RetouchedHere(a: Json)
    ensures Retouched(a, a)
  {
    if a.Obj? {
      forall k | k in a.fields ensures MemberRetouched(k, a.fields[k], a.fields[k]) {
        SameBaseHere(a.fields[k]);
      }
    }
  }

  /** So is what a first computation for a skill without an entry leaves. */
  lemma CountedInIsRetouched(payload: Fields, skill: string)
    requires Aliasing.ScoresSkill(payload, skill)
    ensures Retouched(Obj(payload), Obj(Aliasing.Touched(payload, skill)))
  {
    var touched := Aliasing.Touched(payload, skill);
    forall k | k in payload ensures MemberRetouched(k, payload[k], touched[k]) {
      if k == SKILLS {
        var a, b := payload[SKILLS].fields, touched[SKILLS].fields;
        forall s | Base(s) ensures EntryRetouched(At(a, s), At(b, s)) {
          if s == skill {
            assert b[skill].fields - {EVIDENCE} == a[skill].fields - {EVIDENCE};
            SameBaseHere(Obj(a[skill].fields - {EVIDENCE}));
          }
        }
      } else {
        SameBaseHere(payload[k]);
      }
    }
  }

  // ----- What a retouched payload still says -----

  lemma ScoreIsNoCount()
    ensures Base(MASTERY) && MASTERY != EVIDENCE && Base(SKILL) && Base(SKILLS)
  {
    assert MASTERY[0] != EVIDENCE[0];
  }

  lemma EntryKeepsScore(a: Option<Json>, b: Option<Json>)
    requires EntryRetouched(a, b)
    ensures a.Some? && HasScore(a.value) <==> b.Some? && HasScore(b.value)
  {
    ScoreIsNoCount();
    if a != b {
      var x, y := EntryOf(a) - {EVIDENCE}, b.value.fields - {EVIDENCE};
      assert MASTERY in x <==> MASTERY in y;
      assert MASTERY in x ==> SameBase(x[MASTERY], y[MASTERY]);
    }
  }

  /** It scores the same skills, those not named like companions. */
  lemma RetouchedScores(a: Json, b: Json, skill: string)
    requires Retouched(a, b) && Base(skill)
    ensures skill in Scored(a) <==> skill in Scored(b)
  {
    ScoreIsNoCount();
    if a.Obj? {
      assert forall k | k in a.fields :: MemberRetouched(k, a.fields[k], b.fields[k]);
      if SKILLS in a.fields && a.fields[SKILLS].Obj? {
        EntryKeepsScore(At(a.fields[SKILLS].fields, skill), At(b.fields[SKILLS].fields, skill));
      }
    }
  }

  /** A recomputation therefore adds to a skill's count what the logged payloads call for. */
  lemma {:induction false} RetouchedTally(a: seq<Json>, b: seq<Json>, skill: string)
    requires AllRetouched(a, b) && Base(skill)
    ensures Tally(b, skill) == Tally(a, skill)
  {
    if a != [] {
      var n := |a| - 1;
      RetouchedTally(a[..n], b[..n], skill);
      RetouchedScores(a[n], b[n], skill);
    }
  }
}
