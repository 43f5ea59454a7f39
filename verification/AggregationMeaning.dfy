/** The aggregation as it is written: which key carries which value, where the values come from, and how a skill
    finds its subject. */
module AggregationMeaning {
  import opened Json
  import opened Text
  import opened Deltas
  import opened Evidence
  import opened Totals
  import opened Aggregation

  // ----- Subjects -----

  predicate OwnSubject(entry: Fields) {
    "subject" in entry && entry["subject"].Str? && !Blank(entry["subject"].s)
  }

  /** The entry's own subject comes first, trimmed. */
  lemma OwnSubjectWins(id: string, entry: Fields, config: Option<SubjectConfig>)
    requires OwnSubject(entry)
    ensures ResolveSubject(id, entry, config) == Trim(entry["subject"].s)
  {
    BlankExactly(entry["subject"].s);
  }

  lemma NoOwnSubject(entry: Fields)
    requires !OwnSubject(entry)
    ensures !("subject" in entry && entry["subject"].Str? && Trim(entry["subject"].s) != "")
  {
    if "subject" in entry && entry["subject"].Str? {
      BlankExactly(entry["subject"].s);
    }
  }

  /** Then the explicit map. */
  lemma ExplicitSubject(id: string, entry: Fields, c: SubjectConfig)
    requires !OwnSubject(entry) && id in c.explicitMap
    ensures ResolveSubject(id, entry, Some(c)) == c.explicitMap[id]
  {
    NoOwnSubject(entry);
  }

  predicate Matches(rules: seq<(string, string)>, id: string, i: int) {
    0 <= i < |rules| && rules[i].0 <= id
  }

  lemma {:induction false} FirstPrefix(rules: seq<(string, string)>, id: string, i: nat)
    requires Matches(rules, id, i) && forall h | 0 <= h < i :: !Matches(rules, id, h)
    ensures PrefixSubject(rules, id) == Some(rules[i].1)
  {
    if i > 0 {
      assert !Matches(rules, id, 0);
      assert forall h | 0 <= h < i - 1 :: Matches(rules[1..], id, h) ==> Matches(rules, id, h + 1);
      FirstPrefix(rules[1..], id, i - 1);
    }
  }

  lemma {:induction false} NoPrefix(rules: seq<(string, string)>, id: string)
    requires forall h :: !Matches(rules, id, h)
    ensures PrefixSubject(rules, id) == None
  {
    if rules != [] {
      assert !Matches(rules, id, 0);
      assert forall h :: Matches(rules[1..], id, h) ==> Matches(rules, id, h + 1);
      NoPrefix(rules[1..], id);
    }
  }

  /** Then the first rule whose prefix the id begins with. */
  lemma PrefixRuleSubject(id: string, entry: Fields, c: SubjectConfig, i: nat)
    requires !OwnSubject(entry) && id !in c.explicitMap
    requires Matches(c.prefixRules, id, i) && forall h | 0 <= h < i :: !Matches(c.prefixRules, id, h)
    ensures ResolveSubject(id, entry, Some(c)) == c.prefixRules[i].1
  {
    NoOwnSubject(entry);
    FirstPrefix(c.prefixRules, id, i);
  }

  /** Then the default of the configuration, unless it is blank, and "General" in the end. */
  lemma DefaultSubject(id: string, entry: Fields, config: Option<SubjectConfig>)
    requires !OwnSubject(entry)
    requires config.Some? ==> id !in config.value.explicitMap && forall h :: !Matches(config.value.prefixRules, id, h)
    ensures ResolveSubject(id, entry, config) ==
            if config.Some? && config.value.defaultSubject.Some? && !Blank(config.value.defaultSubject.value)
            then config.value.defaultSubject.value else "General"
  {
    NoOwnSubject(entry);
    if config.Some? {
      NoPrefix(config.value.prefixRules, id);
      if config.value.defaultSubject.Some? {
        BlankExactly(config.value.defaultSubject.value);
      }
    }
  }

  // ----- Where the values of a skill come from -----

  /** A skill with a score is in the table, with what its entry holds. */
  lemma TableMeans(skills: Fields, config: Option<SubjectConfig>, id: string)
    ensures var t := Table(skills, config);
            (id in t <==> id in skills && skills[id].Obj? && Numeric(skills[id].fields, "masteryScore")) &&
            (id in t ==>
               var e := skills[id].fields;
               t[id].subject == ResolveSubject(id, e, config) &&
               e["masteryScore"] == Num(t[id].mastery) &&
               (if Numeric(e, "stabilityScore") then t[id].stability == Some(e["stabilityScore"].n)
                else t[id].stability == None) &&
               (if At(e, "masteryScore_direction") in {Some(Str("improving")), Some(Str("declining")),
                                                       Some(Str("stable"))}
                then t[id].direction == Some(e["masteryScore_direction"].s) else t[id].direction == None) &&
               (if Numeric(e, "evidenceCount") then t[id].evidence == e["evidenceCount"].n.Floor
                 else t[id].evidence == 0))
  {
  }

  // ----- What is written -----

  predicate Reads(j: Json, k: string, v: Json) {
    j.Obj? && At(j.fields, k) == Some(v)
  }

  /** The number is there, or the key is not. */
  predicate ReadsOption(j: Json, k: string, v: Option<real>) {
    j.Obj? && At(j.fields, k) == match v case None => None case Some(x) => Some(Num(x))
  }

  predicate ReadsTexts(j: Json, s: seq<string>) {
    j.Arr? && |j.items| == |s| && forall i | 0 <= i < |s| :: j.items[i] == Str(s[i])
  }

  lemma KeysDiffer()
    ensures "masteryScore" !in {"stabilityScore", "skill_count", "strongest_skill", "weakest_skill", "skills",
                                "subject_count", "subject", "masteryScore_direction", "evidenceCount"}
    ensures "stabilityScore" !in {"skill_count", "strongest_skill", "weakest_skill", "skills", "subject_count",
                                  "subject",
                                  "masteryScore_direction", "evidenceCount"}
    ensures "skill_count" !in {"strongest_skill", "weakest_skill", "skills", "subject_count"}
    ensures "strongest_skill" !in {"weakest_skill", "skills"} && "weakest_skill" != "skills"
    ensures "subject" !in {"masteryScore_direction", "evidenceCount"} && "masteryScore_direction" != "evidenceCount"
  {
    assert "skill_count"[5] == '_' && "skills"[5] == 's';
    assert |"subject"| == 7 && |"subject_count"| == 13;
    assert "masteryScore"[0] == 'm' && |"masteryScore"| == 12 && |"masteryScore_direction"| == 22;
    assert "stabilityScore"[1] == 't' && "strongest_skill"[2] == 'r' && "stabilityScore"[2] == 'a' &&
           "skills"[1] == 'k';
  }

  lemma SkillIsWritten(e: SkillInfo)
    ensures var j := SkillJson(e);
            Reads(j, "subject", Str(e.subject)) && Reads(j, "masteryScore", Num(e.mastery)) &&
            Reads(j, "masteryScore_direction", match e.direction case None => Null case Some(d) => Str(d)) &&
            Reads(j, "evidenceCount", Num(e.evidence as real)) && ReadsOption(j, "stabilityScore", e.stability)
  {
    KeysDiffer();
  }

  lemma SubjectIsWritten(e: SubjectEntry)
    ensures var j := SubjectJson(e);
            Reads(j, "masteryScore", Num(e.mastery)) && Reads(j, "skill_count", Num(|e.skills| as real)) &&
            Reads(j, "strongest_skill", Str(e.strongest)) && Reads(j, "weakest_skill", Str(e.weakest)) &&
            j.Obj? && "skills" in j.fields && ReadsTexts(j.fields["skills"], e.skills) &&
            ReadsOption(j, "stabilityScore", e.stability)
  {
    KeysDiffer();
  }

  lemma OverallIsWritten(o: Overall)
    ensures var j := OverallJson(o);
            Reads(j, "masteryScore", Num(o.mastery)) && Reads(j, "subject_count", Num(o.subjectCount as real)) &&
            Reads(j, "skill_count", Num(o.skillCount as real)) && ReadsOption(j, "stabilityScore", o.stability)
  {
    KeysDiffer();
  }
  lemma TopKeysDiffer()
    ensures "computed_at_version" !in {"overall", "subjects", "skills"} && "overall" !in {"subjects", "skills"}
    ensures "subjects" != "skills"
  {
    assert "computed_at_version"[0] == 'c' && "overall"[0] == 'o' && "subjects"[1] == 'u' && "skills"[1] == 'k';
  }

  /** Every table with a skill in it is aggregated, and the aggregation stands at `aggregation` under its four keys. */
  lemma AggregationIsWritten(state: Fields, config: Option<SubjectConfig>, version: nat, next: Fields)
      returns (a: Aggregation)
    requires IsAggregated(state, config, version, next) && Table(Object(state, "skills"), config) != map[]
    ensures AggregationOk(Table(Object(state, "skills"), config), version, a)
    ensures "aggregation" in next && next["aggregation"].Obj?
    ensures var j := next["aggregation"];
            Reads(j, "computed_at_version", Num(version as real)) && Reads(j, "overall", OverallJson(a.overall)) &&
            Reads(j, "subjects", Obj(map s | s in a.subjects :: SubjectJson(a.subjects[s]))) &&
            Reads(j, "skills", Obj(map id | id in a.skills :: SkillJson(a.skills[id])))
    ensures forall k | k != "aggregation" :: At(next, k) == At(state, k)
  {
    a :| AggregationOk(Table(Object(state, SKILLS), config), version, a) && next == state[AGGREGATION := ToJson(a)];
    ToJsonIsWritten(a);
  }

  lemma ToJsonIsWritten(a: Aggregation)
    ensures var j := ToJson(a);
            Reads(j, "computed_at_version", Num(a.version as real)) && Reads(j, "overall", OverallJson(a.overall)) &&
            Reads(j, "subjects", Obj(map s | s in a.subjects :: SubjectJson(a.subjects[s]))) &&
            Reads(j, "skills", Obj(map id | id in a.skills :: SkillJson(a.skills[id])))
  {
    TopKeysDiffer();
  }

  /** Without a scored skill there is no aggregation, not even an older one. */
  lemma NothingToAggregate(state: Fields, config: Option<SubjectConfig>, version: nat, next: Fields)
    requires IsAggregated(state, config, version, next) && Table(Object(state, "skills"), config) == map[]
    ensures "aggregation" !in next && forall k | k != "aggregation" :: At(next, k) == At(state, k)
  {
  }

  // ----- Rounding -----

  /** A rounded number has four digits after the point, and a tie goes up. */
  lemma RoundMeans(x: real)
    ensures RoundNumeric(x) * 10000.0 == (RoundNumeric(x) * 10000.0).Floor as real
    ensures -0.5 < RoundNumeric(x) * 10000.0 - x * 10000.0 <= 0.5
  {
    RoundIsFloor(x);
    var n := (x * 10000.0 + 0.5).Floor;
    assert RoundNumeric(x) * 10000.0 == n as real;
  }
}
