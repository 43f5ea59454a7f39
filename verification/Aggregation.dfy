/** Skill, subject and overall aggregation, as written to `state.aggregation`. */
module Aggregation {
  import opened Json
  import opened Text
  import opened Deltas
  import opened Evidence
  import opened Totals

  // ----- Subjects -----

  datatype SubjectConfig = SubjectConfig(
    defaultSubject: Option<string>, explicitMap: map<string, string>, prefixRules: seq<(string, string)>)

  const DEFAULT_SUBJECT := "General"

  function PrefixSubject(rules: seq<(string, string)>, skillId: string): Option<string> {
    if rules == [] then None
    else if rules[0].0 <= skillId then Some(rules[0].1)
    else PrefixSubject(rules[1..], skillId)
  }

  /** The entry's own subject, then the explicit map, then the first matching prefix, then the defaults. */
  function ResolveSubject(skillId: string, entry: Fields, config: Option<SubjectConfig>): string {
    if "subject" in entry && entry["subject"].Str? && Trim(entry["subject"].s) != "" then Trim(entry["subject"].s)
    else if config.None? then DEFAULT_SUBJECT
    else
      var c := config.value;
      if skillId in c.explicitMap then c.explicitMap[skillId]
      else match PrefixSubject(c.prefixRules, skillId)
        case Some(subject) => subject
        case None =>
          if c.defaultSubject.Some? && Trim(c.defaultSubject.value) != "" then c.defaultSubject.value
          else DEFAULT_SUBJECT
  }

  // ----- What is aggregated -----

  datatype SkillInfo = SkillInfo(
    subject: string, mastery: real, stability: Option<real>, direction: Option<string>, evidence: int)

  function Info(id: string, entry: Fields, config: Option<SubjectConfig>): SkillInfo
    requires HasScore(Obj(entry))
  {
    var d := "masteryScore_direction";
    SkillInfo(
      ResolveSubject(id, entry, config),
      entry[MASTERY].n,
      if Numeric(entry, STABILITY) then Some(entry[STABILITY].n) else None,
      if d in entry && entry[d].Str? && entry[d].s in ["improving", "declining", "stable"] then Some(entry[d].s)
      else None,
      CountOf(entry))
  }

  /** The skills with a score. */
  function Table(skills: Fields, config: Option<SubjectConfig>): map<string, SkillInfo> {
    map id | id in skills && HasScore(skills[id]) :: Info(id, skills[id].fields, config)
  }

  datatype SubjectEntry = SubjectEntry(
    mastery: real, stability: Option<real>, strongest: string, weakest: string, skills: seq<string>)

  datatype Overall = Overall(mastery: real, stability: Option<real>, subjectCount: nat, skillCount: nat)

  datatype Aggregation = Aggregation(
    version: nat, overall: Overall, subjects: map<string, SubjectEntry>, skills: map<string, SkillInfo>)

  // ----- What the aggregation is, free of any enumeration order -----

  function Group(t: map<string, SkillInfo>, subject: string): set<string> {
    set id | id in t && t[id].subject == subject
  }

  function Subjects(t: map<string, SkillInfo>): set<string> {
    set id | id in t :: t[id].subject
  }

  function Masteries(t: map<string, SkillInfo>, ids: set<string>): map<string, real> {
    map id | id in ids && id in t :: t[id].mastery
  }

  function Stabilities(t: map<string, SkillInfo>, ids: set<string>): map<string, real> {
    map id | id in ids && id in t && t[id].stability.Some? :: t[id].stability.value
  }

  ghost predicate IsMean(m: map<string, real>, r: Option<real>) {
    if m == map[] then r.None? else r == Some(RoundNumeric(Mean(m)))
  }

  /** `id` comes before or with `other`: by score in the direction asked for, then by name. */
  predicate Precedes(t: map<string, SkillInfo>, max: bool, id: string, other: string)
    requires id in t && other in t
  {
    var a, b := t[id].mastery, t[other].mastery;
    (if max then a > b else a < b) || (a == b && !Less(other, id))
  }

  ghost predicate IsExtreme(t: map<string, SkillInfo>, ids: set<string>, max: bool, id: string)
    requires ids <= t.Keys
  {
    id in ids && forall other | other in ids :: Precedes(t, max, id, other)
  }

  ghost predicate Lists(s: seq<string>, ids: set<string>) {
    StrictlySorted(s) && forall x :: x in s <==> x in ids
  }

  ghost predicate SubjectOk(t: map<string, SkillInfo>, subject: string, e: SubjectEntry) {
    var ids := Group(t, subject);
    Lists(e.skills, ids) &&
    IsMean(Masteries(t, ids), Some(e.mastery)) && IsMean(Stabilities(t, ids), e.stability) &&
    IsExtreme(t, ids, true, e.strongest) && IsExtreme(t, ids, false, e.weakest)
  }

  function SubjectMasteries(subjects: map<string, SubjectEntry>): map<string, real> {
    map s | s in subjects :: subjects[s].mastery
  }

  function SubjectStabilities(subjects: map<string, SubjectEntry>): map<string, real> {
    map s | s in subjects && subjects[s].stability.Some? :: subjects[s].stability.value
  }

  function RoundOption(r: Option<real>): Option<real> {
    match r case None => None case Some(x) => Some(RoundNumeric(x))
  }

  ghost predicate AggregationOk(t: map<string, SkillInfo>, version: nat, a: Aggregation) {
    a.version == version &&
    a.subjects.Keys == Subjects(t) && (forall s | s in a.subjects :: SubjectOk(t, s, a.subjects[s])) &&
    IsMean(SubjectMasteries(a.subjects), Some(a.overall.mastery)) &&
    IsMean(SubjectStabilities(a.subjects), a.overall.stability) &&
    a.overall.subjectCount == |Subjects(t)| && a.overall.skillCount == |t| &&
    a.skills == map id | id in t ::
      t[id].(mastery := RoundNumeric(t[id].mastery), stability := RoundOption(t[id].stability))
  }

  // ----- The program's loops -----

  function Sum(values: seq<real>): real {
    if values == [] then 0.0 else Sum(values[..|values| - 1]) + values[|values| - 1]
  }

  method ArithmeticMean(values: seq<real>) returns (r: Option<real>)
    ensures r == if values == [] then None else Some(Sum(values) / |values| as real)
  {
    if |values| == 0 {
      return None;
    }
    var sum := 0.0;
    for i := 0 to |values|
      invariant sum == Sum(values[..i])
    {
      assert values[..i + 1][..i] == values[..i];
      sum := sum + values[i];
    }
    assert values[..|values|] == values;
    r := Some(sum / |values| as real);
  }

  ghost predicate Enumerates(order: seq<string>, ids: set<string>) {
    (forall x :: x in order <==> x in ids) && forall i, j | 0 <= i < j < |order| :: order[i] != order[j]
  }

  /** The values of `m` for those in `order` that have one. */
  function Pick(order: seq<string>, m: map<string, real>): seq<real> {
    if order == [] then []
    else
      var n := |order| - 1;
      Pick(order[..n], m) + if order[n] in m then [m[order[n]]] else []
  }

  lemma EnumeratesRest(order: seq<string>, ids: set<string>)
    requires Enumerates(order, ids) && order != []
    ensures order[|order| - 1] in ids && order[|order| - 1] !in order[..|order| - 1]
    ensures Enumerates(order[..|order| - 1], ids - {order[|order| - 1]})
  {
    var n := |order| - 1;
    assert order == order[..n] + [order[n]];
    forall y ensures y in order[..n] <==> y in ids - {order[n]} {}
  }

  lemma SumAppend(values: seq<real>, x: real)
    ensures Sum(values + [x]) == Sum(values) + x
  {
    assert (values + [x])[..|values|] == values;
  }

  lemma NothingEnumerated(ids: set<string>)
    requires Enumerates([], ids)
    ensures ids == {}
  {
    var none: seq<string> := [];
    forall x ensures x !in ids {
      assert x in none <==> x in ids;
    }
  }

  lemma {:induction false} PickTotal(order: seq<string>, ids: set<string>, m: map<string, real>)
    requires Enumerates(order, ids) && m.Keys <= ids
    ensures Sum(Pick(order, m)) == Total(m) && |Pick(order, m)| == |m|
    decreases |order|
  {
    if order == [] {
      NothingToPick(ids, m);
    } else {
      var n := |order| - 1;
      EnumeratesRest(order, ids);
      PickTotal(order[..n], ids - {order[n]}, m - {order[n]});
      PickStep(order, m);
    }
  }

  lemma PickStep(order: seq<string>, m: map<string, real>)
    requires order != [] && order[|order| - 1] !in order[..|order| - 1]
    requires var x, rest := order[|order| - 1], order[..|order| - 1];
             Sum(Pick(rest, m - {x})) == Total(m - {x}) && |Pick(rest, m - {x})| == |m - {x}|
    ensures Sum(Pick(order, m)) == Total(m) && |Pick(order, m)| == |m|
  {
    var x, rest := order[|order| - 1], order[..|order| - 1];
    PickSame(rest, m, x);
    PickLast(order, m);
    if x in m {
      PickedOne(m, x, Pick(rest, m - {x}), Pick(order, m));
    } else {
      assert m - {x} == m;
    }
  }

  lemma NothingToPick(ids: set<string>, m: map<string, real>)
    requires Enumerates([], ids) && m.Keys <= ids
    ensures Sum(Pick([], m)) == Total(m) && |Pick([], m)| == |m|
  {
    NothingEnumerated(ids);
    assert m == map[];
  }

  lemma PickLast(order: seq<string>, m: map<string, real>)
    requires order != []
    ensures var x, rest := order[|order| - 1], order[..|order| - 1];
            Pick(order, m) == if x in m then Pick(rest, m) + [m[x]] else Pick(rest, m)
  {
  }

  lemma PickedOne(m: map<string, real>, x: string, rest: seq<real>, all: seq<real>)
    requires x in m && all == rest + [m[x]] && Sum(rest) == Total(m - {x}) && |rest| == |m - {x}|
    ensures Sum(all) == Total(m) && |all| == |m|
  {
    TotalWithout(m, x);
    SumAppend(rest, m[x]);
    assert m == (m - {x})[x := m[x]];
  }

  lemma {:induction false} PickSame(order: seq<string>, m: map<string, real>, x: string)
    requires x !in order
    ensures Pick(order, m) == Pick(order, m - {x})
  {
    if order != [] {
      PickSame(order[..|order| - 1], m, x);
    }
  }

  /** The rounded mean of what `order` picks from `m`, whatever the order. */
  method RoundedMean(order: seq<string>, ghost ids: set<string>, m: map<string, real>) returns (r: Option<real>)
    requires Enumerates(order, ids) && m.Keys <= ids
    ensures IsMean(m, r)
  {
    var values := [];
    for i := 0 to |order|
      invariant values == Pick(order[..i], m)
    {
      assert order[..i + 1][..i] == order[..i];
      if order[i] in m {
        values := values + [m[order[i]]];
      }
    }
    assert order[..|order|] == order;
    PickTotal(order, ids, m);
    var mean := ArithmeticMean(values);
    r := RoundOption(mean);
  }

  method PickExtremeSkill(skillIds: seq<string>, t: map<string, SkillInfo>, max: bool) returns (best: string)
    requires skillIds != [] && forall id | id in skillIds :: id in t
    ensures best in skillIds && forall id | id in skillIds :: Precedes(t, max, best, id)
  {
    best := skillIds[0];
    LessIrreflexive(best);
    for i := 1 to |skillIds|
      invariant best in skillIds[..i] && forall j | 0 <= j < i :: Precedes(t, max, best, skillIds[j])
    {
      var id := skillIds[i];
      var score, bestScore := t[id].mastery, t[best].mastery;
      var better := if score == bestScore then Less(id, best) else if max then score > bestScore else score < bestScore;
      LessIrreflexive(id);
      LessTotal(id, best);
      if better {
        forall j | 0 <= j < i ensures Precedes(t, max, id, skillIds[j]) {
          PrecedesTransitive(t, max, id, best, skillIds[j]);
        }
        best := id;
      } else {
        assert Precedes(t, max, best, id);
      }
      assert skillIds[..i + 1] == skillIds[..i] + [skillIds[i]];
    }
    assert skillIds[..|skillIds|] == skillIds;
  }

  lemma PrecedesTransitive(t: map<string, SkillInfo>, max: bool, a: string, b: string, c: string)
    requires a in t && b in t && c in t && Precedes(t, max, b, c)
    requires (t[a].mastery == t[b].mastery && Less(a, b)) ||
             (if max then t[a].mastery > t[b].mastery else t[a].mastery < t[b].mastery)
    ensures Precedes(t, max, a, c)
  {
    if t[a].mastery == t[b].mastery == t[c].mastery && Less(c, a) {
      LessTransitive(c, a, b);
    }
  }

  function GroupOf(t: map<string, SkillInfo>, ids: seq<string>, subject: string): set<string> {
    set id | id in ids && id in t && t[id].subject == subject
  }

  ghost predicate Grouped(t: map<string, SkillInfo>, ids: seq<string>, bySubject: map<string, seq<string>>) {
    (forall id | id in ids :: id in t && t[id].subject in bySubject) &&
    forall s | s in bySubject :: bySubject[s] != [] && Enumerates(bySubject[s], GroupOf(t, ids, s))
  }

  lemma GroupedNext(t: map<string, SkillInfo>, ids: seq<string>, bySubject: map<string, seq<string>>, id: string)
    requires Grouped(t, ids, bySubject) && id in t && id !in ids
    ensures var s := t[id].subject;
            Grouped(t, ids + [id], bySubject[s := (if s in bySubject then bySubject[s] else []) + [id]])
  {
    var subject := t[id].subject;
    var list := if subject in bySubject then bySubject[subject] else [];
    assert Enumerates(list, GroupOf(t, ids, subject)) by {
      if subject !in bySubject {
        assert GroupOf(t, ids, subject) == {};
      }
    }
    assert GroupOf(t, ids + [id], subject) == GroupOf(t, ids, subject) + {id};
    forall s | s != subject ensures GroupOf(t, ids + [id], s) == GroupOf(t, ids, s) {}
  }

  method GroupBySubject(t: map<string, SkillInfo>, skillIds: seq<string>) returns (bySubject: map<string, seq<string>>)
    requires Enumerates(skillIds, t.Keys)
    ensures bySubject.Keys == Subjects(t) && forall s | s in bySubject :: Enumerates(bySubject[s], Group(t, s))
  {
    bySubject := map[];
    for i := 0 to |skillIds|
      invariant Grouped(t, skillIds[..i], bySubject)
    {
      var skillId := skillIds[i];
      var subject := t[skillId].subject;
      GroupedNext(t, skillIds[..i], bySubject, skillId);
      assert skillIds[..i + 1] == skillIds[..i] + [skillId];
      var list := if subject in bySubject then bySubject[subject] else [];
      bySubject := bySubject[subject := list + [skillId]];
    }
    assert skillIds[..|skillIds|] == skillIds;
    forall s ensures GroupOf(t, skillIds, s) == Group(t, s) {}
    forall s | s in bySubject ensures s in Subjects(t) {
      assert bySubject[s][0] in Group(t, s);
    }
  }

  method SummarizeSubject(t: map<string, SkillInfo>, subject: string, skillIds: seq<string>) returns (e: SubjectEntry)
    requires subject in Subjects(t) && Enumerates(skillIds, Group(t, subject))
    ensures SubjectOk(t, subject, e)
  {
    ghost var ids := Group(t, subject);
    var sortedIds := Sort(skillIds);
    forall i, j | 0 <= i < j < |sortedIds| ensures sortedIds[i] != sortedIds[j] {
      LessIrreflexive(sortedIds[i]);
    }
    assert Enumerates(sortedIds, ids);
    ghost var member :| member in t && t[member].subject == subject;
    assert member in sortedIds;
    var masteries := Masteries(t, set id | id in sortedIds);
    var stabilities := Stabilities(t, set id | id in sortedIds);
    assert (set id | id in sortedIds) == ids;
    assert member in masteries;
    var mastery := RoundedMean(sortedIds, ids, masteries);
    var stability := RoundedMean(sortedIds, ids, stabilities);
    var strongest := PickExtremeSkill(sortedIds, t, true);
    var weakest := PickExtremeSkill(sortedIds, t, false);
    e := SubjectEntry(mastery.value, stability, strongest, weakest, sortedIds);
  }

  // ----- The whole of it -----

  function OptionalNum(key: string, r: Option<real>): Fields {
    match r case None => map[] case Some(x) => map[key := Num(x)]
  }

  function Texts(s: seq<string>): Json {
    Arr(seq(|s|, i requires 0 <= i < |s| => Str(s[i])))
  }

  function SubjectJson(e: SubjectEntry): Json {
    Obj(map[MASTERY := Num(e.mastery), "skill_count" := Num(|e.skills| as real), "strongest_skill" := Str(e.strongest),
            "weakest_skill" := Str(e.weakest), "skills" := Texts(e.skills)] + OptionalNum(STABILITY, e.stability))
  }

  function OverallJson(o: Overall): Json {
    Obj(map[MASTERY := Num(o.mastery), "subject_count" := Num(o.subjectCount as real),
            "skill_count" := Num(o.skillCount as real)] + OptionalNum(STABILITY, o.stability))
  }

  function SkillJson(e: SkillInfo): Json {
    Obj(map["subject" := Str(e.subject), MASTERY := Num(e.mastery),
            "masteryScore_direction" := (match e.direction case None => Null case Some(d) => Str(d)),
            EVIDENCE := Num(e.evidence as real)] + OptionalNum(STABILITY, e.stability))
  }

  function ToJson(a: Aggregation): Json {
    Obj(map["computed_at_version" := Num(a.version as real), "overall" := OverallJson(a.overall),
            "subjects" := Obj(map s | s in a.subjects :: SubjectJson(a.subjects[s])),
            "skills" := Obj(map id | id in a.skills :: SkillJson(a.skills[id]))])
  }

  /** What the aggregation step makes of a state. */
  ghost predicate IsAggregated(state: Fields, config: Option<SubjectConfig>, version: nat, r: Fields) {
    var t := Table(Object(state, SKILLS), config);
    if t == map[] then r == state - {AGGREGATION}
    else exists a :: AggregationOk(t, version, a) && r == state[AGGREGATION := ToJson(a)]
  }

  lemma EnumeratesNext(order: seq<string>, ids: set<string>, x: string)
    requires Enumerates(order, ids) && x !in ids
    ensures Enumerates(order + [x], ids + {x})
  {
  }

  method ScoredSkillIds(skills: Fields) returns (ids: seq<string>)
    ensures Enumerates(ids, set id | id in skills && HasScore(skills[id]))
  {
    ids := [];
    var keys := skills.Keys;
    while keys != {}
      invariant keys <= skills.Keys
      invariant Enumerates(ids, set id | id in skills && id !in keys && HasScore(skills[id]))
    {
      var id :| id in keys;
      ghost var seen := set x | x in skills && x !in keys && HasScore(skills[x]);
      keys := keys - {id};
      if HasScore(skills[id]) {
        EnumeratesNext(ids, seen, id);
        ids := ids + [id];
        assert (set x | x in skills && x !in keys && HasScore(skills[x])) == seen + {id};
      } else {
        assert (set x | x in skills && x !in keys && HasScore(skills[x])) == seen;
      }
    }
  }

  method ComputeLearnerAggregation(state: Fields, config: Option<SubjectConfig>, version: nat) returns (r: Fields)
    ensures IsAggregated(state, config, version, r)
  {
    var skills := Object(state, SKILLS);
    var skillIds := ScoredSkillIds(skills);
    var t := Table(skills, config);
    assert t.Keys == set id | id in skills && HasScore(skills[id]);
    if skillIds == [] {
      NothingEnumerated(t.Keys);
      return state - {AGGREGATION};
    }
    assert skillIds[0] in t;
    var a := Aggregate(t, skillIds, version);
    r := state[AGGREGATION := ToJson(a)];
  }

  method Aggregate(t: map<string, SkillInfo>, skillIds: seq<string>, version: nat) returns (a: Aggregation)
    requires Enumerates(skillIds, t.Keys) && t != map[]
    ensures AggregationOk(t, version, a)
  {
    var bySubject := GroupBySubject(t, skillIds);
    var subjects, subjectKeys := SummarizeSubjects(t, bySubject);
    var overall := Summarize(t, subjects, subjectKeys);
    a := Aggregation(version, overall, subjects,
                     map id | id in t :: t[id].(mastery := RoundNumeric(t[id].mastery),
                                                stability := RoundOption(t[id].stability)));
  }

  method SummarizeSubjects(t: map<string, SkillInfo>, bySubject: map<string, seq<string>>)
      returns (subjects: map<string, SubjectEntry>, subjectKeys: seq<string>)
    requires bySubject.Keys == Subjects(t) && forall s | s in bySubject :: Enumerates(bySubject[s], Group(t, s))
    ensures subjects.Keys == Subjects(t) && Enumerates(subjectKeys, subjects.Keys)
    ensures forall s | s in subjects :: SubjectOk(t, s, subjects[s])
  {
    subjects, subjectKeys := map[], [];
    var left := bySubject.Keys;
    while left != {}
      invariant left <= bySubject.Keys && subjects.Keys == bySubject.Keys - left
      invariant Enumerates(subjectKeys, bySubject.Keys - left)
      invariant forall s | s in subjects :: SubjectOk(t, s, subjects[s])
    {
      var subject :| subject in left;
      EnumeratesNext(subjectKeys, bySubject.Keys - left, subject);
      assert bySubject.Keys - (left - {subject}) == bySubject.Keys - left + {subject};
      left := left - {subject};
      var e := SummarizeSubject(t, subject, bySubject[subject]);
      subjects := subjects[subject := e];
      subjectKeys := subjectKeys + [subject];
    }
  }

  method Summarize(t: map<string, SkillInfo>, subjects: map<string, SubjectEntry>, subjectKeys: seq<string>)
      returns (o: Overall)
    requires Enumerates(subjectKeys, subjects.Keys) && subjects.Keys == Subjects(t) && t != map[]
    ensures IsMean(SubjectMasteries(subjects), Some(o.mastery)) && IsMean(SubjectStabilities(subjects), o.stability)
    ensures o.subjectCount == |Subjects(t)| && o.skillCount == |t|
  {
    ghost var id :| id in t;
    assert t[id].subject in SubjectMasteries(subjects);
    var mastery := RoundedMean(subjectKeys, subjects.Keys, SubjectMasteries(subjects));
    var stability := RoundedMean(subjectKeys, subjects.Keys, SubjectStabilities(subjects));
    o := Overall(mastery.value, stability, |subjects|, |t|);
  }

  // ----- Properties -----

  /** Every scored skill is listed under exactly one subject, and nothing else is listed. */
  lemma SkillsArePartitioned(t: map<string, SkillInfo>, version: nat, a: Aggregation, s: string, id: string)
    requires AggregationOk(t, version, a) && s in a.subjects
    ensures id in a.subjects[s].skills <==> id in t && t[id].subject == s
    ensures id in t ==> t[id].subject in a.subjects
  {
    assert SubjectOk(t, s, a.subjects[s]);
  }

  function Counts(t: map<string, SkillInfo>): map<string, real> {
    map s | s in Subjects(t) :: |Group(t, s)| as real
  }

  lemma GroupWithout(t: map<string, SkillInfo>, id: string, s: string)
    requires id in t
    ensures Group(t - {id}, s) == Group(t, s) - {id}
    ensures t[id].subject != s ==> Group(t - {id}, s) == Group(t, s)
  {
  }

  lemma CountsWithout(t: map<string, SkillInfo>, id: string)
    requires id in t
    ensures Total(Counts(t)) == Total(Counts(t - {id})) + 1.0
  {
    var s, rest := t[id].subject, t - {id};
    SubjectsWithout(t, id);
    forall q
      ensures Group(rest, q) == Group(t, q) - {id} &&
              (q != s ==> Group(rest, q) == Group(t, q))
    {
      GroupWithout(t, id, q);
    }
    assert id in Group(t, s) && |Group(t, s)| == |Group(rest, s)| + 1;
    assert s in Subjects(t);
    if s !in Subjects(rest) {
      assert Group(rest, s) == {};
    }
    TotalOneMore(Counts(t), Counts(rest), s);
  }

  lemma SubjectsWithout(t: map<string, SkillInfo>, id: string)
    requires id in t
    ensures Subjects(t) == Subjects(t - {id}) + {t[id].subject}
  {
    forall s | s in Subjects(t) && s != t[id].subject ensures s in Subjects(t - {id}) {
      var x :| x in t && t[x].subject == s;
      assert x in t - {id};
    }
  }

  lemma {:induction false} CountsTotal(t: map<string, SkillInfo>)
    ensures Total(Counts(t)) == |t| as real
    decreases |t|
  {
    if t != map[] {
      var id :| id in t;
      assert |t| == |t - {id}| + 1;
      CountsTotal(t - {id});
      CountsWithout(t, id);
    } else {
      assert Counts(t) == map[];
    }
  }

  lemma {:induction false} SortedLength(s: seq<string>, ids: set<string>)
    requires Lists(s, ids)
    ensures |s| == |ids|
  {
    if s == [] {
      NothingEnumerated(ids);
    } else {
      var n := |s| - 1;
      assert s == s[..n] + [s[n]];
      forall x ensures x in s[..n] <==> x in ids - {s[n]} {
        LessIrreflexive(s[n]);
      }
      SortedLength(s[..n], ids - {s[n]});
    }
  }

  function ListedCounts(subjects: map<string, SubjectEntry>): map<string, real> {
    map s | s in subjects :: |subjects[s].skills| as real
  }

  lemma ListedAreGroups(t: map<string, SkillInfo>, subjects: map<string, SubjectEntry>)
    requires subjects.Keys == Subjects(t) && forall s | s in subjects :: SubjectOk(t, s, subjects[s])
    ensures ListedCounts(subjects) == Counts(t)
  {
    forall s | s in subjects ensures |subjects[s].skills| == |Group(t, s)| {
      assert SubjectOk(t, s, subjects[s]);
      SortedLength(subjects[s].skills, Group(t, s));
    }
  }

  /** The subjects' skill counts add up to the overall count. */
  lemma CountsAddUp(t: map<string, SkillInfo>, version: nat, a: Aggregation)
    requires AggregationOk(t, version, a)
    ensures Total(ListedCounts(a.subjects)) == a.overall.skillCount as real
  {
    ListedAreGroups(t, a.subjects);
    CountsTotal(t);
  }

  /** A subject's score lies between the rounded scores of its weakest and its strongest skill. */
  lemma WeakestMeanStrongest(t: map<string, SkillInfo>, version: nat, a: Aggregation, s: string)
    requires AggregationOk(t, version, a) && s in a.subjects
    ensures var e := a.subjects[s];
            e.weakest in t && e.strongest in t &&
            RoundNumeric(t[e.weakest].mastery) <= e.mastery <= RoundNumeric(t[e.strongest].mastery)
  {
    assert SubjectOk(t, s, a.subjects[s]);
    MeanWithin(t, Group(t, s), a.subjects[s].weakest, a.subjects[s].strongest, a.subjects[s].mastery);
  }

  lemma MeanWithin(t: map<string, SkillInfo>, ids: set<string>, weakest: string, strongest: string, mastery: real)
    requires ids <= t.Keys && IsExtreme(t, ids, false, weakest) && IsExtreme(t, ids, true, strongest)
    requires IsMean(Masteries(t, ids), Some(mastery))
    ensures RoundNumeric(t[weakest].mastery) <= mastery <= RoundNumeric(t[strongest].mastery)
  {
    var m := Masteries(t, ids);
    assert weakest in m;
    MasteriesWithin(t, ids, weakest, strongest);
    MeanBetween(m, t[weakest].mastery, t[strongest].mastery);
    RoundMonotone(t[weakest].mastery, Mean(m));
    RoundMonotone(Mean(m), t[strongest].mastery);
  }

  lemma MasteriesWithin(t: map<string, SkillInfo>, ids: set<string>, weakest: string, strongest: string)
    requires ids <= t.Keys && IsExtreme(t, ids, false, weakest) && IsExtreme(t, ids, true, strongest)
    ensures forall k | k in Masteries(t, ids) :: t[weakest].mastery <= Masteries(t, ids)[k] <= t[strongest].mastery
  {
    forall k | k in ids ensures t[weakest].mastery <= t[k].mastery <= t[strongest].mastery {
      assert Precedes(t, false, weakest, k) && Precedes(t, true, strongest, k);
    }
  }

  /** The subjects' means before rounding. */
  ghost function UnroundedMeans(t: map<string, SkillInfo>): map<string, real> {
    map s | s in Subjects(t) :: var m := Masteries(t, Group(t, s)); if m == map[] then 0.0 else Mean(m)
  }

  /** Rounding twice costs the overall score no more than 0.0001 against the mean of the unrounded means. */
  lemma OverallIsClose(t: map<string, SkillInfo>, version: nat, a: Aggregation)
    requires AggregationOk(t, version, a)
    ensures UnroundedMeans(t) != map[]
    ensures -0.0001 <= a.overall.mastery - Mean(UnroundedMeans(t)) <= 0.0001
  {
    var rounded, exact := SubjectMasteries(a.subjects), UnroundedMeans(t);
    assert rounded.Keys == exact.Keys;
    forall s | s in rounded ensures -0.00005 <= rounded[s] - exact[s] <= 0.00005 {
      assert SubjectOk(t, s, a.subjects[s]);
      RoundClose(exact[s]);
    }
    assert exact != map[] by {
      var s :| s in rounded;
      assert s in exact;
    }
    MeansClose(rounded, exact, 0.00005);
    RoundClose(Mean(rounded));
  }

  lemma ExtremeUnique(t: map<string, SkillInfo>, ids: set<string>, max: bool, x: string, y: string)
    requires ids <= t.Keys && IsExtreme(t, ids, max, x) && IsExtreme(t, ids, max, y)
    ensures x == y
  {
    assert Precedes(t, max, x, y) && Precedes(t, max, y, x);
    LessTotal(x, y);
  }

  lemma SubjectUnique(t: map<string, SkillInfo>, s: string, x: SubjectEntry, y: SubjectEntry)
    requires SubjectOk(t, s, x) && SubjectOk(t, s, y)
    ensures x == y
  {
    SortedUnique(x.skills, y.skills);
    ExtremeUnique(t, Group(t, s), true, x.strongest, y.strongest);
    ExtremeUnique(t, Group(t, s), false, x.weakest, y.weakest);
  }

  lemma OverallUnique(t: map<string, SkillInfo>, version: nat, a: Aggregation, b: Aggregation)
    requires AggregationOk(t, version, a) && AggregationOk(t, version, b) && a.subjects == b.subjects
    ensures a.overall == b.overall
  {
    assert IsMean(SubjectMasteries(a.subjects), Some(a.overall.mastery)) &&
           IsMean(SubjectMasteries(a.subjects), Some(b.overall.mastery));
    assert IsMean(SubjectStabilities(a.subjects), a.overall.stability) &&
           IsMean(SubjectStabilities(a.subjects), b.overall.stability);
  }

  /** The result depends on the skills alone, not on the order in which anything is enumerated. */
  lemma AggregationUnique(t: map<string, SkillInfo>, version: nat, a: Aggregation, b: Aggregation)
    requires AggregationOk(t, version, a) && AggregationOk(t, version, b)
    ensures a == b
  {
    SubjectsUnique(t, a.subjects, b.subjects);
    OverallUnique(t, version, a, b);
  }

  lemma SubjectsUnique(t: map<string, SkillInfo>, xs: map<string, SubjectEntry>, ys: map<string, SubjectEntry>)
    requires xs.Keys == ys.Keys
    requires forall s | s in xs :: SubjectOk(t, s, xs[s])
    requires forall s | s in ys :: SubjectOk(t, s, ys[s])
    ensures xs == ys
  {
    forall s | s in xs ensures xs[s] == ys[s] {
      SubjectUnique(t, s, xs[s], ys[s]);
    }
  }
}
