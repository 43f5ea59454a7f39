/** How a field moved over a learner's stored versions, and what the stored deltas add up to. */
module Trajectory {
  import opened Json
  import opened ForbiddenKeys
  import opened Deltas
  import opened Evidence
  import DeepMerge
  import Aggregation
  import StateReducer

  const VALID_DIRECTIONS := {"improving", "declining", "stable"}

  datatype StoredState = StoredState(version: nat, state: Fields)

  datatype Version = Version(number: nat, values: map<string, Json>, directions: map<string, Option<string>>)

  datatype FieldSummary = FieldSummary(first: Option<real>, latest: Option<real>, overall: Option<string>, count: nat)

  function DirectionOf(state: Fields, field: string): Option<string> {
    if field + DIRECTION in state && state[field + DIRECTION].Str? && state[field + DIRECTION].s in VALID_DIRECTIONS
    then Some(state[field + DIRECTION].s) else None
  }

  ghost predicate IsVersionOf(s: StoredState, fields: seq<string>, v: Version) {
    v.number == s.version && v.values.Keys == v.directions.Keys == (set f | f in fields) &&
    forall f | f in fields ::
      v.values[f] == (if f in s.state then s.state[f] else Null) && v.directions[f] == DirectionOf(s.state, f)
  }

  method BuildVersions(states: seq<StoredState>, fields: seq<string>) returns (versions: seq<Version>)
    ensures |versions| == |states|
    ensures forall i | 0 <= i < |states| :: IsVersionOf(states[i], fields, versions[i])
  {
    versions := [];
    for i := 0 to |states|
      invariant |versions| == i
      invariant forall j | 0 <= j < i :: IsVersionOf(states[j], fields, versions[j])
    {
      var s := states[i].state;
      var values: map<string, Json>, directions: map<string, Option<string>> := map[], map[];
      for j := 0 to |fields|
        invariant IsVersionOf(states[i], fields[..j], Version(states[i].version, values, directions))
      {
        var field := fields[j];
        assert fields[..j + 1] == fields[..j] + [field];
        values := values[field := if field in s then s[field] else Null];
        directions := directions[field := DirectionOf(s, field)];
      }
      assert fields[..|fields|] == fields;
      versions := versions + [Version(states[i].version, values, directions)];
    }
  }

  /** The numbers a field takes over the versions, in order; anything else is passed over. */
  function Numbers(versions: seq<Version>, field: string): seq<real> {
    if versions == [] then []
    else
      var v := versions[|versions| - 1];
      Numbers(versions[..|versions| - 1], field) +
      if field in v.values && v.values[field].Num? then [v.values[field].n] else []
  }

  function Summarized(numbers: seq<real>): FieldSummary {
    if numbers == [] then FieldSummary(None, None, None, 0)
    else
      var first, latest := numbers[0], numbers[|numbers| - 1];
      FieldSummary(Some(first), Some(latest), if |numbers| >= 2 then Some(Direction(latest - first).s) else None,
                   |numbers|)
  }

  /** The numbers of a field are those of its versions, in their order. */
  lemma {:induction false} NumbersAppend(a: seq<Version>, b: seq<Version>, field: string)
    ensures Numbers(a + b, field) == Numbers(a, field) + Numbers(b, field)
  {
    if b == [] {
      assert a + b == a;
    } else {
      assert (a + b)[..|a + b| - 1] == a + b[..|b| - 1];
      NumbersAppend(a, b[..|b| - 1], field);
    }
  }

  lemma NumbersOfOne(v: Version, field: string)
    ensures forall n | At(v.values, field) == Some(Num(n)) :: Numbers([v], field) == [n]
    ensures (forall n :: At(v.values, field) != Some(Num(n))) ==> Numbers([v], field) == []
  {
    assert [v][..0] == [];
    if field in v.values && v.values[field].Num? {
      assert At(v.values, field) == Some(Num(v.values[field].n));
    }
  }

  /** A summary counts the numbers, names the first and the last, and says which way they went if there are two. */
  lemma SummaryMeans(numbers: seq<real>)
    ensures var s := Summarized(numbers);
            s.count == |numbers| &&
            (numbers == [] ==> s.first == None && s.latest == None) &&
            (numbers != [] ==> s.first == Some(numbers[0]) && s.latest == Some(numbers[|numbers| - 1])) &&
            (|numbers| < 2 ==> s.overall == None) &&
            (|numbers| >= 2 ==>
               s.overall == Some(if numbers[|numbers| - 1] > numbers[0] then "improving"
                                 else if numbers[|numbers| - 1] < numbers[0] then "declining" else "stable"))
  {
  }

  method BuildSummary(versions: seq<Version>, fields: seq<string>) returns (summary: map<string, FieldSummary>)
    ensures summary == map f | f in fields :: Summarized(Numbers(versions, f))
  {
    summary := map[];
    for i := 0 to |fields|
      invariant summary == map f | f in fields[..i] :: Summarized(Numbers(versions, f))
    {
      var s := SummarizeField(versions, fields[i]);
      assert fields[..i + 1] == fields[..i] + [fields[i]];
      summary := summary[fields[i] := s];
    }
    assert fields[..|fields|] == fields;
  }

  method SummarizeField(versions: seq<Version>, field: string) returns (summary: FieldSummary)
    ensures summary == Summarized(Numbers(versions, field))
  {
    var firstValue, latestValue: Option<real>, versionCount := None, None, 0;
    for i := 0 to |versions|
      invariant versionCount == |Numbers(versions[..i], field)|
      invariant if versionCount == 0 then firstValue.None? && latestValue.None?
                else firstValue == Some(Numbers(versions[..i], field)[0]) &&
                     latestValue == Some(Numbers(versions[..i], field)[versionCount - 1])
    {
      assert versions[..i + 1][..i] == versions[..i];
      var v := versions[i];
      if field in v.values && v.values[field].Num? {
        versionCount := versionCount + 1;
        if firstValue.None? {
          firstValue := Some(v.values[field].n);
        }
        latestValue := Some(v.values[field].n);
      }
    }
    assert versions[..|versions|] == versions;
    if versionCount == 0 {
      return FieldSummary(None, None, None, 0);
    }
    var overallDirection: Option<string> := None;
    if versionCount >= 2 {
      if latestValue.value > firstValue.value {
        overallDirection := Some("improving");
      } else if latestValue.value < firstValue.value {
        overallDirection := Some("declining");
      } else {
        overallDirection := Some("stable");
      }
    }
    summary := FieldSummary(firstValue, latestValue, overallDirection, versionCount);
  }

  // ----- Telescoping -----

  /** `state` was stored right after `prior`: it is some new state with the deltas against `prior`. */
  ghost predicate Follows(prior: Fields, state: Fields) {
    exists next :: IsDeltas(prior, next, state)
  }

  ghost predicate IsHistory(states: seq<Fields>) {
    forall i | 0 < i < |states| :: Follows(states[i - 1], states[i])
  }

  lemma StoredAt(prior: Fields, next: Fields, state: Fields, q: string)
    requires IsDeltas(prior, next, state)
    ensures if BothObjects(prior, next, q) && q != AGGREGATION then q in state && state[q].Obj?
            else At(state, q) == Flat(prior, next, q)
  {
  }

  lemma BaseIsKept(prior: Fields, next: Fields, state: Fields, f: string)
    requires IsDeltas(prior, next, state) && Base(f) && Numeric(prior, f) && Numeric(state, f)
    ensures Moved(prior, next, f) && next[f] == state[f]
  {
    StoredAt(prior, next, state, f);
  }

  lemma DeltaReads(prior: Fields, next: Fields, state: Fields, f: string, q: string)
    requires Moved(prior, next, f) && Numeric(state, f) && next[f] == state[f] && q == f + DELTA
    requires if BothObjects(prior, next, q) then q in state && state[q].Obj? else At(state, q) == Flat(prior, next, q)
    ensures At(state, q) == Some(Num(state[f].n - prior[f].n)) <==> !BothObjects(prior, next, q)
  {
    OwnerIs(f, q);
  }

  /** Over two versions in which a base field is a number, the difference is stored, unless an object under
      the companion's own key survives the transition: the nested pass then puts that object back. */
  lemma DeltaIsStored(prior: Fields, next: Fields, state: Fields, f: string)
    requires IsDeltas(prior, next, state) && Base(f) && Numeric(prior, f) && Numeric(state, f)
    ensures At(state, f + DELTA) == Some(Num(state[f].n - prior[f].n)) <==> !BothObjects(prior, next, f + DELTA)
  {
    BaseIsKept(prior, next, state, f);
    CompanionIsNotAggregation(f);
    StoredAt(prior, next, state, f + DELTA);
    DeltaReads(prior, next, state, f, f + DELTA);
  }

  /** And with it the direction, under the same condition on its own key. */
  lemma DirectionIsStored(prior: Fields, next: Fields, state: Fields, f: string)
    requires IsDeltas(prior, next, state) && Base(f) && Numeric(prior, f) && Numeric(state, f)
    ensures DirectionOf(state, f) == Some(Direction(state[f].n - prior[f].n).s) <==>
            !BothObjects(prior, next, f + DIRECTION)
  {
    StoredAt(prior, next, state, f);
    StoredAt(prior, next, state, f + DIRECTION);
    CompanionIsNotAggregation(f);
    OwnerIs(f, f + DIRECTION);
  }

  lemma CompanionIsNotAggregation(f: string)
    ensures f + DELTA != AGGREGATION && f + DIRECTION != AGGREGATION
  {
    StateReducer.AggregationIsNoCompanion();
    OwnerIs(f, f + DELTA);
    OwnerIs(f, f + DIRECTION);
  }

  function NumberAt(state: Fields, key: string): real {
    if Numeric(state, key) then state[key].n else 0.0
  }

  /** The sum of the deltas stored with every version after the first. */
  function SumOfDeltas(states: seq<Fields>, f: string): real {
    if |states| <= 1 then 0.0
    else SumOfDeltas(states[..|states| - 1], f) + NumberAt(states[|states| - 1], f + DELTA)
  }

  ghost predicate AlwaysNumeric(states: seq<Fields>, f: string) {
    forall i | 0 <= i < |states| :: Numeric(states[i], f)
  }

  /** Over any stretch of a history in which a base field is always a number, the stored deltas add up to the
      difference between its ends. What the payloads carry does not matter: only the first version may hold
      an object where the delta belongs. */
  lemma {:induction false} DeltasTelescope(states: seq<Fields>, f: string)
    requires states != [] && IsHistory(states) && Base(f) && AlwaysNumeric(states, f)
    requires f + DELTA in states[0] ==> !states[0][f + DELTA].Obj?
    ensures SumOfDeltas(states, f) == states[|states| - 1][f].n - states[0][f].n
    ensures f + DELTA in states[|states| - 1] ==> !states[|states| - 1][f + DELTA].Obj?
  {
    if |states| > 1 {
      var n := |states| - 1;
      DeltasTelescope(states[..n], f);
      assert states[..n][n - 1] == states[n - 1];
      assert Follows(states[n - 1], states[n]);
      var next :| IsDeltas(states[n - 1], next, states[n]);
      DeltaIsStored(states[n - 1], next, states[n], f);
    }
  }

  const WITH_OBJECT: Fields := map["x" := Num(1.0), "x_delta" := Obj(map[])]
  const JUST_X: Fields := map["x" := Num(2.0)]

  lemma PlainKeys()
    ensures Base("x") && "x" + DELTA == "x_delta" && Owner("x_delta") == Some("x")
    ensures AGGREGATION !in ["x", "x_delta"] && SKILLS !in ["x", "x_delta"] && SKILL !in ["x", "x_delta"]
    ensures Base(SKILLS) && Base(SKILL) && AGGREGATION !in [SKILLS, SKILL]
  {
    assert "x" + DELTA == "x_delta";
    OwnerIs("x", "x_delta");
    assert AGGREGATION[0] == 'a' && SKILLS[0] == 's' && SKILL[0] == 's' && "x"[0] == 'x' && "x_delta"[0] == 'x';
  }

  /** Nothing before: the new state is stored as it is. */
  lemma FirstStored(next: Fields, state: Fields, q: string)
    requires IsDeltas(map[], next, state)
    ensures At(state, q) == At(next, q)
  {
    assert !BothObjects(map[], next, q);
  }

  /** The one way to lose a delta, on two payloads: `{x: 1, x_delta: {}}` and then `{x: 2}`. The object is not
      replaced by the second payload and survives the number. */
  lemma DeltaLostToAnObject(config: Option<Aggregation.SubjectConfig>, first: Fields, second: Fields)
    requires StateReducer.Applies(map[], [Obj(WITH_OBJECT)], config, 1, first)
    requires StateReducer.Applies(first, [Obj(JUST_X)], config, 2, second)
    ensures At(first, "x") == Some(Num(1.0)) && At(second, "x") == Some(Num(2.0))
    ensures "x_delta" in second && second["x_delta"].Obj?
  {
    PlainKeys();
    var next1 :| StateReducer.IsNewState(map[], [Obj(WITH_OBJECT)], config, 1, next1) && IsDeltas(map[], next1, first);
    StateReducer.PlainNewState(map[], WITH_OBJECT, config, 1, next1);
    FirstKept(next1, first);
    var next2 :| StateReducer.IsNewState(first, [Obj(JUST_X)], config, 2, next2) && IsDeltas(first, next2, second);
    StateReducer.PlainNewState(first, JUST_X, config, 2, next2);
    SecondKept(first, next2, second);
  }

  lemma FirstKept(next: Fields, first: Fields)
    requires next == DeepMerge.Merge(map[], WITH_OBJECT) - {AGGREGATION} && IsDeltas(map[], next, first)
    ensures At(first, "x") == Some(Num(1.0)) && At(first, "x_delta") == Some(Obj(map[]))
    ensures SKILLS !in first && SKILL !in first
  {
    PlainKeys();
    FirstStored(next, first, "x");
    FirstStored(next, first, "x_delta");
    FirstStored(next, first, SKILLS);
    FirstStored(next, first, SKILL);
    assert At(next, "x") == Some(Num(1.0)) && At(next, "x_delta") == Some(Obj(map[]));
  }

  lemma SecondKept(first: Fields, next: Fields, second: Fields)
    requires At(first, "x") == Some(Num(1.0)) && At(first, "x_delta") == Some(Obj(map[]))
    requires next == DeepMerge.Merge(first, JUST_X) - {AGGREGATION} && IsDeltas(first, next, second)
    ensures At(second, "x") == Some(Num(2.0)) && "x_delta" in second && second["x_delta"].Obj?
  {
    PlainKeys();
    assert At(next, "x") == Some(Num(2.0)) && At(next, "x_delta") == Some(Obj(map[]));
    StoredAt(first, next, second, "x_delta");
    StoredAt(first, next, second, "x");
  }

  ghost predicate Shows(v: Version, f: string, n: real) {
    f in v.values && v.values[f] == Num(n)
  }

  lemma {:induction false} NumbersOfHistory(states: seq<StoredState>, versions: seq<Version>, f: string)
    requires |versions| == |states|
    requires forall i | 0 <= i < |states| :: Shows(versions[i], f, NumberAt(states[i].state, f))
    ensures |Numbers(versions, f)| == |states|
    ensures forall i | 0 <= i < |states| :: Numbers(versions, f)[i] == NumberAt(states[i].state, f)
  {
    if states != [] {
      var n := |states| - 1;
      NumbersOfHistory(states[..n], versions[..n], f);
      assert Shows(versions[n], f, NumberAt(states[n].state, f));
    }
  }

  function StatesOf(states: seq<StoredState>): seq<Fields> {
    seq(|states|, i requires 0 <= i < |states| => states[i].state)
  }

  /** The overall direction reported for the field is the sign of the sum of the stored deltas. */
  lemma OverallDirectionIsSignOfSum(states: seq<StoredState>, versions: seq<Version>, fields: seq<string>, f: string)
    requires |versions| == |states| >= 2 && f in fields
    requires forall i | 0 <= i < |states| :: IsVersionOf(states[i], fields, versions[i])
    requires IsHistory(StatesOf(states)) && Base(f) && AlwaysNumeric(StatesOf(states), f)
    requires f + DELTA in states[0].state ==> !states[0].state[f + DELTA].Obj?
    ensures var s := Summarized(Numbers(versions, f));
            s.count == |states| &&
            s.overall == Some(if SumOfDeltas(StatesOf(states), f) > 0.0 then "improving"
                              else if SumOfDeltas(StatesOf(states), f) < 0.0 then "declining" else "stable")
  {
    forall i | 0 <= i < |states| ensures Numeric(states[i].state, f) {
      assert Numeric(StatesOf(states)[i], f);
    }
    forall i | 0 <= i < |states| ensures Shows(versions[i], f, NumberAt(states[i].state, f)) {
      assert IsVersionOf(states[i], fields, versions[i]);
    }
    NumbersOfHistory(states, versions, f);
    DeltasTelescope(StatesOf(states), f);
  }
}
