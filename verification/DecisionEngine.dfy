/** Judging a learner's current state by a policy, and the decision that is kept of it. */
module DecisionEngine {
  import opened Json
  import opened ForbiddenKeys
  import opened StateStore
  import opened Policy
  import Receipt
  import Text

  datatype SignalContext = SignalContext(skill: string, assessmentType: string, schoolId: string)

  datatype Request = Request(learner: Learner, stateId: string, version: nat, context: SignalContext)

  datatype Definition = Definition(policyId: string, policyVersion: string, rules: seq<Rule>)

  datatype Kept = Kept(
    learner: Learner, decisionId: string, decision: Decision, decidedAt: string, context: Fields,
    stateId: string, version: nat, policyId: string, policyVersion: string,
    ruleId: string, snapshot: Fields, evaluated: seq<EvaluatedField>, priority: Option<nat>)

  datatype Failure = InvalidRequest | StateNotFound | StateMismatch | PolicyNotFound | ForbiddenContext

  datatype Outcome = Rejected(failure: Failure) | Unmatched | Decided(decision: Kept) | Threw

  predicate ValidRequest(r: Request) {
    Text.Trim(r.learner.org) != "" && Text.Trim(r.learner.ref) != ""
  }

  lemma ValidExactly(r: Request)
    ensures ValidRequest(r) <==> !Text.Blank(r.learner.org) && !Text.Blank(r.learner.ref)
  {
    Text.BlankExactly(r.learner.org);
    Text.BlankExactly(r.learner.ref);
  }

  function PutText(m: Fields, k: string, v: string): Fields {
    if v == "" then m else m[k := Str(v)]
  }

  /** What the signal contributes to the decision's context; an empty text counts as absent. */
  function ContextOf(c: SignalContext): Fields {
    PutText(PutText(PutText(map[], "skill", c.skill), "assessment_type", c.assessmentType), "school_id", c.schoolId)
  }

  /** The context holds the three texts under their keys, and only those that are not empty. */
  lemma ContextMeans(c: SignalContext)
    ensures At(ContextOf(c), "skill") == if c.skill == "" then None else Some(Str(c.skill))
    ensures At(ContextOf(c), "assessment_type") == if c.assessmentType == "" then None else Some(Str(c.assessmentType))
    ensures At(ContextOf(c), "school_id") == if c.schoolId == "" then None else Some(Str(c.schoolId))
    ensures ContextOf(c).Keys <= {"skill", "assessment_type", "school_id"}
  {
    assert "skill"[1] == 'k' && "assessment_type"[1] == 's' && "school_id"[1] == 'c';
  }

  /** Whether `buildRationale` finds a rule id and at least one field to speak of. */
  predicate HasRationale(ruleId: string, evaluated: seq<EvaluatedField>) {
    ruleId != "" && evaluated != []
  }

  /** `findIndex` by rule id, counted from one. */
  function PriorityOf(rules: seq<Rule>, id: string): Option<nat> {
    if id == "" then None else IndexFrom(rules, id, 0)
  }

  function IndexFrom(rules: seq<Rule>, id: string, i: nat): Option<nat>
    requires i <= |rules|
    decreases |rules| - i
  {
    if i == |rules| then None else if rules[i].id == id then Some(i + 1) else IndexFrom(rules, id, i + 1)
  }

  /** The decision follows from the row, by the first rule that matches its state. */
  ghost predicate FollowsFrom(num: ToNumber, row: Row, p: Definition, context: Fields, i: nat, d: Kept)
    requires i < |p.rules|
  {
    var rule := p.rules[i];
    FirstMatch(num, row.state, p.rules, i) &&
    d.learner == row.learner && d.stateId == row.stateId && d.version == row.version && d.context == context &&
    d.policyId == p.policyId && d.policyVersion == p.policyVersion && d.ruleId == rule.id &&
    d.decision == rule.decision &&
    d.evaluated == Policy.Evidence(num, row.state, rule.condition) && d.priority == PriorityOf(p.rules, rule.id) &&
    Receipt.IsSnapshot(row.state, Receipt.PolicyFields(p.rules), d.snapshot)
  }

  ghost predicate FollowsFromSome(num: ToNumber, row: Row, p: Definition, context: Fields, d: Kept) {
    exists i: nat :: i < |p.rules| && FollowsFrom(num, row, p, context, i, d)
  }

  /** The first rule to match has nothing to say for itself. */
  ghost predicate Speechless(num: ToNumber, state: Fields, rules: seq<Rule>) {
    exists i: nat :: i < |rules| && FirstMatch(num, state, rules, i) &&
                     !HasRationale(rules[i].id, Policy.Evidence(num, state, rules[i].condition))
  }

  /** Which outcome an evaluation has. */
  ghost predicate Answers(num: ToNumber, current: Option<Row>, r: Request, policy: Option<Definition>,
                          outcome: Outcome) {
    (outcome == Rejected(InvalidRequest) <==> !ValidRequest(r)) &&
    (ValidRequest(r) ==>
       (outcome == Rejected(StateNotFound) <==> current.None?) &&
       (current.Some? ==>
          var row := current.value;
          var stale := row.stateId != r.stateId || row.version != r.version;
          (outcome == Rejected(StateMismatch) <==> stale) &&
          (!stale ==>
             (outcome == Rejected(PolicyNotFound) <==> policy.None?) &&
             (policy.Some? ==> AnswersPolicy(num, row, policy.value, ContextOf(r.context), outcome)))))
  }

  ghost predicate AnswersPolicy(num: ToNumber, row: Row, p: Definition, context: Fields, outcome: Outcome) {
    (outcome.Unmatched? <==> NothingMatches(num, row.state, p.rules)) &&
    (outcome.Threw? <==> Speechless(num, row.state, p.rules)) &&
    (outcome == Rejected(ForbiddenContext) ==> !Clean(Obj(context))) &&
    (outcome.Decided? ==> FollowsFromSome(num, row, p, context, outcome.decision))
  }

  class DecisionEngine {
    const stateStore: SqliteStateRepository
    const num: ToNumber
    var decisions: seq<Kept>

    constructor (stateStore: SqliteStateRepository, num: ToNumber)
      ensures this.stateStore == stateStore && this.num == num && decisions == []
    {
      this.stateStore := stateStore;
      this.num := num;
      decisions := [];
    }

    method EvaluateState(r: Request, policy: Option<Definition>, decisionId: string, now: string)
        returns (outcome: Outcome)
      modifies this
      ensures Answers(num, Current(stateStore.rows, r.learner), r, policy, outcome)
      ensures decisions == old(decisions) + if outcome.Decided? then [outcome.decision] else []
    {
      if !ValidRequest(r) {
        return Rejected(InvalidRequest);
      }
      var current := stateStore.GetState(r.learner);
      if current.None? {
        return Rejected(StateNotFound);
      }
      var row := current.value;
      CurrentIsHighest(stateStore.rows, r.learner);
      if row.stateId != r.stateId || row.version != r.version {
        return Rejected(StateMismatch);
      }
      if policy.None? {
        return Rejected(PolicyNotFound);
      }
      outcome := Judge(row, policy.value, ContextOf(r.context), decisionId, now);
      if outcome.Decided? {
        decisions := decisions + [outcome.decision];
      }
    }

    method Judge(row: Row, p: Definition, context: Fields, decisionId: string, now: string) returns (outcome: Outcome)
      ensures outcome.Rejected? ==> outcome == Rejected(ForbiddenContext)
      ensures AnswersPolicy(num, row, p, context, outcome)
    {
      var result := EvaluatePolicy(num, row.state, p.rules);
      if result.NoMatch? {
        return Unmatched;
      }
      ghost var i :| FirstMatch(num, row.state, p.rules, i) && result.rule == p.rules[i] &&
                     result.evaluated == Policy.Evidence(num, row.state, p.rules[i].condition);
      OnlyFirstMatch(num, row.state, p.rules, i);
      var snapshot := Receipt.ExtractCanonicalSnapshot(row.state, p.rules);
      if !HasRationale(result.rule.id, result.evaluated) {
        return Threw;
      }
      var priority := FindPriority(p.rules, result.rule.id);
      var forbidden := DetectForbiddenKeys(Obj(context), "decision_context");
      if forbidden.Some? {
        return Rejected(ForbiddenContext);
      }
      var d := Kept(row.learner, decisionId, result.rule.decision, now, context, row.stateId, row.version,
                    p.policyId, p.policyVersion, result.rule.id, snapshot, result.evaluated, priority);
      assert FollowsFrom(num, row, p, context, i, d);
      outcome := Decided(d);
    }
  }

  method FindPriority(rules: seq<Rule>, id: string) returns (priority: Option<nat>)
    ensures priority == PriorityOf(rules, id)
  {
    if id == "" {
      return None;
    }
    for i := 0 to |rules|
      invariant IndexFrom(rules, id, i) == IndexFrom(rules, id, 0)
    {
      if rules[i].id == id {
        return Some(i + 1);
      }
    }
    priority := None;
  }

  lemma OnlyFirstMatch(num: ToNumber, state: Fields, rules: seq<Rule>, i: int)
    requires FirstMatch(num, state, rules, i)
    ensures !NothingMatches(num, state, rules) && forall j :: FirstMatch(num, state, rules, j) ==> j == i
  {
    assert rules[i] in rules;
  }

  // ----- What decisions are good for -----

  /** The decision can be replayed from its own snapshot: the same rule is the first to match there. */
  lemma DecisionReplays(num: ToNumber, row: Row, p: Definition, context: Fields, d: Kept)
    requires FollowsFromSome(num, row, p, context, d) && Receipt.RecordsAreNaN(num)
    ensures exists i ::
              FirstMatch(num, d.snapshot, p.rules, i) && p.rules[i].id == d.ruleId && p.rules[i].decision == d.decision
  {
    var i: nat :| i < |p.rules| && FollowsFrom(num, row, p, context, i, d);
    Receipt.ReceiptReplay(num, row.state, p.rules, d.snapshot);
    assert FirstMatch(num, d.snapshot, p.rules, i);
  }

  /** Some rule of the policy holds of the state, and the first that does has something to say for itself. */
  ghost predicate Speaks(num: ToNumber, policy: Option<Definition>, state: Fields) {
    policy.Some? && !NothingMatches(num, state, policy.value.rules) && !Speechless(num, state, policy.value.rules)
  }

  /** A request that names the current version is decided if and only if the policy speaks. */
  lemma DecidedExactly(num: ToNumber, row: Row, r: Request, policy: Option<Definition>, outcome: Outcome)
    requires Answers(num, Some(row), r, policy, outcome) && ValidRequest(r)
    requires row.stateId == r.stateId && row.version == r.version
    ensures outcome.Decided? <==> Speaks(num, policy, row.state)
  {
    ContextIsClean(r.context);
    match outcome
    case Rejected(InvalidRequest) =>
    case Rejected(StateNotFound) =>
    case Rejected(StateMismatch) =>
    case Rejected(PolicyNotFound) =>
    case Rejected(ForbiddenContext) =>
    case _ =>
  }

  /** Under a policy that passed the structure check, building the rationale fails exactly when the first
      rule to match has the empty string for an id. */
  lemma SpeechlessExactly(num: ToNumber, state: Fields, rules: seq<Rule>)
    requires WellFormed(rules)
    ensures Speechless(num, state, rules) <==>
            exists i: nat :: i < |rules| && FirstMatch(num, state, rules, i) && rules[i].id == ""
  {
    forall i: nat | i < |rules| ensures Policy.Evidence(num, state, rules[i].condition) != [] {
      assert rules[i] in rules;
      EvidenceNotEmpty(num, state, rules[i].condition);
    }
  }

  /** The structure check lets such a rule through. */
  lemma EmptyRuleIdPasses(num: ToNumber)
    ensures var rule := Obj(map["rule_id" := Str(""), "decision_type" := Str("pause"),
                                "condition" := Obj(map["field" := Str("x"), "operator" := Str("eq"),
                                                       "value" := Bool(true)])]);
            ValidRules([rule]) && Speechless(num, map["x" := Bool(true)], ToRules([rule]))
  {
    var condition := map["field" := Str("x"), "operator" := Str("eq"), "value" := Bool(true)];
    LeafIsValid(condition);
    var rule := Obj(map["rule_id" := Str(""), "decision_type" := Str("pause"), "condition" := Obj(condition)]);
    assert rule.fields["condition"] == Obj(condition) && rule.fields["decision_type"] == Str("pause");
    assert ValidRule([rule], 0);
    var rules := ToRules([rule]);
    assert rules[0].id == "" && rules[0].condition == ToCondition(Obj(condition));
    var state: Fields := map["x" := Bool(true)];
    PartsOfWord("x");
    GetOne(state, "x");
    assert Holds(num, state, rules[0].condition);
    assert FirstMatch(num, state, rules, 0);
  }

  lemma LeafIsValid(f: Fields)
    requires f == map["field" := Str("x"), "operator" := Str("eq"), "value" := Bool(true)]
    ensures ValidNode(Obj(f)) && ToCondition(Obj(f)) == Leaf("x", Eq, Bool(true))
  {
    assert "all"[0] == 'a' && "any"[0] == 'a' && "field"[0] == 'f' && "operator"[0] == 'o' && "value"[0] == 'v';
    assert "all" !in f && "any" !in f;
    assert f["operator"] == Str("eq") && f["field"] == Str("x") && f["value"] == Bool(true);
  }

  /** The reported priority is the place, counted from one, of the first rule whose condition holds. */
  lemma PriorityIsFirstMatch(num: ToNumber, state: Fields, rules: seq<Rule>, i: nat)
    requires WellFormed(rules) && FirstMatch(num, state, rules, i) && rules[i].id != ""
    ensures PriorityOf(rules, rules[i].id) == Some(i + 1)
  {
    IndexOfDistinct(rules, i, 0);
  }

  lemma {:induction false} IndexOfDistinct(rules: seq<Rule>, i: nat, from: nat)
    requires WellFormed(rules) && from <= i < |rules|
    ensures IndexFrom(rules, rules[i].id, from) == Some(i + 1)
    decreases i - from
  {
    if from < i {
      IndexOfDistinct(rules, i, from + 1);
    }
  }

  /** How the keys of a decision's context begin; no forbidden key begins so. */
  predicate BeginsLikeContextKey(s: string) {
    |s| >= 4 && ((s[0] == 's' && s[1] == 'k') || (s[0] == 'a' && s[1] == 's' && s[3] == 'e') ||
                 (s[0] == 's' && s[1] == 'c' && s[2] == 'h'))
  }

  lemma NoForbiddenKeyBeginsSo(k: string)
    requires BeginsLikeContextKey(k)
    ensures !Forbidden(k)
  {
    assert forall i | 0 <= i < |PII_KEYS| :: !BeginsLikeContextKey(PII_KEYS[i]);
    assert forall i | 0 <= i < |SEMANTIC_KEYS| :: !BeginsLikeContextKey(SEMANTIC_KEYS[i]);
  }

  lemma PutTextClean(m: Fields, k: string, v: string)
    requires Clean(Obj(m)) && !Forbidden(k)
    ensures Clean(Obj(PutText(m, k, v)))
  {
  }

  /** The context check never fails. */
  lemma ContextIsClean(c: SignalContext)
    ensures Clean(Obj(ContextOf(c)))
  {
    NoForbiddenKeyBeginsSo("skill");
    NoForbiddenKeyBeginsSo("assessment_type");
    NoForbiddenKeyBeginsSo("school_id");
    var m1 := PutText(map[], "skill", c.skill);
    var m2 := PutText(m1, "assessment_type", c.assessmentType);
    PutTextClean(map[], "skill", c.skill);
    PutTextClean(m1, "assessment_type", c.assessmentType);
    PutTextClean(m2, "school_id", c.schoolId);
  }
}
