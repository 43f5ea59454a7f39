/** Policies: structure check, condition evaluation with collected evidence, first match wins. */
module Policy {
  import opened Json

  datatype Operator = Eq | Neq | Gt | Gte | Lt | Lte

  type Scalar = j: Json | j.Str? || j.Num? || j.Bool? witness Bool(true)

  datatype Condition =
    | Leaf(field: string, op: Operator, threshold: Scalar)
    | All(nodes: seq<Condition>)
    | Any(nodes: seq<Condition>)

  datatype Decision = Reinforce | Advance | Intervene | Pause

  datatype Rule = Rule(id: string, condition: Condition, decision: Decision)

  // ----- The structure check on parsed JSON -----

  const OPERATORS: map<string, Operator> :=
    map["eq" := Eq, "neq" := Neq, "gt" := Gt, "gte" := Gte, "lt" := Lt, "lte" := Lte]

  const DECISIONS: map<string, Decision> :=
    map["reinforce" := Reinforce, "advance" := Advance, "intervene" := Intervene, "pause" := Pause]

  predicate ValidLeaf(f: Fields) {
    "field" in f && f["field"].Str? &&
    "operator" in f && f["operator"].Str? && f["operator"].s in OPERATORS &&
    "value" in f && (f["value"].Str? || f["value"].Num? || f["value"].Bool?)
  }

  /** Exactly one of the three kinds of node, and a compound has two children or more. */
  predicate OneKind(f: Fields) {
    var count := (if "field" in f then 1 else 0) + (if "all" in f then 1 else 0) + (if "any" in f then 1 else 0);
    count == 1
  }

  predicate ValidNode(j: Json) {
    j.Obj? && OneKind(j.fields) &&
    ("field" in j.fields ==> ValidLeaf(j.fields)) &&
    (forall k | k in j.fields && (k == "all" || k == "any") ::
       j.fields[k].Arr? && |j.fields[k].items| >= 2 && forall c | c in j.fields[k].items :: ValidNode(c))
  }

  /** The condition a valid node stands for. */
  function ToCondition(j: Json): Condition
    requires ValidNode(j)
  {
    var f := j.fields;
    if "field" in f then Leaf(f["field"].s, OPERATORS[f["operator"].s], f["value"])
    else
      var k := if "all" in f then "all" else "any";
      var nodes := seq(|f[k].items|, i requires 0 <= i < |f[k].items| => ToCondition(f[k].items[i]));
      if k == "all" then All(nodes) else Any(nodes)
  }

  method ValidateConditionNode(node: Json) returns (ok: bool)
    ensures ok == ValidNode(node)
    decreases node
  {
    if !node.Obj? {
      return false;
    }
    var f := node.fields;
    if !OneKind(f) {
      return false;
    }
    if "field" in f {
      return ValidLeaf(f);
    }
    var k := if "all" in f then "all" else "any";
    if !f[k].Arr? || |f[k].items| < 2 {
      return false;
    }
    var children := f[k].items;
    for i := 0 to |children|
      invariant forall c | c in children[..i] :: ValidNode(c)
    {
      var childOk := ValidateConditionNode(children[i]);
      if !childOk {
        assert children[i] in f[k].items;
        return false;
      }
      assert children[..i + 1] == children[..i] + [children[i]];
    }
    assert children[..|children|] == children;
    ok := true;
  }

  datatype PolicyError = InvalidType | InvalidDecisionType

  /** What is asked of rule `i`, given the ids of the rules before it. */
  predicate ValidRule(rules: seq<Json>, i: nat)
    requires i < |rules|
  {
    var r := rules[i];
    r.Obj? && "rule_id" in r.fields && r.fields["rule_id"].Str? &&
    (forall h | 0 <= h < i :: RuleId(rules[h]) != RuleId(r)) &&
    "decision_type" in r.fields && r.fields["decision_type"].Str? && r.fields["decision_type"].s in DECISIONS &&
    "condition" in r.fields && ValidNode(r.fields["condition"])
  }

  function RuleId(r: Json): Option<Json> {
    if r.Obj? then At(r.fields, "rule_id") else None
  }

  ghost predicate ValidRules(rules: seq<Json>) {
    forall i: nat | i < |rules| :: ValidRule(rules, i)
  }

  method ValidateRules(rules: seq<Json>) returns (error: Option<PolicyError>)
    ensures error.None? <==> ValidRules(rules)
  {
    var seenRuleIds: set<string> := {};
    for index := 0 to |rules|
      invariant forall i: nat | i < index :: ValidRule(rules, i)
      invariant forall i | 0 <= i < index :: RuleId(rules[i]).Some? && RuleId(rules[i]).value.Str?
      invariant seenRuleIds == set i | 0 <= i < index :: RuleId(rules[i]).value.s
    {
      var r := rules[index];
      if !r.Obj? || "rule_id" !in r.fields || !r.fields["rule_id"].Str? {
        assert !ValidRule(rules, index);
        return Some(InvalidType);
      }
      var id := r.fields["rule_id"].s;
      if id in seenRuleIds {
        assert !ValidRule(rules, index);
        return Some(InvalidType);
      }
      seenRuleIds := seenRuleIds + {id};
      if "decision_type" !in r.fields || !r.fields["decision_type"].Str? || r.fields["decision_type"].s !in DECISIONS {
        assert !ValidRule(rules, index);
        return Some(InvalidDecisionType);
      }
      var ok := "condition" in r.fields;
      if ok {
        ok := ValidateConditionNode(r.fields["condition"]);
      }
      if !ok {
        assert !ValidRule(rules, index);
        return Some(InvalidType);
      }
    }
    error := None;
  }

  ghost function ToRules(rules: seq<Json>): (rs: seq<Rule>)
    requires ValidRules(rules)
    ensures |rs| == |rules|
  {
    seq(|rules|, i requires 0 <= i < |rules| =>
      assert ValidRule(rules, i);
      var f := rules[i].fields;
      Rule(f["rule_id"].s, ToCondition(f["condition"]), DECISIONS[f["decision_type"].s]))
  }

  /** What the structure check is for: compounds are not empty, and ids tell rules apart. */
  predicate HasLeaves(c: Condition) {
    match c
    case Leaf(_, _, _) => true
    case All(nodes) => nodes != [] && forall n | n in nodes :: HasLeaves(n)
    case Any(nodes) => nodes != [] && forall n | n in nodes :: HasLeaves(n)
  }

  ghost predicate WellFormed(rules: seq<Rule>) {
    (forall r | r in rules :: HasLeaves(r.condition)) &&
    forall i, j | 0 <= i < j < |rules| :: rules[i].id != rules[j].id
  }

  lemma {:induction false} ValidNodeHasLeaves(j: Json)
    requires ValidNode(j)
    ensures HasLeaves(ToCondition(j))
    decreases j
  {
    var f := j.fields;
    if "field" !in f {
      var k := if "all" in f then "all" else "any";
      forall i | 0 <= i < |f[k].items| ensures HasLeaves(ToCondition(f[k].items[i])) {
        ValidNodeHasLeaves(f[k].items[i]);
      }
    }
  }

  /** Rules that pass the structure check have leaves in every compound and distinct ids. */
  lemma ValidRulesWellFormed(rules: seq<Json>)
    requires ValidRules(rules)
    ensures WellFormed(ToRules(rules))
  {
    var rs := ToRules(rules);
    forall i | 0 <= i < |rs| ensures HasLeaves(rs[i].condition) {
      assert ValidRule(rules, i);
      ValidNodeHasLeaves(rules[i].fields["condition"]);
    }
    forall i, j | 0 <= i < j < |rs| ensures rs[i].id != rs[j].id {
      assert ValidRule(rules, i) && ValidRule(rules, j);
      assert RuleId(rules[i]) != RuleId(rules[j]);
    }
  }

  // ----- Evaluation -----

  datatype Extended = MinusInfinity | Finite(r: real) | PlusInfinity

  /** JavaScript's `Number(x)`; `None` is NaN. */
  type ToNumber = Json -> Option<Extended>

  predicate Below(a: Extended, b: Extended) {
    match (a, b)
    case (Finite(x), Finite(y)) => x < y
    case (MinusInfinity, _) => b != MinusInfinity
    case (_, PlusInfinity) => a != PlusInfinity
    case _ => false
  }

  predicate Compare(num: ToNumber, op: Operator, raw: Json, threshold: Json) {
    if op.Eq? then raw == threshold
    else if op.Neq? then raw != threshold
    else
      var a, b := num(raw), num(threshold);
      a.Some? && b.Some? &&
      match op
        case Gt => Below(b.value, a.value)
        case Gte => Below(b.value, a.value) || a == b
        case Lt => Below(a.value, b.value)
        case _ => Below(a.value, b.value) || a == b
  }

  datatype EvaluatedField = EvaluatedField(field: string, op: Operator, threshold: Scalar, actual: Option<Json>)

  /** The plain meaning of a condition. A leaf over an undefined field is false, whatever its operator. */
  predicate Holds(num: ToNumber, state: Fields, c: Condition) {
    match c
    case Leaf(field, op, threshold) =>
      var raw := Get(Obj(state), Parts(field));
      raw.Some? && Compare(num, op, raw.value, threshold)
    case All(nodes) => forall n | n in nodes :: Holds(num, state, n)
    case Any(nodes) => exists n | n in nodes :: Holds(num, state, n)
  }

  function LeafEvidence(state: Fields, c: Condition): EvaluatedField
    requires c.Leaf?
  {
    EvaluatedField(c.field, c.op, c.threshold, Get(Obj(state), Parts(c.field)))
  }

  /** The leaves the program looks at: left to right, stopping where the outcome is settled. */
  function Evidence(num: ToNumber, state: Fields, c: Condition): seq<EvaluatedField>
    decreases c, 1
  {
    match c
    case Leaf(_, _, _) => [LeafEvidence(state, c)]
    case All(nodes) => EvidenceUntil(num, state, nodes, false)
    case Any(nodes) => EvidenceUntil(num, state, nodes, true)
  }

  /** The evidence of the nodes up to and with the first that comes out as `stop`. */
  function EvidenceUntil(num: ToNumber, state: Fields, nodes: seq<Condition>, stop: bool): seq<EvaluatedField>
    decreases nodes, 0
  {
    if nodes == [] then []
    else
      Evidence(num, state, nodes[0]) +
      if Holds(num, state, nodes[0]) == stop then [] else EvidenceUntil(num, state, nodes[1..], stop)
  }

  lemma PrefixOfRest(nodes: seq<Condition>, i: nat)
    requires 0 < i <= |nodes|
    ensures nodes[..i] == [nodes[0]] + nodes[1..][..i - 1] && nodes[..i][1..] == nodes[1..][..i - 1]
    ensures nodes[i..] == nodes[1..][i - 1..]
    ensures nodes[0] in nodes[..i] && forall n | n in nodes[1..][..i - 1] :: n in nodes[..i]
  {
    assert nodes[..i] == [nodes[0]] + nodes[1..][..i - 1];
  }

  lemma {:induction false} EvidenceGrows(num: ToNumber, state: Fields, nodes: seq<Condition>, i: nat, stop: bool)
    requires i < |nodes| && forall n | n in nodes[..i] :: Holds(num, state, n) != stop
    ensures EvidenceUntil(num, state, nodes, stop)
            == EvidenceUntil(num, state, nodes[..i], stop) + EvidenceUntil(num, state, nodes[i..], stop)
  {
    if i > 0 {
      PrefixOfRest(nodes, i);
      assert Holds(num, state, nodes[0]) != stop;
      EvidenceGrows(num, state, nodes[1..], i - 1, stop);
      assert EvidenceUntil(num, state, nodes, stop) ==
             Evidence(num, state, nodes[0]) + EvidenceUntil(num, state, nodes[1..], stop);
      assert EvidenceUntil(num, state, nodes[..i], stop)
             == Evidence(num, state, nodes[0]) + EvidenceUntil(num, state, nodes[1..][..i - 1], stop);
      Associative(Evidence(num, state, nodes[0]), EvidenceUntil(num, state, nodes[1..][..i - 1], stop),
                  EvidenceUntil(num, state, nodes[i..], stop));
    } else {
      assert nodes[..0] == [] && nodes[0..] == nodes;
    }
  }

  /** One more node: its evidence comes after that of the nodes before it, and if it settles the outcome
      that is all the evidence there is. */
  lemma EvidenceOfNext(num: ToNumber, state: Fields, nodes: seq<Condition>, i: nat, stop: bool)
    requires i < |nodes| && forall n | n in nodes[..i] :: Holds(num, state, n) != stop
    ensures var upTo := EvidenceUntil(num, state, nodes[..i], stop) + Evidence(num, state, nodes[i]);
            EvidenceUntil(num, state, nodes[..i + 1], stop) == upTo &&
            (Holds(num, state, nodes[i]) == stop ==> EvidenceUntil(num, state, nodes, stop) == upTo)
  {
    EvidenceGrows(num, state, nodes, i, stop);
    var prefix := nodes[..i + 1];
    assert prefix[..i] == nodes[..i] && prefix[i..] == [nodes[i]];
    EvidenceGrows(num, state, prefix, i, stop);
    assert EvidenceUntil(num, state, [nodes[i]], stop) == Evidence(num, state, nodes[i]);
    assert nodes[i..][0] == nodes[i];
  }

  ghost predicate SomeNode(num: ToNumber, state: Fields, nodes: seq<Condition>, stop: bool) {
    exists n | n in nodes :: Holds(num, state, n) == stop
  }

  lemma Compound(num: ToNumber, state: Fields, c: Condition)
    requires !c.Leaf?
    ensures Evidence(num, state, c) == EvidenceUntil(num, state, c.nodes, c.Any?)
    ensures Holds(num, state, c) == if SomeNode(num, state, c.nodes, c.Any?) then c.Any? else !c.Any?
  {
  }

  /** The program's evaluator: a short-circuit walk that pushes each leaf it meets. */
  method EvaluateConditionCollecting(num: ToNumber, state: Fields, node: Condition, before: seq<EvaluatedField>)
      returns (holds: bool, collected: seq<EvaluatedField>)
    ensures holds == Holds(num, state, node)
    ensures collected == before + Evidence(num, state, node)
    decreases node, 1
  {
    if node.Leaf? {
      var raw := GetAtPath(state, node.field);
      collected := before + [EvaluatedField(node.field, node.op, node.threshold, raw)];
      holds := raw.Some? && Compare(num, node.op, raw.value, node.threshold);
      return;
    }
    // `all` stops at the first child that is false, `any` at the first that is true.
    var stopped;
    stopped, collected := EvaluateChildren(num, state, node.nodes, node.Any?, before);
    Compound(num, state, node);
    holds := if stopped then node.Any? else !node.Any?;
  }

  method EvaluateChildren(num: ToNumber, state: Fields, nodes: seq<Condition>, stop: bool, before: seq<EvaluatedField>)
      returns (stopped: bool, collected: seq<EvaluatedField>)
    ensures stopped <==> SomeNode(num, state, nodes, stop)
    ensures collected == before + EvidenceUntil(num, state, nodes, stop)
    decreases nodes, 0
  {
    collected := before;
    for i := 0 to |nodes|
      invariant !SomeNode(num, state, nodes[..i], stop)
      invariant collected == before + EvidenceUntil(num, state, nodes[..i], stop)
    {
      NextNode(num, state, nodes, i, stop, before);
      var childHolds;
      childHolds, collected := EvaluateConditionCollecting(num, state, nodes[i], collected);
      if childHolds == stop {
        return true, collected;
      }
    }
    assert nodes[..|nodes|] == nodes;
    stopped := false;
  }

  lemma NextNode(num: ToNumber, state: Fields, nodes: seq<Condition>, i: nat, stop: bool, before: seq<EvaluatedField>)
    requires i < |nodes| && !SomeNode(num, state, nodes[..i], stop)
    ensures SomeNode(num, state, nodes[..i + 1], stop) <==> Holds(num, state, nodes[i]) == stop
    ensures Holds(num, state, nodes[i]) == stop ==> SomeNode(num, state, nodes, stop)
    ensures var upTo := before + EvidenceUntil(num, state, nodes[..i], stop) + Evidence(num, state, nodes[i]);
            upTo == before + EvidenceUntil(num, state, nodes[..i + 1], stop) &&
            (Holds(num, state, nodes[i]) == stop ==> upTo == before + EvidenceUntil(num, state, nodes, stop))
  {
    SomeNext(num, state, nodes, i, stop);
    EvidenceOfNext(num, state, nodes, i, stop);
    Associative(before, EvidenceUntil(num, state, nodes[..i], stop), Evidence(num, state, nodes[i]));
  }

  lemma Associative(a: seq<EvaluatedField>, b: seq<EvaluatedField>, c: seq<EvaluatedField>)
    ensures a + b + c == a + (b + c)
  {
  }

  lemma SomeNext(num: ToNumber, state: Fields, nodes: seq<Condition>, i: nat, stop: bool)
    requires i < |nodes| && !SomeNode(num, state, nodes[..i], stop)
    ensures SomeNode(num, state, nodes[..i + 1], stop) <==> Holds(num, state, nodes[i]) == stop
    ensures Holds(num, state, nodes[i]) == stop ==> SomeNode(num, state, nodes, stop)
  {
    assert nodes[..i + 1] == nodes[..i] + [nodes[i]];
    assert nodes[i] in nodes;
  }

  /** Whatever the outcome, a condition with leaves in every compound leaves evidence. */
  lemma {:induction false} EvidenceNotEmpty(num: ToNumber, state: Fields, c: Condition)
    requires HasLeaves(c)
    ensures Evidence(num, state, c) != []
    decreases c
  {
    if !c.Leaf? {
      assert c.nodes[0] in c.nodes;
      EvidenceNotEmpty(num, state, c.nodes[0]);
    }
  }

  /** State `t` shows the values recorded in `fields`. */
  ghost predicate Shows(t: Fields, fields: seq<EvaluatedField>) {
    forall e | e in fields :: Get(Obj(t), Parts(e.field)) == e.actual
  }

  /** The evidence is sufficient: any state that shows the recorded values gives the same outcome, with
      the same evidence. */
  lemma {:induction false} EvidenceSuffices(num: ToNumber, s: Fields, t: Fields, c: Condition)
    requires Shows(t, Evidence(num, s, c))
    ensures Holds(num, t, c) == Holds(num, s, c)
    ensures Evidence(num, t, c) == Evidence(num, s, c)
    decreases c, 1
  {
    match c
    case Leaf(_, _, _) =>
      assert LeafEvidence(s, c) in Evidence(num, s, c);
    case All(nodes) => NodesSuffice(num, s, t, nodes, false);
    case Any(nodes) => NodesSuffice(num, s, t, nodes, true);
  }

  lemma {:induction false} NodesSuffice(num: ToNumber, s: Fields, t: Fields, nodes: seq<Condition>, stop: bool)
    requires Shows(t, EvidenceUntil(num, s, nodes, stop))
    ensures (exists n | n in nodes :: Holds(num, t, n) == stop) <==> (exists n | n in nodes :: Holds(num, s, n) == stop)
    ensures EvidenceUntil(num, t, nodes, stop) == EvidenceUntil(num, s, nodes, stop)
    decreases nodes, 0
  {
    if nodes != [] {
      forall e | e in Evidence(num, s, nodes[0]) ensures Get(Obj(t), Parts(e.field)) == e.actual {
        assert e in EvidenceUntil(num, s, nodes, stop);
      }
      EvidenceSuffices(num, s, t, nodes[0]);
      if Holds(num, s, nodes[0]) != stop {
        forall e | e in EvidenceUntil(num, s, nodes[1..], stop) ensures Get(Obj(t), Parts(e.field)) == e.actual {
          assert e in EvidenceUntil(num, s, nodes, stop);
        }
        NodesSuffice(num, s, t, nodes[1..], stop);
        assert nodes == [nodes[0]] + nodes[1..];
      }
    }
  }

  // ----- First match wins -----

  datatype PolicyResult = NoMatch | Matched(rule: Rule, evaluated: seq<EvaluatedField>)

  /** Rule `i` is the first whose condition holds. */
  ghost predicate FirstMatch(num: ToNumber, state: Fields, rules: seq<Rule>, i: int) {
    0 <= i < |rules| && Holds(num, state, rules[i].condition) &&
    forall h | 0 <= h < i :: !Holds(num, state, rules[h].condition)
  }

  ghost predicate NothingMatches(num: ToNumber, state: Fields, rules: seq<Rule>) {
    forall r | r in rules :: !Holds(num, state, r.condition)
  }

  method EvaluatePolicy(num: ToNumber, state: Fields, rules: seq<Rule>) returns (r: PolicyResult)
    ensures r.NoMatch? <==> NothingMatches(num, state, rules)
    ensures r.Matched? ==> exists i :: FirstMatch(num, state, rules, i) && r.rule == rules[i] &&
                                       r.evaluated == Evidence(num, state, rules[i].condition)
  {
    for i := 0 to |rules|
      invariant forall h | 0 <= h < i :: !Holds(num, state, rules[h].condition)
    {
      var rule := rules[i];
      var holds, evaluatedFields := EvaluateConditionCollecting(num, state, rule.condition, []);
      if holds {
        assert FirstMatch(num, state, rules, i);
        return Matched(rule, evaluatedFields);
      }
    }
    r := NoMatch;
  }
}
