/** What the text of a policy means: each operator, each compound and each decision by its spelling. */
module PolicyMeaning {
  import opened Json
  import opened Policy

  /** What the state shows at the leaf's field. */
  function Actual(state: Fields, f: Fields): Option<Json>
    requires ValidNode(Obj(f)) && "field" in f
  {
    Get(Obj(state), Parts(f["field"].s))
  }

  function Outcome(num: ToNumber, state: Fields, f: Fields): bool
    requires ValidNode(Obj(f))
  {
    Holds(num, state, ToCondition(Obj(f)))
  }

  predicate IsLeaf(f: Fields, operator: string) {
    ValidNode(Obj(f)) && "field" in f && f["operator"].s == operator
  }

  lemma LeafIs(f: Fields)
    requires ValidNode(Obj(f)) && "field" in f
    ensures ToCondition(Obj(f)) == Leaf(f["field"].s, OPERATORS[f["operator"].s], f["value"])
  {
  }

  /** Over an undefined field a leaf is false, whatever its operator. */
  lemma UndefinedIsFalse(num: ToNumber, state: Fields, f: Fields)
    requires ValidNode(Obj(f)) && "field" in f && Actual(state, f).None?
    ensures !Outcome(num, state, f)
  {
    LeafIs(f);
  }

  /** `eq` is equality with the threshold, `neq` its opposite; `null` and objects count as values. */
  lemma EqualityLeaf(num: ToNumber, state: Fields, f: Fields)
    requires ValidNode(Obj(f)) && "field" in f && Actual(state, f).Some?
    ensures IsLeaf(f, "eq") ==> (Outcome(num, state, f) <==> Actual(state, f).value == f["value"])
    ensures IsLeaf(f, "neq") ==> (Outcome(num, state, f) <==> Actual(state, f).value != f["value"])
  {
    LeafIs(f);
  }

  /** The four order operators compare the numbers of both sides. */
  lemma FiniteLeaf(num: ToNumber, state: Fields, f: Fields, x: real, y: real)
    requires ValidNode(Obj(f)) && "field" in f && Actual(state, f).Some?
    requires num(Actual(state, f).value) == Some(Finite(x)) && num(f["value"]) == Some(Finite(y))
    ensures IsLeaf(f, "gt") ==> (Outcome(num, state, f) <==> x > y)
    ensures IsLeaf(f, "gte") ==> (Outcome(num, state, f) <==> x >= y)
    ensures IsLeaf(f, "lt") ==> (Outcome(num, state, f) <==> x < y)
    ensures IsLeaf(f, "lte") ==> (Outcome(num, state, f) <==> x <= y)
  {
    LeafIs(f);
  }

  /** They are false as soon as one side is no number. */
  lemma NaNLeaf(num: ToNumber, state: Fields, f: Fields)
    requires ValidNode(Obj(f)) && "field" in f && Actual(state, f).Some?
    requires num(Actual(state, f).value).None? || num(f["value"]).None?
    requires f["operator"].s in {"gt", "gte", "lt", "lte"}
    ensures !Outcome(num, state, f)
  {
    LeafIs(f);
  }

  /** An infinite side is above or below everything but itself. */
  lemma InfiniteLeaf(num: ToNumber, state: Fields, f: Fields, a: Extended, b: Extended)
    requires ValidNode(Obj(f)) && "field" in f && Actual(state, f).Some?
    requires num(Actual(state, f).value) == Some(a) && num(f["value"]) == Some(b) && (!a.Finite? || !b.Finite?)
    ensures IsLeaf(f, "gt") ==> (Outcome(num, state, f) <==> a != b && (a.PlusInfinity? || b.MinusInfinity?))
    ensures IsLeaf(f, "gte") ==> (Outcome(num, state, f) <==> a.PlusInfinity? || b.MinusInfinity?)
    ensures IsLeaf(f, "lt") ==> (Outcome(num, state, f) <==> a != b && (a.MinusInfinity? || b.PlusInfinity?))
    ensures IsLeaf(f, "lte") ==> (Outcome(num, state, f) <==> a.MinusInfinity? || b.PlusInfinity?)
  {
    LeafIs(f);
  }

  /** `all` holds when every child does, `any` when one does. */
  lemma CompoundMeans(num: ToNumber, state: Fields, f: Fields)
    requires ValidNode(Obj(f))
    ensures "all" in f ==>
              (Outcome(num, state, f) <==>
               forall i | 0 <= i < |f["all"].items| :: Holds(num, state, ToCondition(f["all"].items[i])))
    ensures "any" in f ==>
              (Outcome(num, state, f) <==>
               exists i | 0 <= i < |f["any"].items| :: Holds(num, state, ToCondition(f["any"].items[i])))
  {
    if "field" !in f {
      var k := if "all" in f then "all" else "any";
      var c, items := ToCondition(Obj(f)), f[k].items;
      assert |c.nodes| == |items| && forall i | 0 <= i < |items| :: c.nodes[i] == ToCondition(items[i]);
      assert forall i | 0 <= i < |items| :: c.nodes[i] in c.nodes;
    }
  }

  /** The children a compound looks at: up to and with the first that settles it. */
  ghost predicate LooksAt(num: ToNumber, state: Fields, nodes: seq<Condition>, settled: bool, n: nat) {
    n <= |nodes| && (forall i | 0 <= i < n - 1 :: Holds(num, state, nodes[i]) != settled) &&
    (n < |nodes| ==> n > 0 && Holds(num, state, nodes[n - 1]) == settled)
  }

  function AllEvidence(num: ToNumber, state: Fields, nodes: seq<Condition>): seq<EvaluatedField> {
    if nodes == [] then [] else Policy.Evidence(num, state, nodes[0]) + AllEvidence(num, state, nodes[1..])
  }

  /** The evidence of a compound is that of these children, in their order; `all` is settled by a child that is
      false, `any` by one that is true. */
  lemma {:induction false} EvidenceUpTo(num: ToNumber, state: Fields, nodes: seq<Condition>, settled: bool, n: nat)
    requires LooksAt(num, state, nodes, settled, n)
    ensures EvidenceUntil(num, state, nodes, settled) == AllEvidence(num, state, nodes[..n])
  {
    if nodes != [] {
      assert n > 0;
      var rest := nodes[1..];
      assert nodes[..n][1..] == rest[..n - 1];
      if n > 1 || n == |nodes| == 1 {
        assert forall i | 0 <= i < n - 2 :: rest[i] == nodes[i + 1];
        if n > 1 {
          EvidenceUpTo(num, state, rest, settled, n - 1);
        } else {
          assert rest == [];
        }
      } else {
        assert rest[..0] == [];
      }
    }
  }

  lemma CompoundEvidence(num: ToNumber, state: Fields, nodes: seq<Condition>, n: nat)
    ensures LooksAt(num, state, nodes, false, n) ==>
              Policy.Evidence(num, state, All(nodes)) == AllEvidence(num, state, nodes[..n])
    ensures LooksAt(num, state, nodes, true, n) ==>
              Policy.Evidence(num, state, Any(nodes)) == AllEvidence(num, state, nodes[..n])
  {
    if LooksAt(num, state, nodes, false, n) {
      EvidenceUpTo(num, state, nodes, false, n);
    }
    if LooksAt(num, state, nodes, true, n) {
      EvidenceUpTo(num, state, nodes, true, n);
    }
  }

  /** The rules keep their order, their ids and their decisions. */
  lemma RuleMeans(rules: seq<Json>, i: nat)
    requires ValidRules(rules) && i < |rules|
    ensures ValidRule(rules, i)
    ensures var f, r := rules[i].fields, ToRules(rules)[i];
            r.id == f["rule_id"].s && r.condition == ToCondition(f["condition"]) &&
            (r.decision == Reinforce <==> f["decision_type"] == Str("reinforce")) &&
            (r.decision == Advance <==> f["decision_type"] == Str("advance")) &&
            (r.decision == Intervene <==> f["decision_type"] == Str("intervene")) &&
            (r.decision == Pause <==> f["decision_type"] == Str("pause"))
  {
    assert ValidRule(rules, i);
    assert "reinforce"[0] == 'r' && "advance"[0] == 'a' && "intervene"[0] == 'i' && "pause"[0] == 'p';
  }

  /** A compound is accepted with two children or more, all of them accepted, and as nothing else besides. */
  lemma CompoundAccepted(f: Fields, k: string)
    requires k in {"all", "any"} && k in f
    ensures ValidNode(Obj(f)) <==>
            "field" !in f && (if k == "all" then "any" !in f else "all" !in f) &&
            f[k].Arr? && |f[k].items| >= 2 && forall i | 0 <= i < |f[k].items| :: ValidNode(f[k].items[i])
  {
    assert "all" != "any" && "field"[0] == 'f';
    if f[k].Arr? {
      assert forall i | 0 <= i < |f[k].items| :: f[k].items[i] in f[k].items;
    }
  }

  /** A node of no kind, or that is no object, is refused; a leaf must be nothing but a leaf. */
  lemma KindAccepted(j: Json)
    ensures !j.Obj? ==> !ValidNode(j)
    ensures j.Obj? && !("field" in j.fields || "all" in j.fields || "any" in j.fields) ==> !ValidNode(j)
    ensures j.Obj? && "field" in j.fields ==>
              (ValidNode(j) <==> "all" !in j.fields && "any" !in j.fields && ValidLeaf(j.fields))
  {
  }

  /** A rule needs a text for an id that no rule before it has, a known decision and an accepted condition. */
  lemma RuleAccepted(rules: seq<Json>, i: nat, f: Fields)
    requires i < |rules| && rules[i] == Obj(f)
    ensures ValidRule(rules, i) <==>
            (exists id :: At(f, "rule_id") == Some(Str(id)) &&
                          forall h | 0 <= h < i :: rules[h].Obj? ==> At(rules[h].fields, "rule_id") != Some(Str(id))) &&
            At(f, "decision_type") in {Some(Str("reinforce")), Some(Str("advance")), Some(Str("intervene")),
                                       Some(Str("pause"))} &&
            "condition" in f && ValidNode(f["condition"])
  {
    if ValidRule(rules, i) {
      var id := f["rule_id"].s;
      assert At(f, "rule_id") == Some(Str(id));
      forall h | 0 <= h < i && rules[h].Obj? ensures At(rules[h].fields, "rule_id") != Some(Str(id)) {
        assert RuleId(rules[h]) != RuleId(rules[i]);
      }
    }
  }

  /** A leaf is accepted with one of the six operators, a text for a field and a scalar for a threshold. */
  lemma LeafAccepted(f: Fields)
    ensures ValidLeaf(f) <==>
            "field" in f && f["field"].Str? &&
            "operator" in f && f["operator"].Str? && f["operator"].s in {"eq", "neq", "gt", "gte", "lt", "lte"} &&
            "value" in f && (f["value"].Str? || f["value"].Num? || f["value"].Bool?)
  {
  }
}
