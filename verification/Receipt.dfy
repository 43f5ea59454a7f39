/** The state snapshot kept with a decision: the state cut down to the fields the policy names. */
module Receipt {
  import opened Json
  import opened Policy

  function FieldsOf(c: Condition): set<string> {
    match c
    case Leaf(field, _, _) => {field}
    case All(nodes) => FieldsOfNodes(nodes)
    case Any(nodes) => FieldsOfNodes(nodes)
  }

  function FieldsOfNodes(nodes: seq<Condition>): set<string> {
    if nodes == [] then {} else FieldsOfNodes(nodes[..|nodes| - 1]) + FieldsOf(nodes[|nodes| - 1])
  }

  lemma {:induction false} FieldsOfNode(nodes: seq<Condition>, n: Condition)
    requires n in nodes
    ensures FieldsOf(n) <= FieldsOfNodes(nodes)
  {
    if n != nodes[|nodes| - 1] {
      FieldsOfNode(nodes[..|nodes| - 1], n);
    }
  }

  function PolicyFields(rules: seq<Rule>): set<string> {
    set r, f | r in rules && f in FieldsOf(r.condition) :: f
  }

  method CollectPolicyFields(node: Condition, before: set<string>) returns (fields: set<string>)
    ensures fields == before + FieldsOf(node)
    decreases node
  {
    fields := before;
    if node.Leaf? {
      fields := fields + {node.field};
      return;
    }
    for i := 0 to |node.nodes|
      invariant fields == before + FieldsOfNodes(node.nodes[..i])
    {
      assert node.nodes[..i + 1][..i] == node.nodes[..i];
      fields := CollectPolicyFields(node.nodes[i], fields);
    }
    assert node.nodes[..|node.nodes|] == node.nodes;
  }

  /** A named field at or above `q`. The empty path names the whole state but is never written. */
  ghost predicate Covered(fields: set<string>, q: Path) {
    exists f | f in fields :: Parts(f) != [] && Parts(f) <= q
  }

  /** A defined named field strictly below `q`. */
  ghost predicate LeadsToField(state: Fields, fields: set<string>, q: Path) {
    exists f | f in fields :: q < Parts(f) && Get(Obj(state), Parts(f)).Some?
  }

  /** What the snapshot holds at `q`: the state's value at and below each named field, plain objects on
      the way down to one, and nothing anywhere else. */
  ghost predicate SnapshotAt(state: Fields, fields: set<string>, snapshot: Fields, q: Path) {
    var v := Get(Obj(snapshot), q);
    if Covered(fields, q) then v == Get(Obj(state), q)
    else if q == [] || LeadsToField(state, fields, q) then v.Some? && v.value.Obj?
    else v == None
  }

  ghost predicate IsSnapshot(state: Fields, fields: set<string>, snapshot: Fields) {
    forall q :: SnapshotAt(state, fields, snapshot, q)
  }

  lemma AddUndefined(state: Fields, fields: set<string>, snapshot: Fields, f: string)
    requires IsSnapshot(state, fields, snapshot) && Get(Obj(state), Parts(f)).None?
    ensures IsSnapshot(state, fields + {f}, snapshot)
  {
    var p := Parts(f);
    forall q ensures SnapshotAt(state, fields + {f}, snapshot, q) {
      assert SnapshotAt(state, fields, snapshot, q);
      LeadsGrows(state, fields, f, q);
      CoveredGrows(fields, f, q);
      if p <= q {
        assert q == p + q[|p|..];
        GetConcat(Obj(state), p, q[|p|..]);
        if LeadsToField(state, fields, q) {
          var g :| g in fields && q < Parts(g) && Get(Obj(state), Parts(g)).Some?;
          assert Parts(g) == p + Parts(g)[|p|..];
          GetConcat(Obj(state), p, Parts(g)[|p|..]);
          assert false;
        }
      }
    }
  }

  lemma CoveredGrows(fields: set<string>, f: string, q: Path)
    ensures Covered(fields + {f}, q) <==> Covered(fields, q) || (Parts(f) != [] && Parts(f) <= q)
  {
    if Covered(fields, q) {
      var g :| g in fields && Parts(g) != [] && Parts(g) <= q;
      assert g in fields + {f};
    }
    if Parts(f) != [] && Parts(f) <= q {
      assert f in fields + {f};
    }
  }

  lemma LeadsGrows(state: Fields, fields: set<string>, f: string, q: Path)
    ensures LeadsToField(state, fields + {f}, q) <==>
            LeadsToField(state, fields, q) || (q < Parts(f) && Get(Obj(state), Parts(f)).Some?)
  {
    if LeadsToField(state, fields, q) {
      var g :| g in fields && q < Parts(g) && Get(Obj(state), Parts(g)).Some?;
      assert g in fields + {f};
    }
    if q < Parts(f) && Get(Obj(state), Parts(f)).Some? {
      assert f in fields + {f};
    }
  }

  lemma AddDefined(state: Fields, fields: set<string>, snapshot: Fields, f: string, v: Json)
    requires IsSnapshot(state, fields, snapshot) && Get(Obj(state), Parts(f)) == Some(v)
    ensures IsSnapshot(state, fields + {f}, Set(snapshot, Parts(f), v))
  {
    var p := Parts(f);
    var after := Set(snapshot, p, v);
    assert SnapshotAt(state, fields, snapshot, p);
    if p != [] && Covered(fields, p) {
      SetSame(snapshot, p, v);
    }
    forall q ensures SnapshotAt(state, fields + {f}, after, q) {
      assert SnapshotAt(state, fields, snapshot, q);
      LeadsGrows(state, fields, f, q);
      CoveredGrows(fields, f, q);
      if p == [] {
      } else if p <= q {
        assert q == p + q[|p|..];
        GetSetBelow(snapshot, p, v, q[|p|..]);
        GetConcat(Obj(state), p, q[|p|..]);
      } else if q < p {
        GetSetAbove(snapshot, p, v, q);
        if Covered(fields, q) {
          var g :| g in fields && Parts(g) != [] && Parts(g) <= q;
          assert Parts(g) <= p;
        }
      } else {
        GetSetElsewhere(snapshot, p, v, q);
      }
    }
  }

  /** The program's loops: collect the fields of every rule, then copy each defined one, in any order. */
  method ExtractCanonicalSnapshot(state: Fields, rules: seq<Rule>) returns (snapshot: Fields)
    ensures IsSnapshot(state, PolicyFields(rules), snapshot)
  {
    var fields: set<string> := {};
    for i := 0 to |rules|
      invariant fields == PolicyFields(rules[..i])
    {
      assert rules[..i + 1] == rules[..i] + [rules[i]];
      fields := CollectPolicyFields(rules[i].condition, fields);
    }
    assert rules[..|rules|] == rules;
    snapshot := map[];
    var left := fields;
    EmptySnapshot(state);
    while left != {}
      invariant left <= fields
      invariant IsSnapshot(state, fields - left, snapshot)
    {
      var field :| field in left;
      var value := GetAtPath(state, field);
      ghost var done := fields - left;
      left := left - {field};
      assert fields - left == done + {field};
      if value.Some? {
        AddDefined(state, done, snapshot, field, value.value);
        snapshot := Set(snapshot, Parts(field), value.value);
      } else {
        AddUndefined(state, done, snapshot, field);
      }
    }
    assert fields - left == fields;
  }

  lemma EmptySnapshot(state: Fields)
    ensures IsSnapshot(state, {}, map[])
  {
    forall q ensures SnapshotAt(state, {}, map[], q) {}
  }

  // ----- What a snapshot is good for -----

  /** The value of JavaScript's `Number` on a plain object is NaN. */
  ghost predicate RecordsAreNaN(num: ToNumber) {
    forall f: Fields :: num(Obj(f)).None?
  }

  lemma {:induction false} SameOutcome(num: ToNumber, state: Fields, all: set<string>, snapshot: Fields, c: Condition)
    requires RecordsAreNaN(num) && IsSnapshot(state, all, snapshot) && FieldsOf(c) <= all
    ensures Holds(num, snapshot, c) == Holds(num, state, c)
    decreases c
  {
    if c.Leaf? {
      var p := Parts(c.field);
      assert SnapshotAt(state, all, snapshot, p);
      if p != [] {
        assert Covered(all, p) by {
          assert c.field in FieldsOf(c) && c.field in all;
        }
      }
    } else {
      forall n | n in c.nodes ensures Holds(num, snapshot, n) == Holds(num, state, n) {
        FieldsOfNode(c.nodes, n);
        SameOutcome(num, state, all, snapshot, n);
      }
    }
  }

  /** Receipt replay: evaluated on its snapshot, the policy picks the same rule as on the full state, or
      none as there. */
  lemma ReceiptReplay(num: ToNumber, state: Fields, rules: seq<Rule>, snapshot: Fields)
    requires RecordsAreNaN(num) && IsSnapshot(state, PolicyFields(rules), snapshot)
    ensures NothingMatches(num, snapshot, rules) <==> NothingMatches(num, state, rules)
    ensures forall i :: FirstMatch(num, snapshot, rules, i) <==> FirstMatch(num, state, rules, i)
  {
    forall i | 0 <= i < |rules|
      ensures Holds(num, snapshot, rules[i].condition) == Holds(num, state, rules[i].condition)
    {
      assert rules[i] in rules;
      SameOutcome(num, state, PolicyFields(rules), snapshot, rules[i].condition);
    }
  }

  /** Nothing else leaks: whatever in the snapshot is not an object, and every empty object inside it, lies
      at or below a field the policy names and is the state's own value there. */
  lemma SnapshotLeaf(state: Fields, rules: seq<Rule>, snapshot: Fields, q: Path)
    requires IsSnapshot(state, PolicyFields(rules), snapshot)
    requires q != [] && Get(Obj(snapshot), q).Some?
    requires var v := Get(Obj(snapshot), q).value; v.Obj? ==> v.fields == map[]
    ensures exists f | f in PolicyFields(rules) :: Parts(f) != [] && Parts(f) <= q
    ensures Get(Obj(snapshot), q) == Get(Obj(state), q)
  {
    var fields := PolicyFields(rules);
    assert SnapshotAt(state, fields, snapshot, q);
    if !Covered(fields, q) {
      var f :| f in fields && q < Parts(f) && Get(Obj(state), Parts(f)).Some?;
      var p := Parts(f);
      assert SnapshotAt(state, fields, snapshot, p);
      assert Covered(fields, p);
      assert p == q + p[|q|..];
      GetConcat(Obj(snapshot), q, p[|q|..]);
      assert false;
    }
  }

  /** The order in which fields are copied does not matter: there is only one snapshot. */
  lemma SnapshotUnique(state: Fields, fields: set<string>, a: Fields, b: Fields)
    requires IsSnapshot(state, fields, a) && IsSnapshot(state, fields, b)
    ensures a == b
  {
    forall q ensures Similar(Get(Obj(a), q), Get(Obj(b), q)) {
      assert SnapshotAt(state, fields, a, q) && SnapshotAt(state, fields, b, q);
    }
    SameTree(Obj(a), Obj(b));
  }

  ghost predicate Similar(a: Option<Json>, b: Option<Json>) {
    a == b || (a.Some? && b.Some? && a.value.Obj? && b.value.Obj?)
  }

  lemma {:induction false} SameTree(a: Json, b: Json)
    requires forall q :: Similar(Get(a, q), Get(b, q))
    ensures a == b
    decreases a
  {
    assert Similar(Get(a, []), Get(b, []));
    if a.Obj? && b.Obj? {
      forall k ensures At(a.fields, k) == At(b.fields, k) {
        assert Similar(Get(a, [k]), Get(b, [k]));
        GetOne(a.fields, k);
        GetOne(b.fields, k);
        if k in a.fields && k in b.fields {
          forall q ensures Similar(Get(a.fields[k], q), Get(b.fields[k], q)) {
            assert ([k] + q)[1..] == q;
            assert Similar(Get(a, [k] + q), Get(b, [k] + q));
          }
          SameTree(a.fields[k], b.fields[k]);
        }
      }
      SameFields(a.fields, b.fields);
    }
  }
}
