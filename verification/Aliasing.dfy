/** Objects by reference: the merge stores parts of a payload as they are, and counting then writes into
    them. What that does to a recomputation over the same payload. */
module Aliasing {
  import opened Json
  import opened Evidence
  import DeepMerge

  datatype Value = Plain(j: Json) | Ref(node: Node)

  predicate IsNull(v: Value) {
    v.Plain? && v.j.Null?
  }

  /** A JavaScript object. A nested object is another one, held by reference. */
  class Node {
    var fields: map<string, Value>

    constructor (fields: map<string, Value>)
      ensures this.fields == fields
    {
      this.fields := fields;
    }
  }

  /** The object nests no deeper than `depth`. */
  ghost predicate Nests(n: Node, depth: nat)
    reads *
    decreases depth
  {
    forall k | k in n.fields && n.fields[k].Ref? :: depth > 0 && Nests(n.fields[k].node, depth - 1)
  }

  function Child(n: Node, k: string): Option<Node>
    reads n
  {
    if k in n.fields && n.fields[k].Ref? then Some(n.fields[k].node) else None
  }

  function Children(n: Node, k: string): set<Node>
    reads n
  {
    if Child(n, k).Some? then {Child(n, k).value} else {}
  }

  /** What the merge puts under `k`: null removes, two objects make a new one, outside the `world` of objects
      there were, and anything else, an object of the source included, is the source's own. */
  ghost predicate MergedAt(target: Node, source: Node, result: Node, k: string, world: set<Node>)
    reads target, source, result
  {
    if k !in source.fields then Untouched(target, result, k)
    else if IsNull(source.fields[k]) then k !in result.fields
    else if Child(source, k).Some? && Child(target, k).Some? then
      Child(result, k).Some? && Child(result, k).value !in world
    else k in result.fields && result.fields[k] == source.fields[k]
  }

  ghost predicate Untouched(target: Node, result: Node, k: string)
    reads target, result
  {
    (k in result.fields <==> k in target.fields) && (k in target.fields ==> result.fields[k] == target.fields[k])
  }

  /** The same one level further down, below a key with objects on both sides. */
  ghost predicate MergedBelow(target: Node, source: Node, result: Node, k: string, world: set<Node>)
    reads target, source, result, Children(target, k), Children(source, k), Children(result, k)
  {
    Child(target, k).Some? && Child(source, k).Some? ==>
      Child(result, k).Some? && Child(result, k).value != result &&
      forall l :: MergedAt(Child(target, k).value, Child(source, k).value, Child(result, k).value, l, world)
  }

  method Merge(target: Node, source: Node, ghost depth: nat, ghost world: set<Node>) returns (result: Node)
    requires Nests(source, depth)
    ensures fresh(result) && result !in world
    ensures forall k :: MergedAt(target, source, result, k, world) && MergedBelow(target, source, result, k, world)
    decreases depth, 1
  {
    result := new Node(target.fields);
    var keys := source.fields.Keys;
    while keys != {}
      invariant keys <= source.fields.Keys && fresh(result)
      invariant forall k | k !in keys ::
                  MergedAt(target, source, result, k, world) && MergedBelow(target, source, result, k, world)
      invariant forall k | k in keys :: Untouched(target, result, k)
    {
      var key :| key in keys;
      keys := keys - {key};
      assert Untouched(target, result, key);
      label before:
      MergeKey(target, source, result, key, depth, world);
      forall k | k !in keys && k != key
        ensures MergedAt(target, source, result, k, world) && MergedBelow(target, source, result, k, world)
      {
        assert old@before(MergedAt(target, source, result, k, world));
        assert old@before(MergedBelow(target, source, result, k, world));
      }
    }
  }

  ghost predicate NotAmong(result: Node, n: Node)
    reads n
  {
    result != n && forall k | k in n.fields && n.fields[k].Ref? :: n.fields[k].node != result
  }

  method MergeKey(target: Node, source: Node, result: Node, key: string, ghost depth: nat, ghost world: set<Node>)
    requires Nests(source, depth) && key in source.fields && NotAmong(result, target) && NotAmong(result, source)
    requires Untouched(target, result, key)
    modifies result
    ensures MergedAt(target, source, result, key, world) && MergedBelow(target, source, result, key, world)
    ensures forall k | k != key :: (k in result.fields <==> k in old(result.fields)) &&
                                   (k in result.fields ==> result.fields[k] == old(result.fields)[k])
    decreases depth, 0
  {
    var sourceVal := source.fields[key];
    if IsNull(sourceVal) {
      result.fields := result.fields - {key};
    } else if sourceVal.Ref? && key in result.fields && result.fields[key].Ref? {
      var merged := Merge(result.fields[key].node, sourceVal.node, depth - 1, world);
      result.fields := result.fields[key := Ref(merged)];
    } else {
      result.fields := result.fields[key := sourceVal];
    }
  }

  /** The object that holds a skill's scores. */
  function Entry(n: Node, skill: string): Option<Node>
    reads n, Children(n, SKILLS)
  {
    if Child(n, SKILLS).Some? then Child(Child(n, SKILLS).value, skill) else None
  }

  /** After the merge the state's entry for a skill of the payload is the payload's own object exactly when
      the prior state had no entry for the skill; otherwise it is a new one. */
  method MergeSharesEntry(prior: Node, payload: Node, skill: string, ghost depth: nat) returns (state: Node)
    requires Nests(payload, depth) && Entry(payload, skill).Some?
    ensures fresh(state) && Entry(state, skill).Some?
    ensures Entry(state, skill) == Entry(payload, skill) <==> Entry(prior, skill).None?
    ensures Entry(prior, skill).Some? ==> fresh(Entry(state, skill).value)
  {
    ghost var world := set n: Node {:trigger n.fields} | allocated(n);
    state := Merge(prior, payload, depth, world);
    assert MergedAt(prior, payload, state, SKILLS, world) && MergedBelow(prior, payload, state, SKILLS, world);
    if Child(prior, SKILLS).Some? {
      assert MergedAt(Child(prior, SKILLS).value, Child(payload, SKILLS).value, Child(state, SKILLS).value, skill,
                      world);
    }
  }

  function CountIn(entry: Node): int
    reads entry
  {
    if EVIDENCE in entry.fields && entry.fields[EVIDENCE].Plain? && entry.fields[EVIDENCE].j.Num?
    then entry.fields[EVIDENCE].j.n.Floor else 0
  }

  /** Counting, in place. */
  method Bump(entry: Node)
    modifies entry
    ensures entry.fields == old(entry.fields)[EVIDENCE := Plain(Num((old(CountIn(entry)) + 1) as real))]
    ensures forall n | EVIDENCE in old(entry.fields) && old(entry.fields)[EVIDENCE] == Plain(Num(n)) ::
              entry.fields[EVIDENCE] == Plain(Num((n.Floor + 1) as real))
    ensures (forall n :: EVIDENCE in old(entry.fields) ==> old(entry.fields)[EVIDENCE] != Plain(Num(n))) ==>
              entry.fields[EVIDENCE] == Plain(Num(1.0))
  {
    entry.fields := entry.fields[EVIDENCE := Plain(Num((CountIn(entry) + 1) as real))];
  }

  /** The first computation for a skill writes its count into the payload itself exactly when the prior state
      had no entry for the skill. */
  method FirstComputation(prior: Node, payload: Node, skill: string, ghost depth: nat) returns (state: Node)
    requires Nests(payload, depth) && Entry(payload, skill).Some? && EVIDENCE !in Entry(payload, skill).value.fields
    modifies Entry(payload, skill).value
    ensures var entry := old(Entry(payload, skill).value);
            entry.fields ==
            if old(Entry(prior, skill)).None? then old(entry.fields)[EVIDENCE := Plain(Num(1.0))] else old(entry.fields)
  {
    state := MergeSharesEntry(prior, payload, skill, depth);
    Bump(Entry(state, skill).value);
  }

  // ----- What the recomputation makes of it -----

  function CountAfter(state: Fields, payload: Fields, skill: string): int {
    EvidenceCount(Counted(MergeAll(state, [Obj(payload)]), [Obj(payload)]), skill)
  }

  /** A payload that scores the skill in its own entry and sets no count. */
  predicate ScoresSkill(payload: Fields, skill: string) {
    SKILLS in payload && payload[SKILLS].Obj? && skill in payload[SKILLS].fields &&
    HasScore(payload[SKILLS].fields[skill]) && EVIDENCE !in payload[SKILLS].fields[skill].fields
  }

  /** The payload after a first computation has counted in it. */
  function Touched(payload: Fields, skill: string): Fields
    requires ScoresSkill(payload, skill)
  {
    var entry := payload[SKILLS].fields[skill].fields;
    payload[SKILLS := Obj(payload[SKILLS].fields[skill := Obj(entry[EVIDENCE := Num(1.0)])])]
  }

  lemma OnePayload(state: Fields, payload: Fields, skill: string)
    requires skill in Scored(Obj(payload))
    ensures CountAfter(state, payload, skill) == EvidenceCount(DeepMerge.Merge(state, payload), skill) + 1
  {
    var p := [Obj(payload)];
    assert p[..0] == [];
    assert MergeAll(state, []) == state && Tally([], skill) == 0;
    assert Tally(p, skill) == 1;
    CountedConserves(MergeAll(state, p), p, skill);
  }

  lemma SetCountIsTaken(state: Fields, payload: Fields, skill: string)
    requires SKILLS in payload && payload[SKILLS].Obj? && skill in payload[SKILLS].fields &&
             payload[SKILLS].fields[skill].Obj?
    requires At(payload[SKILLS].fields[skill].fields, EVIDENCE) == Some(Num(1.0))
    ensures EvidenceCount(DeepMerge.Merge(state, payload), skill) == 1
  {
    var m := DeepMerge.Merge(state, payload);
    var b := payload[SKILLS].fields;
    if SKILLS in state && state[SKILLS].Obj? {
      var a := state[SKILLS].fields;
      assert m[SKILLS] == Obj(DeepMerge.Merge(a, b));
      if skill in a && a[skill].Obj? {
        assert DeepMerge.Merge(a, b)[skill] == Obj(DeepMerge.Merge(a[skill].fields, b[skill].fields));
        assert DeepMerge.Merge(a[skill].fields, b[skill].fields)[EVIDENCE] == Num(1.0);
      } else {
        assert DeepMerge.Merge(a, b)[skill] == b[skill];
      }
    } else {
      assert m[SKILLS] == payload[SKILLS];
    }
  }

  /** Over whatever state the retry finds, the recomputation with the touched payload arrives at a count of two,
      where the payload as logged adds one to the count that is there: right only when that count is one. */
  lemma RetryCount(refreshed: Fields, payload: Fields, skill: string)
    requires ScoresSkill(payload, skill)
    ensures CountAfter(refreshed, payload, skill) == EvidenceCount(refreshed, skill) + 1
    ensures CountAfter(refreshed, Touched(payload, skill), skill) == 2
    ensures CountAfter(refreshed, Touched(payload, skill), skill) == CountAfter(refreshed, payload, skill)
            <==> EvidenceCount(refreshed, skill) == 1
  {
    var touched := Touched(payload, skill);
    assert touched[SKILLS].fields[skill].fields[EVIDENCE] == Num(1.0);
    TouchedScores(payload, skill);
    OnePayload(refreshed, payload, skill);
    OnePayload(refreshed, touched, skill);
    MergeOneKeepsCount(refreshed, payload, skill);
    SetCountIsTaken(refreshed, touched, skill);
  }

  lemma TouchedScores(payload: Fields, skill: string)
    requires ScoresSkill(payload, skill)
    ensures skill in Scored(Obj(payload)) && skill in Scored(Obj(Touched(payload, skill)))
  {
    var entry := payload[SKILLS].fields[skill].fields;
    var touched := entry[EVIDENCE := Num(1.0)];
    assert MASTERY[0] != EVIDENCE[0];
    assert HasScore(Obj(touched));
    assert Object(Touched(payload, skill), SKILLS)[skill] == Obj(touched);
  }
}
