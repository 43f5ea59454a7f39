/** Delta companions: for a numeric field F of the state, F_delta and F_direction say how it moved. */
module Deltas {
  import opened Json
  import opened ForbiddenKeys

  /** The field a companion belongs to. */
  function Owner(key: string): Option<string> {
    if EndsWith(key, DELTA) then Some(key[..|key| - |DELTA|])
    else if EndsWith(key, DIRECTION) then Some(key[..|key| - |DIRECTION|])
    else None
  }

  /** A base field is nobody's companion. */
  predicate Base(key: string) {
    Owner(key).None?
  }

  lemma OwnerIs(f: string, q: string)
    ensures Owner(q) == Some(f) <==> q == f + DELTA || q == f + DIRECTION
    ensures EndsWith(f + DELTA, DELTA) && !EndsWith(f + DIRECTION, DELTA) && f + DELTA != f + DIRECTION
  {
    assert (f + DELTA)[|f|..] == DELTA && (f + DELTA)[..|f|] == f;
    assert (f + DIRECTION)[|f|..] == DIRECTION && (f + DIRECTION)[..|f|] == f;
    NotBoth(f + DIRECTION);
    if EndsWith(q, DELTA) {
      assert q == q[..|q| - 6] + DELTA;
    } else if EndsWith(q, DIRECTION) {
      assert q == q[..|q| - 10] + DIRECTION;
    }
  }

  lemma NotBoth(q: string)
    ensures !(EndsWith(q, DELTA) && EndsWith(q, DIRECTION))
  {
    assert EndsWith(q, DELTA) ==> q[|q| - 6..][5] == q[|q| - 1];
    assert EndsWith(q, DIRECTION) ==> q[|q| - 10..][9] == q[|q| - 1];
  }

  predicate Numeric(m: Fields, k: string) {
    k in m && m[k].Num?
  }

  /** The field has a number to compare with a number. */
  predicate Moved(prior: Fields, next: Fields, f: string) {
    Numeric(prior, f) && Numeric(next, f)
  }

  predicate Gone(prior: Fields, next: Fields, f: string) {
    f in prior && f !in next
  }

  function Direction(delta: real): Json {
    Str(if delta > 0.0 then "improving" else if delta < 0.0 then "declining" else "stable")
  }

  function CompanionOf(q: string, delta: real): Json {
    if EndsWith(q, DELTA) then Num(delta) else Direction(delta)
  }

  function CompanionValue(prior: Fields, next: Fields, q: string): Json
    requires Owner(q).Some? && Moved(prior, next, Owner(q).value)
  {
    var f := Owner(q).value;
    CompanionOf(q, next[f].n - prior[f].n)
  }

  function WriteCompanions(m: Fields, key: string, delta: real): Fields {
    m[key + DELTA := Num(delta)][key + DIRECTION := Direction(delta)]
  }

  lemma WriteCompanionsAt(m: Fields, key: string, delta: real, q: string)
    ensures At(WriteCompanions(m, key, delta), q) ==
            if Owner(q) == Some(key) then Some(CompanionOf(q, delta)) else At(m, q)
  {
    OwnerIs(key, q);
  }

  lemma WriteCompanionsClean(m: Fields, key: string, delta: real)
    requires Clean(Obj(m))
    ensures Clean(Obj(WriteCompanions(m, key, delta)))
  {
    OwnerIs(key, key);
    assert (key + DIRECTION)[|key|..] == DIRECTION;
    CompanionsAreAllowed(key + DELTA);
    CompanionsAreAllowed(key + DIRECTION);
    var r := WriteCompanions(m, key, delta);
    forall k | k in r ensures !Forbidden(k) && Clean(r[k]) {
      WriteCompanionsAt(m, key, delta, k);
    }
  }

  // ----- The top level -----

  /** What the two flat passes leave at `q`: a companion of a moved field is computed, a companion of a
      field that is gone is gone, and anything else is as in `next`. */
  function Flat(prior: Fields, next: Fields, q: string): Option<Json> {
    match Owner(q)
    case None => At(next, q)
    case Some(f) =>
      if Moved(prior, next, f) then Some(CompanionValue(prior, next, q))
      else if Gone(prior, next, f) then None
      else At(next, q)
  }

  function Removed(m: Fields, key: string): Fields {
    m - {key + DELTA, key + DIRECTION}
  }

  lemma RemovedAt(m: Fields, key: string, q: string)
    ensures At(Removed(m, key), q) == if Owner(q) == Some(key) then None else At(m, q)
  {
    OwnerIs(key, q);
  }

  /** The first pass with `keys` still to come. */
  ghost predicate Compared(prior: Fields, next: Fields, result: Fields, keys: set<string>) {
    forall q :: At(result, q) == ComparedAt(prior, next, keys, q)
  }

  ghost function ComparedAt(prior: Fields, next: Fields, keys: set<string>, q: string): Option<Json> {
    if Owner(q).Some? && Owner(q).value !in keys && Moved(prior, next, Owner(q).value)
    then Some(CompanionValue(prior, next, q)) else At(next, q)
  }

  lemma CompareStep(prior: Fields, next: Fields, result: Fields, keys: set<string>, key: string)
    requires Compared(prior, next, result, keys) && key in keys && Moved(prior, next, key)
    ensures Compared(prior, next, WriteCompanions(result, key, next[key].n - prior[key].n), keys - {key})
  {
    forall q
      ensures At(WriteCompanions(result, key, next[key].n - prior[key].n), q) ==
              ComparedAt(prior, next, keys - {key}, q)
    {
      WriteCompanionsAt(result, key, next[key].n - prior[key].n, q);
      assert At(result, q) == ComparedAt(prior, next, keys, q);
    }
  }

  lemma CompareSkip(prior: Fields, next: Fields, result: Fields, keys: set<string>, key: string)
    requires Compared(prior, next, result, keys) && !Moved(prior, next, key)
    ensures Compared(prior, next, result, keys - {key})
  {
    forall q ensures At(result, q) == ComparedAt(prior, next, keys - {key}, q) {
      assert At(result, q) == ComparedAt(prior, next, keys, q);
    }
  }

  method CompareFields(prior: Fields, next: Fields) returns (result: Fields)
    ensures Compared(prior, next, result, {})
  {
    result := next;
    var keys := next.Keys;
    while keys != {}
      invariant keys <= next.Keys && Compared(prior, next, result, keys)
    {
      var key :| key in keys;
      if key in prior && next[key].Num? && prior[key].Num? {
        CompareStep(prior, next, result, keys, key);
        result := WriteCompanions(result, key, next[key].n - prior[key].n);
      } else {
        CompareSkip(prior, next, result, keys, key);
      }
      keys := keys - {key};
    }
  }

  ghost function RemovedUpTo(prior: Fields, next: Fields, keys: set<string>, q: string): Option<Json> {
    if Owner(q).Some? && Gone(prior, next, Owner(q).value) && Owner(q).value !in keys then None
    else ComparedAt(prior, next, {}, q)
  }

  lemma RemoveStep(prior: Fields, next: Fields, result: Fields, keys: set<string>, key: string)
    requires key in keys && key in prior && key !in next
    requires forall q :: At(result, q) == RemovedUpTo(prior, next, keys, q)
    ensures forall q :: At(Removed(result, key), q) == RemovedUpTo(prior, next, keys - {key}, q)
  {
    forall q ensures At(Removed(result, key), q) == RemovedUpTo(prior, next, keys - {key}, q) {
      RemovedAt(result, key, q);
      assert At(result, q) == RemovedUpTo(prior, next, keys, q);
    }
  }

  method FlatPasses(prior: Fields, next: Fields) returns (result: Fields)
    ensures forall q :: At(result, q) == Flat(prior, next, q)
  {
    result := CompareFields(prior, next);
    var keys := prior.Keys;
    forall q ensures At(result, q) == RemovedUpTo(prior, next, keys, q) {
      assert At(result, q) == ComparedAt(prior, next, {}, q);
    }
    while keys != {}
      invariant keys <= prior.Keys
      invariant forall q :: At(result, q) == RemovedUpTo(prior, next, keys, q)
    {
      var key :| key in keys;
      if key !in next {
        RemoveStep(prior, next, result, keys, key);
        result := Removed(result, key);
      }
      keys := keys - {key};
    }
    forall q ensures At(result, q) == Flat(prior, next, q) {
      assert At(result, q) == RemovedUpTo(prior, next, {}, q);
    }
  }

  // ----- The nested pass -----

  const MAX_DEPTH: nat := 5

  lemma OwnerIsShorter(key: string)
    ensures Owner(key).Some? ==> |Owner(key).value| < |key|
  {
  }

  /** The pass does not write the key as anybody's companion: it is a base field, or its owner was not there
      before, or its owner stands itself and neither moved nor went away. */
  predicate Stands(prior: Fields, next: Fields, key: string)
    decreases |key|
  {
    match Owner(key)
    case None => true
    case Some(f) =>
      OwnerIsShorter(key);
      f !in prior || (Stands(prior, next, f) && !Moved(prior, next, f) && !Gone(prior, next, f))
  }

  /** The companion of a field that stands itself. */
  predicate Owned(prior: Fields, next: Fields, q: string) {
    Owner(q).Some? && Stands(prior, next, Owner(q).value)
  }

  predicate BothObjects(prior: Fields, next: Fields, q: string) {
    q in next && next[q].Obj? && q in prior && prior[q].Obj?
  }

  /** A difference or a direction. */
  predicate CompanionLike(v: Json) {
    v.Num? || (v.Str? && v.s in ["improving", "declining", "stable"])
  }

  /** Its only numbers are companions. */
  ghost predicate Hollow(m: Fields) {
    forall k | k in m && m[k].Num? :: Owner(k).Some?
  }

  /** What the nested pass leaves. A key that stands keeps its value, or has been passed over likewise if it
      is an object on both sides, down to the depth limit. A moved number that stands has its companions, where
      an object under the companion's own key may be left as a shell without its numbers. A field that is gone
      has none. Nothing else is made up or lost. */
  ghost predicate Nested(prior: Fields, next: Fields, result: Fields, depth: nat)
    decreases Obj(next), 1
  {
    (forall k | Stands(prior, next, k) ::
       if k in next && next[k].Obj? && k in prior && prior[k].Obj? && depth + 1 < MAX_DEPTH
       then k in result && result[k].Obj? && Nested(prior[k].fields, next[k].fields, result[k].fields, depth + 1)
       else At(result, k) == At(next, k)) &&
    (forall q | Owned(prior, next, q) ::
       (Moved(prior, next, Owner(q).value) ==> Compensated(prior, next, result, q)) &&
       (Gone(prior, next, Owner(q).value) ==> q !in result)) &&
    forall q :: Accounted(prior, next, result, depth, q)
  }

  /** What may become of any key, whether it stands or not: it is as in `next`; or it is a companion, with a
      difference, a direction or nothing under it; or it is an object on both sides that has been passed over, or
      left as a shell. */
  ghost predicate Accounted(prior: Fields, next: Fields, result: Fields, depth: nat, q: string)
    decreases Obj(next), 0
  {
    At(result, q) == At(next, q) ||
    (Owner(q).Some? && (q in result ==> CompanionLike(result[q]))) ||
    (BothObjects(prior, next, q) && q in result && result[q].Obj? &&
     (Hollow(result[q].fields) ||
      (depth + 1 < MAX_DEPTH && Nested(prior[q].fields, next[q].fields, result[q].fields, depth + 1))))
  }

  /** The companion is stored, or an object on both sides is left in its place as a shell. */
  ghost predicate Compensated(prior: Fields, next: Fields, result: Fields, q: string)
    requires Owner(q).Some? && Moved(prior, next, Owner(q).value)
  {
    At(result, q) == Some(CompanionValue(prior, next, q)) ||
    (BothObjects(prior, next, q) && q in result && result[q].Obj? && Hollow(result[q].fields))
  }

  /** What the loop over the fields of `next` has done, with `keys` still to come. */
  ghost predicate StandingDone(prior: Fields, next: Fields, result: Fields, depth: nat, keys: set<string>, k: string) {
    if k !in keys && k in next && next[k].Obj? && k in prior && prior[k].Obj? && depth + 1 < MAX_DEPTH
    then k in result && result[k].Obj? && Nested(prior[k].fields, next[k].fields, result[k].fields, depth + 1)
    else At(result, k) == At(next, k)
  }

  ghost predicate CompanionDone(prior: Fields, next: Fields, result: Fields, keys: set<string>, q: string)
    requires Owner(q).Some?
  {
    var f := Owner(q).value;
    f !in keys && Moved(prior, next, f) ==>
      Compensated(prior, next, result, q) && (q in keys ==> At(result, q) == Some(CompanionValue(prior, next, q)))
  }

  ghost predicate NestedSoFar(prior: Fields, next: Fields, result: Fields, depth: nat, keys: set<string>) {
    (forall k | Stands(prior, next, k) :: StandingDone(prior, next, result, depth, keys, k)) &&
    (forall q | Owned(prior, next, q) :: CompanionDone(prior, next, result, keys, q)) &&
    forall q :: Accounted(prior, next, result, depth, q)
  }

  lemma SameAccount(prior: Fields, next: Fields, result: Fields, r: Fields, depth: nat, q: string)
    requires Accounted(prior, next, result, depth, q) && At(r, q) == At(result, q)
    ensures Accounted(prior, next, r, depth, q)
  {
  }

  lemma NumberOwned(prior: Fields, next: Fields, result: Fields, r: Fields, depth: nat, keys: set<string>,
                    key: string, n: real, q: string)
    requires NestedSoFar(prior, next, result, depth, keys) && key in keys && key in prior && prior[key].Num? &&
             key in next
    requires Stands(prior, next, key) ==> next[key] == Num(n)
    requires At(r, q) == if Owner(q) == Some(key) then Some(CompanionOf(q, n - prior[key].n)) else At(result, q)
    requires Owned(prior, next, q)
    ensures CompanionDone(prior, next, r, keys - {key}, q)
  {
    assert CompanionDone(prior, next, result, keys, q);
  }

  lemma NumberVisited(prior: Fields, next: Fields, result: Fields, depth: nat, keys: set<string>, key: string, n: real)
    requires NestedSoFar(prior, next, result, depth, keys) && key in keys && key in prior && prior[key].Num? &&
             key in next
    requires Stands(prior, next, key) ==> next[key] == Num(n)
    ensures NestedSoFar(prior, next, WriteCompanions(result, key, n - prior[key].n), depth, keys - {key})
  {
    var r := WriteCompanions(result, key, n - prior[key].n);
    forall q
      ensures At(r, q) == if Owner(q) == Some(key) then Some(CompanionOf(q, n - prior[key].n)) else At(result, q)
    {
      WriteCompanionsAt(result, key, n - prior[key].n, q);
    }
    forall k | Stands(prior, next, k) ensures StandingDone(prior, next, r, depth, keys - {key}, k) {
      assert StandingDone(prior, next, result, depth, keys, k);
      assert Owner(k) != Some(key) && At(r, k) == At(result, k);
    }
    forall q | Owned(prior, next, q) ensures CompanionDone(prior, next, r, keys - {key}, q) {
      NumberOwned(prior, next, result, r, depth, keys, key, n, q);
    }
    forall q ensures Accounted(prior, next, r, depth, q) {
      if Owner(q) == Some(key) {
        assert At(r, q) == Some(CompanionOf(q, n - prior[key].n));
      } else {
        SameAccount(prior, next, result, r, depth, q);
      }
    }
  }

  /** What the pass makes of the object under a key: in place if it is there, on a new one if not. */
  ghost predicate Descended(prior: Fields, next: Fields, depth: nat, key: string, inPlace: bool, nested: Fields)
    requires BothObjects(prior, next, key)
  {
    if !inPlace then Hollow(nested)
    else if depth + 1 < MAX_DEPTH then Nested(prior[key].fields, next[key].fields, nested, depth + 1)
    else nested == next[key].fields
  }

  lemma ObjectVisited(prior: Fields, next: Fields, result: Fields, depth: nat, keys: set<string>, key: string,
                      nested: Fields)
    requires NestedSoFar(prior, next, result, depth, keys) && key in keys
    requires BothObjects(prior, next, key) &&
             Descended(prior, next, depth, key, key in result && result[key].Obj?, nested)
    ensures NestedSoFar(prior, next, result[key := Obj(nested)], depth, keys - {key})
  {
    var r := result[key := Obj(nested)];
    forall k | Stands(prior, next, k) ensures StandingDone(prior, next, r, depth, keys - {key}, k) {
      assert StandingDone(prior, next, result, depth, keys, k);
      assert k != key ==> At(r, k) == At(result, k);
    }
    forall q | Owned(prior, next, q) ensures CompanionDone(prior, next, r, keys - {key}, q) {
      assert CompanionDone(prior, next, result, keys, q);
      assert q != key ==> At(r, q) == At(result, q);
    }
    forall q | q != key ensures Accounted(prior, next, r, depth, q) {
      SameAccount(prior, next, result, r, depth, q);
    }
  }

  lemma NothingVisited(prior: Fields, next: Fields, result: Fields, depth: nat, keys: set<string>, key: string)
    requires NestedSoFar(prior, next, result, depth, keys) && key in keys
    requires Stands(prior, next, key) ==> !BothObjects(prior, next, key) && !Moved(prior, next, key)
    ensures NestedSoFar(prior, next, result, depth, keys - {key})
  {
    forall k | Stands(prior, next, k) ensures StandingDone(prior, next, result, depth, keys - {key}, k) {
      assert StandingDone(prior, next, result, depth, keys, k);
    }
    forall q | Owned(prior, next, q) ensures CompanionDone(prior, next, result, keys - {key}, q) {
      assert CompanionDone(prior, next, result, keys, q);
    }
  }

  lemma GoneVisited(prior: Fields, next: Fields, result: Fields, depth: nat, key: string)
    requires NestedSoFar(prior, next, result, depth, {}) && key in prior && (Stands(prior, next, key) ==> key !in next)
    ensures NestedSoFar(prior, next, Removed(result, key), depth, {})
  {
    var r := Removed(result, key);
    forall q ensures At(r, q) == if Owner(q) == Some(key) then None else At(result, q) {
      RemovedAt(result, key, q);
    }
    forall k | Stands(prior, next, k) ensures StandingDone(prior, next, r, depth, {}, k) {
      assert StandingDone(prior, next, result, depth, {}, k);
      assert Owner(k) != Some(key);
    }
    forall q | Owned(prior, next, q) ensures CompanionDone(prior, next, r, {}, q) {
      assert CompanionDone(prior, next, result, {}, q);
      assert Owner(q) != Some(key) ==> At(r, q) == At(result, q);
    }
    forall q ensures Accounted(prior, next, r, depth, q) {
      if Owner(q) == Some(key) {
        assert At(r, q) == None;
      } else {
        SameAccount(prior, next, result, r, depth, q);
      }
    }
  }

  /** What holds of `result` between two fields of the first loop. */
  ghost predicate Looping(prior: Fields, next: Fields, start: Fields, result: Fields, depth: nat, keys: set<string>,
                          shared: bool) {
    keys <= next.Keys && (shared ==> next.Keys <= result.Keys) &&
    (forall k | k in keys && k in result && result[k].Obj? :: result[k] == next[k]) &&
    (Clean(Obj(next)) ==> Clean(Obj(result))) &&
    (start == map[] ==> Hollow(result)) &&
    (start == next ==> NestedSoFar(prior, next, result, depth, keys))
  }

  lemma StandingUnvisited(prior: Fields, next: Fields, start: Fields, result: Fields, depth: nat, keys: set<string>,
                          shared: bool, key: string)
    requires Looping(prior, next, start, result, depth, keys, shared) && key in keys && start == next &&
             Stands(prior, next, key)
    ensures key in result && result[key] == next[key]
  {
    assert StandingDone(prior, next, result, depth, keys, key);
  }

  lemma LoopNumber(prior: Fields, next: Fields, start: Fields, result: Fields, depth: nat, keys: set<string>,
                   shared: bool, key: string, n: real)
    requires Looping(prior, next, start, result, depth, keys, shared) && key in keys && key in prior && prior[key].Num?
    requires start == next && Stands(prior, next, key) ==> next[key] == Num(n)
    ensures Looping(prior, next, start, WriteCompanions(result, key, n - prior[key].n), depth, keys - {key}, shared)
  {
    var r := WriteCompanions(result, key, n - prior[key].n);
    if start == next { NumberVisited(prior, next, result, depth, keys, key, n); }
    if Clean(Obj(next)) { WriteCompanionsClean(result, key, n - prior[key].n); }
    NumberLeavesObjects(next, result, keys, key, n - prior[key].n);
  }

  /** Companions are no objects. */
  lemma NumberLeavesObjects(next: Fields, result: Fields, keys: set<string>, key: string, delta: real)
    requires keys <= next.Keys && forall k | k in keys && k in result && result[k].Obj? :: result[k] == next[k]
    ensures var r := WriteCompanions(result, key, delta);
            result.Keys <= r.Keys && forall k | k in keys && k in r && r[k].Obj? :: r[k] == next[k]
  {
    var r := WriteCompanions(result, key, delta);
    forall k | k in keys ensures k in r && r[k].Obj? ==> At(r, k) == At(result, k) {
      WriteCompanionsAt(result, key, delta, k);
    }
  }

  lemma LoopObject(prior: Fields, next: Fields, start: Fields, result: Fields, depth: nat, keys: set<string>,
                   shared: bool, key: string, nested: Fields)
    requires Looping(prior, next, start, result, depth, keys, shared) && key in keys
    requires BothObjects(prior, next, key) &&
             Descended(prior, next, depth, key, key in result && result[key].Obj?, nested)
    requires Clean(next[key]) ==> Clean(Obj(nested))
    ensures Looping(prior, next, start, result[key := Obj(nested)], depth, keys - {key}, shared)
  {
    if start == next { ObjectVisited(prior, next, result, depth, keys, key, nested); }
  }

  lemma LoopNothing(prior: Fields, next: Fields, start: Fields, result: Fields, depth: nat, keys: set<string>,
                    shared: bool, key: string)
    requires Looping(prior, next, start, result, depth, keys, shared) && key in keys
    requires start == next && Stands(prior, next, key) ==> !BothObjects(prior, next, key) && !Moved(prior, next, key)
    ensures Looping(prior, next, start, result, depth, keys - {key}, shared)
  {
    if start == next { NothingVisited(prior, next, result, depth, keys, key); }
  }

  /** The recursive pass. It starts from a copy of `next` or from nothing; `shared` says that it starts from
      the very object `next`, so that what it writes is also what it reads next. */
  method ComputeNestedDeltas(prior: Fields, next: Fields, start: Fields, depth: nat, shared: bool)
      returns (result: Fields)
    requires start == next || (start == map[] && !shared)
    ensures depth < MAX_DEPTH && start == next ==> Nested(prior, next, result, depth)
    ensures depth >= MAX_DEPTH ==> result == start
    ensures start == map[] ==> Hollow(result)
    ensures Clean(Obj(next)) ==> Clean(Obj(result))
    decreases Obj(next), 1
  {
    result := start;
    if depth >= MAX_DEPTH {
      return;
    }
    result := CompareNested(prior, next, start, depth, shared);
    result := RemoveNested(prior, next, start, result, depth, shared);
  }

  method CompareNested(prior: Fields, next: Fields, start: Fields, depth: nat, shared: bool) returns (result: Fields)
    requires start == next || (start == map[] && !shared)
    requires depth < MAX_DEPTH
    ensures Looping(prior, next, start, result, depth, {}, shared)
    decreases Obj(next), 0, 2
  {
    result := start;
    var keys := next.Keys;
    while keys != {}
      invariant Looping(prior, next, start, result, depth, keys, shared)
    {
      var key :| key in keys;
      result := CompareKey(prior, next, start, result, depth, keys, shared, key);
      keys := keys - {key};
    }
  }

  /** What the loop reads under a key it has yet to visit. */
  lemma KeyRead(prior: Fields, next: Fields, start: Fields, before: Fields, depth: nat, keys: set<string>, shared: bool,
                key: string)
    requires Looping(prior, next, start, before, depth, keys, shared) && key in keys
    ensures key in next && (shared ==> key in before) &&
            (key in before && before[key].Obj? ==> before[key] == next[key])
    ensures start == next && Stands(prior, next, key) ==> key in before && before[key] == next[key]
  {
    if start == next && Stands(prior, next, key) {
      StandingUnvisited(prior, next, start, before, depth, keys, shared, key);
    }
  }

  /** The body of that loop. */
  method CompareKey(prior: Fields, next: Fields, ghost start: Fields, before: Fields, depth: nat,
                    ghost keys: set<string>, shared: bool, key: string)
      returns (result: Fields)
    requires Looping(prior, next, start, before, depth, keys, shared) && key in keys && depth < MAX_DEPTH
    ensures Looping(prior, next, start, result, depth, keys - {key}, shared)
    decreases Obj(next), 0, 1
  {
    KeyRead(prior, next, start, before, depth, keys, shared, key);
    var nextVal := if shared then before[key] else next[key];
    if nextVal.Num? && key in prior && prior[key].Num? {
      LoopNumber(prior, next, start, before, depth, keys, shared, key, nextVal.n);
      return WriteCompanions(before, key, nextVal.n - prior[key].n);
    } else if nextVal.Obj? && key in prior && prior[key].Obj? {
      result := CompareObject(prior, next, start, before, depth, keys, shared, key);
    } else {
      LoopNothing(prior, next, start, before, depth, keys, shared, key);
      return before;
    }
  }

  /** Below a key with objects on both sides: in place if the object is there, on a new one if not. */
  method CompareObject(prior: Fields, next: Fields, ghost start: Fields, before: Fields, depth: nat,
                       ghost keys: set<string>, shared: bool, key: string)
      returns (result: Fields)
    requires Looping(prior, next, start, before, depth, keys, shared) && key in keys && depth < MAX_DEPTH
    requires BothObjects(prior, next, key)
    ensures Looping(prior, next, start, result, depth, keys - {key}, shared)
    decreases Obj(next), 0, 0
  {
    var inPlace := key in before && before[key].Obj?;
    var nested := Descend(prior[key].fields, next[key].fields, depth + 1, inPlace);
    LoopObject(prior, next, start, before, depth, keys, shared, key, nested);
    result := before[key := Obj(nested)];
  }

  method Descend(prior: Fields, next: Fields, depth: nat, inPlace: bool) returns (nested: Fields)
    ensures inPlace && depth < MAX_DEPTH ==> Nested(prior, next, nested, depth)
    ensures inPlace && depth >= MAX_DEPTH ==> nested == next
    ensures !inPlace ==> Hollow(nested)
    ensures Clean(Obj(next)) ==> Clean(Obj(nested))
    decreases Obj(next), 2
  {
    nested := ComputeNestedDeltas(prior, next, if inPlace then next else map[], depth, inPlace);
  }

  /** What the second loop has removed, with `keys` still to come. */
  ghost predicate RemovedDone(prior: Fields, next: Fields, result: Fields, keys: set<string>) {
    forall q | Owned(prior, next, q) && Gone(prior, next, Owner(q).value) :: Owner(q).value in keys || q !in result
  }

  lemma RemoveKey(prior: Fields, next: Fields, result: Fields, keys: set<string>, key: string)
    requires RemovedDone(prior, next, result, keys)
    ensures RemovedDone(prior, next, Removed(result, key), keys - {key})
    ensures Clean(Obj(result)) ==> Clean(Obj(Removed(result, key)))
    ensures Hollow(result) ==> Hollow(Removed(result, key))
  {
    var r := Removed(result, key);
    forall q | Owned(prior, next, q) && Gone(prior, next, Owner(q).value)
      ensures Owner(q).value in keys - {key} || q !in r
    {
      RemovedAt(result, key, q);
      assert At(r, q) == None || At(r, q) == At(result, q);
    }
  }

  method RemoveNested(prior: Fields, next: Fields, ghost start: Fields, looped: Fields, depth: nat, shared: bool)
      returns (result: Fields)
    requires Looping(prior, next, start, looped, depth, {}, shared) && depth < MAX_DEPTH
    requires shared ==> start == next
    ensures start == next ==> Nested(prior, next, result, depth)
    ensures start == map[] ==> Hollow(result)
    ensures Clean(Obj(next)) ==> Clean(Obj(result))
  {
    result := looped;
    var keys := prior.Keys;
    while keys != {}
      invariant keys <= prior.Keys
      invariant Clean(Obj(next)) ==> Clean(Obj(result))
      invariant start == map[] ==> Hollow(result)
      invariant start == next ==> NestedSoFar(prior, next, result, depth, {})
      invariant start == next ==> RemovedDone(prior, next, result, keys)
    {
      var key :| key in keys;
      if start == next && Stands(prior, next, key) {
        assert StandingDone(prior, next, result, depth, {}, key);
      }
      if key !in (if shared then result else next) {
        if start == next {
          GoneVisited(prior, next, result, depth, key);
          RemoveKey(prior, next, result, keys, key);
        }
        result := Removed(result, key);
      }
      keys := keys - {key};
    }
    if start == next {
      NestedComplete(prior, next, result, depth);
    }
  }

  lemma NestedComplete(prior: Fields, next: Fields, result: Fields, depth: nat)
    requires NestedSoFar(prior, next, result, depth, {}) && RemovedDone(prior, next, result, {})
    ensures Nested(prior, next, result, depth)
  {
    forall k | Stands(prior, next, k)
      ensures if k in next && next[k].Obj? && k in prior && prior[k].Obj? && depth + 1 < MAX_DEPTH
              then k in result && result[k].Obj? && Nested(prior[k].fields, next[k].fields, result[k].fields, depth + 1)
              else At(result, k) == At(next, k)
    {
      assert StandingDone(prior, next, result, depth, {}, k);
    }
    forall q | Owned(prior, next, q) && Moved(prior, next, Owner(q).value) ensures Compensated(prior, next, result, q) {
      assert CompanionDone(prior, next, result, {}, q);
    }
  }

  // ----- Both passes together -----

  const AGGREGATION := "aggregation"

  /** The stored state, key by key: what the flat passes leave, except that below a key with objects on
      both sides the nested pass has been over the object. The aggregation is never touched. */
  ghost predicate IsDeltas(prior: Fields, next: Fields, result: Fields) {
    (forall q :: if BothObjects(prior, next, q) && q != AGGREGATION
                 then q in result && result[q].Obj? && Nested(prior[q].fields, next[q].fields, result[q].fields, 0)
                 else At(result, q) == Flat(prior, next, q)) &&
    (Clean(Obj(next)) ==> Clean(Obj(result)))
  }

  lemma FlatClean(prior: Fields, next: Fields, result: Fields)
    requires Clean(Obj(next)) && forall q :: At(result, q) == Flat(prior, next, q)
    ensures Clean(Obj(result))
  {
    forall k | k in result ensures !Forbidden(k) && Clean(result[k]) {
      assert At(result, k) == Flat(prior, next, k);
      if Owner(k).Some? && Moved(prior, next, Owner(k).value) {
        CompanionsAreAllowed(k);
      }
    }
  }

  ghost predicate DeltasSoFar(prior: Fields, next: Fields, result: Fields, keys: set<string>) {
    forall q :: DeltasAt(prior, next, result, keys, q)
  }

  ghost predicate DeltasAt(prior: Fields, next: Fields, result: Fields, keys: set<string>, q: string) {
    if BothObjects(prior, next, q) && q != AGGREGATION && q !in keys
    then q in result && result[q].Obj? && Nested(prior[q].fields, next[q].fields, result[q].fields, 0)
    else At(result, q) == Flat(prior, next, q)
  }

  lemma DeltaStep(prior: Fields, next: Fields, result: Fields, keys: set<string>, key: string, nested: Fields)
    requires DeltasSoFar(prior, next, result, keys) && key in keys && key != AGGREGATION &&
             BothObjects(prior, next, key)
    requires Nested(prior[key].fields, next[key].fields, nested, 0)
    ensures DeltasSoFar(prior, next, result[key := Obj(nested)], keys - {key})
  {
    var r := result[key := Obj(nested)];
    forall q ensures DeltasAt(prior, next, r, keys - {key}, q) {
      assert DeltasAt(prior, next, result, keys, q);
      assert q != key ==> At(r, q) == At(result, q);
    }
  }

  lemma NothingDescended(prior: Fields, next: Fields, result: Fields)
    requires forall q :: At(result, q) == Flat(prior, next, q)
    ensures DeltasSoFar(prior, next, result, next.Keys)
  {
    forall q ensures DeltasAt(prior, next, result, next.Keys, q) {
      assert At(result, q) == Flat(prior, next, q);
    }
  }

  lemma DeltaSkip(prior: Fields, next: Fields, result: Fields, keys: set<string>, key: string)
    requires DeltasSoFar(prior, next, result, keys) && (key == AGGREGATION || !BothObjects(prior, next, key))
    ensures DeltasSoFar(prior, next, result, keys - {key})
  {
    forall q ensures DeltasAt(prior, next, result, keys - {key}, q) {
      assert DeltasAt(prior, next, result, keys, q);
    }
  }

  lemma DeltasComplete(prior: Fields, next: Fields, result: Fields)
    requires DeltasSoFar(prior, next, result, {}) && (Clean(Obj(next)) ==> Clean(Obj(result)))
    ensures IsDeltas(prior, next, result)
  {
    forall q
      ensures if BothObjects(prior, next, q) && q != AGGREGATION
              then q in result && result[q].Obj? && Nested(prior[q].fields, next[q].fields, result[q].fields, 0)
              else At(result, q) == Flat(prior, next, q)
    {
      assert DeltasAt(prior, next, result, {}, q);
    }
  }

  method ComputeStateDeltas(prior: Fields, next: Fields) returns (result: Fields)
    ensures IsDeltas(prior, next, result)
  {
    result := FlatPasses(prior, next);
    if Clean(Obj(next)) {
      FlatClean(prior, next, result);
    }
    var keys := next.Keys;
    NothingDescended(prior, next, result);
    while keys != {}
      invariant keys <= next.Keys
      invariant DeltasSoFar(prior, next, result, keys)
      invariant Clean(Obj(next)) ==> Clean(Obj(result))
    {
      var key :| key in keys;
      if key != AGGREGATION && next[key].Obj? && key in prior && prior[key].Obj? {
        var inPlace := key in result && result[key].Obj?;
        var nested := ComputeNestedDeltas(prior[key].fields, next[key].fields, next[key].fields, 0, inPlace);
        DeltaStep(prior, next, result, keys, key, nested);
        CleanStep(next, result, key, nested);
        result := result[key := Obj(nested)];
      } else {
        DeltaSkip(prior, next, result, keys, key);
      }
      keys := keys - {key};
    }
    DeltasComplete(prior, next, result);
  }

  lemma CleanStep(next: Fields, result: Fields, key: string, nested: Fields)
    requires key in next && next[key].Obj? && (Clean(Obj(next[key].fields)) ==> Clean(Obj(nested)))
    requires Clean(Obj(next)) ==> Clean(Obj(result))
    ensures Clean(Obj(next)) ==> Clean(Obj(result[key := Obj(nested)]))
  {
    assert Obj(next[key].fields) == next[key];
  }
  // ----- What the passes leave alone -----

  /** Equal but for companions, at any depth. */
  ghost predicate SameBase(a: Json, b: Json) {
    if a.Obj? && b.Obj?
    then forall k | Base(k) ::
      (k in a.fields <==> k in b.fields) && (k in a.fields ==> SameBase(a.fields[k], b.fields[k]))
    else a == b
  }

  lemma {:induction false} SameBaseHere(a: Json)
    ensures SameBase(a, a)
    decreases a
  {
    if a.Obj? {
      forall k | k in a.fields ensures SameBase(a.fields[k], a.fields[k]) {
        SameBaseHere(a.fields[k]);
      }
    }
  }

  lemma NestedAt(prior: Fields, next: Fields, result: Fields, depth: nat, k: string)
    requires Nested(prior, next, result, depth) && Base(k)
    ensures if BothObjects(prior, next, k) && depth + 1 < MAX_DEPTH
            then k in result && result[k].Obj? && Nested(prior[k].fields, next[k].fields, result[k].fields, depth + 1)
            else At(result, k) == At(next, k)
  {
    assert Stands(prior, next, k);
  }

  lemma SameBaseAt(next: Fields, result: Fields, k: string)
    requires At(result, k) == At(next, k)
    ensures (k in next <==> k in result) && (k in next ==> SameBase(next[k], result[k]))
  {
    if k in next {
      SameBaseHere(next[k]);
    }
  }

  /** The nested pass changes nothing but companions. */
  lemma {:induction false} NestedSameBase(prior: Fields, next: Fields, result: Fields, depth: nat)
    requires Nested(prior, next, result, depth)
    ensures SameBase(Obj(next), Obj(result))
    decreases Obj(next)
  {
    forall k | Base(k) ensures (k in next <==> k in result) && (k in next ==> SameBase(next[k], result[k])) {
      NestedAt(prior, next, result, depth, k);
      if BothObjects(prior, next, k) && depth + 1 < MAX_DEPTH {
        NestedSameBase(prior[k].fields, next[k].fields, result[k].fields, depth + 1);
        assert Obj(next[k].fields) == next[k] && Obj(result[k].fields) == result[k];
      } else {
        SameBaseAt(next, result, k);
      }
    }
  }

  /** Nor do all the passes together. */
  lemma DeltasSameBase(prior: Fields, next: Fields, state: Fields)
    requires IsDeltas(prior, next, state)
    ensures SameBase(Obj(next), Obj(state))
  {
    forall k | Base(k) ensures (k in next <==> k in state) && (k in next ==> SameBase(next[k], state[k])) {
      if BothObjects(prior, next, k) && k != AGGREGATION {
        NestedSameBase(prior[k].fields, next[k].fields, state[k].fields, 0);
        assert Obj(next[k].fields) == next[k] && Obj(state[k].fields) == state[k];
      } else {
        assert At(state, k) == Flat(prior, next, k);
        SameBaseAt(next, state, k);
      }
    }
  }
}
