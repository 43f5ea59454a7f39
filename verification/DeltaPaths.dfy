/** Which numbers of a state get companions, and which: by path, down to the sixth key. */
module DeltaPaths {
  import opened Json
  import opened ForbiddenKeys
  import opened Deltas
  import opened Evidence
  import opened BatchOrder

  /** The path of a companion. */
  function Beside(p: Path, suffix: string): Path
    requires p != []
  {
    p[..|p| - 1] + [p[|p| - 1] + suffix]
  }

  function Word(x: real, y: real): string {
    if y > x then "improving" else if y < x then "declining" else "stable"
  }

  /** No object is kept under the companion's own path on both sides. */
  predicate Room(prior: Fields, next: Fields, q: Path) {
    NoObject(prior, q) || NoObject(next, q)
  }

  /** The companions of the number at `p` that went from `x` to `y`. */
  predicate Companions(prior: Fields, next: Fields, state: Fields, p: Path, x: real, y: real)
    requires p != []
  {
    (Room(prior, next, Beside(p, "_delta")) ==> Get(Obj(state), Beside(p, "_delta")) == Some(Num(y - x))) &&
    (Room(prior, next, Beside(p, "_direction")) ==> Get(Obj(state), Beside(p, "_direction")) == Some(Str(Word(x, y))))
  }

  lemma SuffixOwner(f: string)
    ensures Owner(f + "_delta") == Some(f) && Owner(f + "_direction") == Some(f)
    ensures EndsWith(f + "_delta", DELTA) && !EndsWith(f + "_direction", DELTA)
  {
    OwnerIs(f, f + "_delta");
    OwnerIs(f, f + "_direction");
  }

  /** The same for one key of one object. */
  ghost predicate KeyCompanions(prior: Fields, next: Fields, state: Fields, k: string)
    requires Moved(prior, next, k)
  {
    forall q | Owner(q) == Some(k) && !BothObjects(prior, next, q) ::
      At(state, q) == Some(CompanionValue(prior, next, q))
  }

  lemma CompanionsHere(prior: Fields, next: Fields, state: Fields, k: string, x: real, y: real)
    requires At(prior, k) == Some(Num(x)) && At(next, k) == Some(Num(y))
    requires KeyCompanions(prior, next, state, k)
    ensures Companions(prior, next, state, [k], x, y)
  {
    SuffixOwner(k);
    assert Beside([k], "_delta") == [k + "_delta"] && Beside([k], "_direction") == [k + "_direction"];
    OneRoom(prior, next, state, k + "_delta");
    OneRoom(prior, next, state, k + "_direction");
  }

  lemma OneRoom(prior: Fields, next: Fields, state: Fields, q: string)
    ensures Room(prior, next, [q]) <==> !BothObjects(prior, next, q)
    ensures Get(Obj(state), [q]) == At(state, q)
  {
    GetOne(prior, q);
    GetOne(next, q);
    GetOne(state, q);
  }

  lemma NestedHere(prior: Fields, next: Fields, state: Fields, depth: nat, k: string)
    requires Nested(prior, next, state, depth) && Base(k) && Moved(prior, next, k)
    ensures KeyCompanions(prior, next, state, k)
  {
    forall q | Owner(q) == Some(k) && !BothObjects(prior, next, q)
      ensures At(state, q) == Some(CompanionValue(prior, next, q))
    {
      assert Owned(prior, next, q);
      assert Compensated(prior, next, state, q);
    }
  }

  lemma FlatHere(prior: Fields, next: Fields, state: Fields, k: string)
    requires IsDeltas(prior, next, state) && Moved(prior, next, k)
    ensures KeyCompanions(prior, next, state, k)
  {
    forall q | Owner(q) == Some(k) && !BothObjects(prior, next, q)
      ensures At(state, q) == Some(CompanionValue(prior, next, q))
    {
      assert At(state, q) == Flat(prior, next, q);
    }
  }

  lemma BelowKey(j: Fields, k: string, p: Path, suffix: string)
    requires p != []
    ensures Beside([k] + p, suffix) == [k] + Beside(p, suffix)
    ensures Get(Obj(j), [k] + p) == if k in j then Get(j[k], p) else None
    ensures Get(Obj(j), [k] + Beside(p, suffix)) == if k in j then Get(j[k], Beside(p, suffix)) else None
  {
    assert ([k] + p)[..|p|] == [k] + p[..|p| - 1];
    assert ([k] + p)[1..] == p && ([k] + Beside(p, suffix))[1..] == Beside(p, suffix);
  }

  lemma CompanionsBelow(prior: Fields, next: Fields, state: Fields, k: string, p: Path, x: real, y: real)
    requires p != [] && BothObjects(prior, next, k) && k in state && state[k].Obj?
    requires Companions(prior[k].fields, next[k].fields, state[k].fields, p, x, y)
    ensures Companions(prior, next, state, [k] + p, x, y)
  {
    BelowKey(prior, k, p, "_delta");
    BelowKey(next, k, p, "_delta");
    BelowKey(state, k, p, "_delta");
    BelowKey(prior, k, p, "_direction");
    BelowKey(next, k, p, "_direction");
    BelowKey(state, k, p, "_direction");
    assert Obj(prior[k].fields) == prior[k] && Obj(next[k].fields) == next[k] && Obj(state[k].fields) == state[k];
  }

  lemma NumberBelow(f: Fields, p: Path, x: real)
    requires |p| > 1 && Get(Obj(f), p) == Some(Num(x))
    ensures p[0] in f && f[p[0]].Obj? && Get(f[p[0]], p[1..]) == Some(Num(x))
  {
    GetStep(f[p[0]], p[1..]);
  }

  /** What the nested pass does to base fields, with `n` more levels to go. */
  ghost predicate Compares(prior: Fields, next: Fields, state: Fields, n: nat)
    decreases n, 1
  {
    (forall k | Base(k) && Moved(prior, next, k) :: KeyCompanions(prior, next, state, k)) &&
    forall k | Base(k) :: Passed(prior, next, state, n, k)
  }

  ghost predicate Passed(prior: Fields, next: Fields, state: Fields, n: nat, k: string)
    decreases n, 0
  {
    if BothObjects(prior, next, k) && n > 0
    then k in state && state[k].Obj? && Compares(prior[k].fields, next[k].fields, state[k].fields, n - 1)
    else At(state, k) == At(next, k)
  }

  lemma NestedAtLevel(prior: Fields, next: Fields, state: Fields, depth: nat, n: nat, k: string)
    requires Nested(prior, next, state, depth) && depth + n == 4 && Base(k)
    ensures if BothObjects(prior, next, k) && n > 0
            then k in state && state[k].Obj? && Nested(prior[k].fields, next[k].fields, state[k].fields, depth + 1)
            else At(state, k) == At(next, k)
  {
    NestedAt(prior, next, state, depth, k);
  }

  lemma NestedKeys(prior: Fields, next: Fields, state: Fields, depth: nat)
    requires Nested(prior, next, state, depth)
    ensures forall k | Base(k) && Moved(prior, next, k) :: KeyCompanions(prior, next, state, k)
  {
    forall k | Base(k) && Moved(prior, next, k) ensures KeyCompanions(prior, next, state, k) {
      NestedHere(prior, next, state, depth, k);
    }
  }

  lemma {:induction false} NestedPassed(prior: Fields, next: Fields, state: Fields, depth: nat, n: nat, k: string)
    requires Nested(prior, next, state, depth) && depth + n == 4 && Base(k)
    ensures Passed(prior, next, state, n, k)
    decreases n, 0
  {
    NestedAtLevel(prior, next, state, depth, n, k);
    if BothObjects(prior, next, k) && n > 0 {
      NestedCompares(prior[k].fields, next[k].fields, state[k].fields, depth + 1, n - 1);
    }
  }

  lemma {:induction false} NestedCompares(prior: Fields, next: Fields, state: Fields, depth: nat, n: nat)
    requires Nested(prior, next, state, depth) && depth + n == 4
    ensures Compares(prior, next, state, n)
    decreases n, 1
  {
    NestedKeys(prior, next, state, depth);
    forall k | Base(k) ensures Passed(prior, next, state, n, k) {
      NestedPassed(prior, next, state, depth, n, k);
    }
  }

  lemma {:induction false} ComparedCompanions(prior: Fields, next: Fields, state: Fields, n: nat, p: Path, x: real,
                                              y: real)
    requires Compares(prior, next, state, n) && AllBase(p) && 1 <= |p| <= n + 1
    requires Get(Obj(prior), p) == Some(Num(x)) && Get(Obj(next), p) == Some(Num(y))
    ensures Companions(prior, next, state, p, x, y)
    decreases |p|
  {
    var k := p[0];
    TailIsBase(p);
    if |p| == 1 {
      assert p == [k];
      GetOne(prior, k);
      GetOne(next, k);
      CompanionsHere(prior, next, state, k, x, y);
    } else {
      NumberBelow(prior, p, x);
      NumberBelow(next, p, y);
      assert Passed(prior, next, state, n, k);
      ComparedCompanions(prior[k].fields, next[k].fields, state[k].fields, n - 1, p[1..], x, y);
      CompanionsBelow(prior, next, state, k, p[1..], x, y);
      assert p == [k] + p[1..];
    }
  }

  lemma {:induction false} ComparedEnds(prior: Fields, next: Fields, state: Fields, n: nat, p: Path)
    requires Compares(prior, next, state, n) && AllBase(p) && |p| == n + 1
    ensures Get(Obj(state), p) == Get(Obj(next), p)
    decreases |p|
  {
    var k := p[0];
    TailIsBase(p);
    assert Passed(prior, next, state, n, k);
    if n > 0 && BothObjects(prior, next, k) {
      ComparedEnds(prior[k].fields, next[k].fields, state[k].fields, n - 1, p[1..]);
    } else {
      GetFirst(next, state, p);
    }
  }

  /** Below a key with objects on both sides. */
  lemma ComparedBelow(prior: Fields, next: Fields, state: Fields, k: string)
    requires IsDeltas(prior, next, state) && BothObjects(prior, next, k) && k != AGGREGATION
    ensures k in state && state[k].Obj? && Compares(prior[k].fields, next[k].fields, state[k].fields, 4)
  {
    NestedCompares(prior[k].fields, next[k].fields, state[k].fields, 0, 4);
  }

  /** Every number of a state down to the sixth key that was a number before, named like no companion and below no
      key that is, gets the difference and the direction beside it. */
  lemma CompanionsInside(prior: Fields, next: Fields, state: Fields, p: Path, x: real, y: real)
    requires IsDeltas(prior, next, state) && 1 < |p| <= 6 && AllBase(p) && p[0] != AGGREGATION
    requires Get(Obj(prior), p) == Some(Num(x)) && Get(Obj(next), p) == Some(Num(y))
    ensures Companions(prior, next, state, p, x, y)
  {
    TailIsBase(p);
    NumberBelow(prior, p, x);
    NumberBelow(next, p, y);
    ComparedBelow(prior, next, state, p[0]);
    CompanionsDeep(prior, next, state, p, x, y);
  }

  /** So does one at the top level. */
  lemma CompanionsTop(prior: Fields, next: Fields, state: Fields, k: string, x: real, y: real)
    requires IsDeltas(prior, next, state)
    requires Get(Obj(prior), [k]) == Some(Num(x)) && Get(Obj(next), [k]) == Some(Num(y))
    ensures Companions(prior, next, state, [k], x, y)
  {
    GetOne(prior, k);
    GetOne(next, k);
    FlatHere(prior, next, state, k);
    CompanionsHere(prior, next, state, k, x, y);
  }

  lemma CompanionsDeep(prior: Fields, next: Fields, state: Fields, p: Path, x: real, y: real)
    requires 1 < |p| <= 6 && AllBase(p[1..]) && BothObjects(prior, next, p[0]) && p[0] in state && state[p[0]].Obj?
    requires Compares(prior[p[0]].fields, next[p[0]].fields, state[p[0]].fields, 4)
    requires Get(prior[p[0]], p[1..]) == Some(Num(x)) && Get(next[p[0]], p[1..]) == Some(Num(y))
    ensures Companions(prior, next, state, p, x, y)
  {
    var k := p[0];
    ComparedCompanions(prior[k].fields, next[k].fields, state[k].fields, 4, p[1..], x, y);
    CompanionsBelow(prior, next, state, k, p[1..], x, y);
    assert p == [k] + p[1..];
  }

  /** What stands at the sixth key, objects included, is stored as it is: further down there are no companions. */
  lemma UntouchedBelow(prior: Fields, next: Fields, state: Fields, p: Path)
    requires IsDeltas(prior, next, state) && |p| == 6 && AllBase(p)
    ensures Get(Obj(state), p) == Get(Obj(next), p)
  {
    var k := p[0];
    TailIsBase(p);
    if BothObjects(prior, next, k) && k != AGGREGATION {
      ComparedBelow(prior, next, state, k);
      ComparedEnds(prior[k].fields, next[k].fields, state[k].fields, 4, p[1..]);
      GetStep(Obj(state), p);
      GetStep(Obj(next), p);
    } else {
      assert At(state, k) == Flat(prior, next, k);
      GetFirst(next, state, p);
    }
  }

  lemma SkillPathIsBase(name: string, metric: string)
    requires Base(name) && Base(metric)
    ensures AllBase(["skills", name, metric]) && "skills" != AGGREGATION
  {
    EvidenceIsBase();
    assert "skills"[0] == 's' && AGGREGATION[0] == 'a';
  }

  /** For every metric of a skill: the stored state holds the difference between the new and the prior number. */
  lemma SkillMetricMoves(prior: Fields, next: Fields, state: Fields, name: string, metric: string, x: real, y: real)
    requires IsDeltas(prior, next, state) && Base(name) && Base(metric)
    requires Get(Obj(prior), ["skills", name, metric]) == Some(Num(x))
    requires Get(Obj(next), ["skills", name, metric]) == Some(Num(y))
    ensures NoObject(prior, ["skills", name, metric + "_delta"]) ||
            NoObject(next, ["skills", name, metric + "_delta"]) ==>
              Get(Obj(state), ["skills", name, metric + "_delta"]) == Some(Num(y - x))
    ensures NoObject(prior, ["skills", name, metric + "_direction"]) ||
            NoObject(next, ["skills", name, metric + "_direction"]) ==>
              Get(Obj(state), ["skills", name, metric + "_direction"]) == Some(Str(Word(x, y)))
  {
    var p := ["skills", name, metric];
    SkillPathIsBase(name, metric);
    CompanionsInside(prior, next, state, p, x, y);
    assert p[..2] == ["skills", name];
    assert Beside(p, "_delta") == ["skills", name, metric + "_delta"];
    assert Beside(p, "_direction") == ["skills", name, metric + "_direction"];
  }
}
