/** The state engine's deep merge, compared with MergePatch (section 2 of RFC 7396). */
module DeepMerge {
  import opened Json

  /** What merging `source` into `target` means, key by key: null removes, two objects merge, and
      anything else is taken from the source as it stands. */
  function Merge(target: Fields, source: Fields): Fields
    decreases Obj(source)
  {
    map k | k in target.Keys + source.Keys && !(k in source && source[k].Null?) ::
      if k !in source then target[k]
      else if source[k].Obj? && k in target && target[k].Obj? then Obj(Merge(target[k].fields, source[k].fields))
      else source[k]
  }

  /** The program's loop over the source's keys, in any order. */
  method Run(target: Fields, source: Fields) returns (result: Fields)
    ensures result == Merge(target, source)
    decreases Obj(source)
  {
    result := target;
    var keys := source.Keys;
    while keys != {}
      invariant keys <= source.Keys
      invariant forall k :: At(result, k) ==
                            if k in source && k !in keys then At(Merge(target, source), k) else At(target, k)
    {
      var key :| key in keys;
      keys := keys - {key};
      var sourceVal := source[key];
      if sourceVal.Null? {
        result := result - {key};
      } else {
        var targetVal := At(result, key);
        assert targetVal == At(target, key);
        if sourceVal.Obj? && targetVal.Some? && targetVal.value.Obj? {
          var merged := Run(targetVal.value.fields, sourceVal.fields);
          result := result[key := Obj(merged)];
        } else {
          result := result[key := sourceVal];
        }
      }
    }
    SameFields(result, Merge(target, source));
  }

  /** MergePatch of section 2 of RFC 7396. */
  function MergePatch(target: Option<Json>, patch: Json): Json
    decreases patch
  {
    if patch.Obj? then
      var base := if target.Some? && target.value.Obj? then target.value.fields else map[];
      Obj(map k | k in base.Keys + patch.fields.Keys && !(k in patch.fields && patch.fields[k].Null?) ::
            if k in patch.fields then MergePatch(At(base, k), patch.fields[k]) else base[k])
    else patch
  }

  /** No object inside `j` holds a null member. Arrays are not searched. */
  predicate NullFree(j: Json) {
    j.Obj? ==> forall k | k in j.fields :: !j.fields[k].Null? && NullFree(j.fields[k])
  }

  /** Wherever the merge stores a source object as it stands, that object is null-free. */
  predicate StoresNoNull(target: Fields, source: Fields)
    decreases Obj(source)
  {
    forall k | k in source && source[k].Obj? ::
      if k in target && target[k].Obj? then StoresNoNull(target[k].fields, source[k].fields) else NullFree(source[k])
  }

  lemma {:induction false} NullFreeStoresNoNull(target: Fields, source: Fields)
    requires NullFree(Obj(source))
    ensures StoresNoNull(target, source)
    decreases Obj(source)
  {
    forall k | k in source && source[k].Obj? && k in target && target[k].Obj?
      ensures StoresNoNull(target[k].fields, source[k].fields)
    {
      NullFreeStoresNoNull(target[k].fields, source[k].fields);
    }
  }

  /** MergePatch into nothing copies exactly the null-free values. */
  lemma {:induction false} PatchIntoNothing(target: Option<Json>, patch: Json)
    requires target.Some? ==> !target.value.Obj?
    ensures MergePatch(target, patch) == patch <==> NullFree(patch)
    decreases patch
  {
    if patch.Obj? {
      var r := MergePatch(target, patch).fields;
      forall k | k in patch.fields
        ensures At(r, k) == Some(patch.fields[k]) <==> !patch.fields[k].Null? && NullFree(patch.fields[k])
      {
        PatchIntoNothing(None, patch.fields[k]);
      }
      if NullFree(patch) {
        forall k ensures At(r, k) == At(patch.fields, k) {}
        SameFields(r, patch.fields);
      }
      if r == patch.fields {
        forall k | k in patch.fields ensures !patch.fields[k].Null? && NullFree(patch.fields[k]) {
          assert At(r, k) == Some(patch.fields[k]);
        }
      }
    }
  }

  /** The merge is MergePatch exactly when it stores no object that holds a null. */
  lemma {:induction false} IsMergePatch(target: Fields, source: Fields)
    ensures Obj(Merge(target, source)) == MergePatch(Some(Obj(target)), Obj(source)) <==> StoresNoNull(target, source)
    decreases Obj(source)
  {
    var m := Merge(target, source);
    var r := MergePatch(Some(Obj(target)), Obj(source)).fields;
    forall k | k in source
      ensures At(m, k) == At(r, k) <==> (source[k].Obj? ==>
        if k in target && target[k].Obj? then StoresNoNull(target[k].fields, source[k].fields) else NullFree(source[k]))
    {
      assert At(r, k) == if source[k].Null? then None else Some(MergePatch(At(target, k), source[k]));
      if source[k].Obj? {
        if k in target && target[k].Obj? {
          IsMergePatch(target[k].fields, source[k].fields);
          assert Some(Obj(target[k].fields)) == At(target, k) && Obj(source[k].fields) == source[k];
        } else {
          PatchIntoNothing(At(target, k), source[k]);
        }
      }
    }
    if StoresNoNull(target, source) {
      forall k ensures At(m, k) == At(r, k) {}
      SameFields(m, r);
    }
    if m == r {
      forall k | k in source && source[k].Obj?
        ensures if k in target && target[k].Obj? then StoresNoNull(target[k].fields, source[k].fields)
                else NullFree(source[k])
      {
        assert At(m, k) == At(r, k);
      }
    }
  }

  lemma {:induction false} MergeWithItself(f: Fields)
    ensures Merge(f, f) == f <==> NullFree(Obj(f))
    decreases Obj(f)
  {
    var m := Merge(f, f);
    forall k | k in f ensures At(m, k) == Some(f[k]) <==> !f[k].Null? && NullFree(f[k]) {
      if f[k].Obj? {
        MergeWithItself(f[k].fields);
      }
    }
    if NullFree(Obj(f)) {
      forall k ensures At(m, k) == At(f, k) {}
      SameFields(m, f);
    }
    if m == f {
      forall k | k in f ensures !f[k].Null? && NullFree(f[k]) {
        assert At(m, k) == Some(f[k]);
      }
    }
  }

  /** Merging the same source a second time changes nothing, exactly when the first merge stored no
      object that holds a null. */
  lemma {:induction false} Idempotent(target: Fields, source: Fields)
    ensures Merge(Merge(target, source), source) == Merge(target, source) <==> StoresNoNull(target, source)
    decreases Obj(source)
  {
    var once := Merge(target, source);
    var twice := Merge(once, source);
    forall k | k in source
      ensures At(twice, k) == At(once, k) <==> (source[k].Obj? ==>
        if k in target && target[k].Obj? then StoresNoNull(target[k].fields, source[k].fields) else NullFree(source[k]))
    {
      if source[k].Obj? {
        if k in target && target[k].Obj? {
          Idempotent(target[k].fields, source[k].fields);
        } else {
          MergeWithItself(source[k].fields);
        }
      }
    }
    if StoresNoNull(target, source) {
      forall k ensures At(twice, k) == At(once, k) {}
      SameFields(twice, once);
    }
    if twice == once {
      forall k | k in source && source[k].Obj?
        ensures if k in target && target[k].Obj? then StoresNoNull(target[k].fields, source[k].fields)
                else NullFree(source[k])
      {
        assert At(twice, k) == At(once, k);
      }
    }
  }

  /** `{"a": {"b": null}}` merged into `{}` is kept with its null, and merging it again removes the null. */
  lemma NestedNullIsKept()
    ensures var s: Fields := map["a" := Obj(map["b" := Null])];
            Merge(map[], s) == s && Merge(s, s) == map["a" := Obj(map[])]
  {
    var inner: Fields := map["b" := Null];
    var s: Fields := map["a" := Obj(inner)];
    assert Merge(inner, inner) == map[];
    assert Merge(map[], s) == s;
    assert Merge(s, s) == map["a" := Obj(map[])];
  }

  /** A leaf of a source: anything but a non-empty object. */
  ghost predicate Leaf(j: Json, p: Path) {
    var v := Get(j, p);
    v.Some? && !(v.value.Obj? && v.value.fields != map[])
  }

  /** Below every path that reads something there is a leaf. */
  lemma {:induction false} LeafBelow(j: Json) returns (p: Path)
    ensures Leaf(j, p)
    decreases j
  {
    p := [];
    if j.Obj? && j.fields != map[] {
      var k :| k in j.fields;
      var q := LeafBelow(j.fields[k]);
      p := [k] + q;
      assert p[1..] == q;
    }
  }

  lemma ConsLeaf(f: Fields, k: string, p: Path)
    requires k in f && Leaf(f[k], p)
    ensures Leaf(Obj(f), [k] + p)
  {
    assert ([k] + p)[1..] == p;
  }

  lemma {:induction false} NothingBesideLeaves(j: Json, q: Path)
    requires forall p :: Leaf(j, p) ==> !Comparable(p, q)
    ensures Get(j, q) == None
  {
    if Get(j, q).Some? {
      var p := LeafBelow(Get(j, q).value);
      GetConcat(j, q, p);
      assert Leaf(j, q + p) && q <= q + p;
    }
  }

  /** Every leaf of a null-free source is read back at its own path after the merge; where the leaf is
      an empty object there is an object. */
  lemma {:induction false} SourceLeafIsRead(target: Fields, source: Fields, p: Path)
    requires NullFree(Obj(source)) && Leaf(Obj(source), p)
    ensures var v := Get(Obj(source), p).value;
            var r := Get(Obj(Merge(target, source)), p);
            r.Some? && (if v.Obj? then r.value.Obj? else r == Some(v))
    decreases |p|
  {
    if p != [] {
      var k := p[0];
      if source[k].Obj? && k in target && target[k].Obj? {
        SourceLeafIsRead(target[k].fields, source[k].fields, p[1..]);
      }
    }
  }

  /** Every path incomparable with all the source's leaves keeps the target's value. */
  lemma {:induction false} OtherPathsAreKept(target: Fields, source: Fields, q: Path)
    requires forall p :: Leaf(Obj(source), p) ==> !Comparable(p, q)
    ensures Get(Obj(Merge(target, source)), q) == Get(Obj(target), q)
    decreases |q|
  {
    if q == [] {
      var p := LeafBelow(Obj(source));
      assert false;
    } else if q[0] in source {
      var k := q[0];
      forall p | Leaf(source[k], p) ensures !Comparable(p, q[1..]) {
        ConsLeaf(source, k, p);
        assert q == [k] + q[1..];
      }
      if !source[k].Obj? {
        assert Leaf(Obj(source), [k]) && [k] <= q;
        assert false;
      } else if k in target && target[k].Obj? {
        OtherPathsAreKept(target[k].fields, source[k].fields, q[1..]);
      } else {
        NothingBesideLeaves(source[k], q[1..]);
      }
    }
  }
}
