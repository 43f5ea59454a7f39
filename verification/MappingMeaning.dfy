/** The steps of a field mapping, case by case. */
module MappingMeaning {
  import opened Json
  import opened SharedObjects
  import opened FieldMappings
  import T = Text

  // ----- Aliases -----

  /** A canonical path that is filled is left alone, and so is one without a candidate. */
  lemma AliasLeaves(w: Work, a: Alias)
    requires Defined(Read(w, a.canonical)) ||
             forall i | 0 <= i < |a.candidates| :: !Defined(Read(w, a.candidates[i]))
    ensures AfterAlias(w, a) == w
  {
    if !Defined(Read(w, a.canonical)) {
      NoCandidate(w, a.candidates);
    }
  }

  /** The aliases are applied in their order. */
  lemma {:induction false} AliasesInOrder(w: Work, a: seq<Alias>, b: seq<Alias>)
    ensures AfterAliases(w, a + b) == AfterAliases(AfterAliases(w, a), b)
  {
    if b == [] {
      assert a + b == a;
    } else {
      assert (a + b)[..|a + b| - 1] == a + b[..|b| - 1];
      AliasesInOrder(w, a, b[..|b| - 1]);
    }
  }

  // ----- Transforms -----

  ghost predicate DistinctNames(sources: seq<(string, string)>) {
    forall i, j | 0 <= i < j < |sources| :: sources[i].0 != sources[j].0
  }

  lemma {:induction false} BindKeeps<N>(nums: Numbers<N>, w: Work, sources: seq<(string, string)>,
                                        variables: map<string, N>, n: string)
    requires Bind(nums, w, sources, variables).Bound? && n in variables
    requires forall i | 0 <= i < |sources| :: sources[i].0 != n
    ensures n in Bind(nums, w, sources, variables).variables
    ensures Bind(nums, w, sources, variables).variables[n] == variables[n]
  {
    if sources != [] {
      var more := variables[sources[0].0 := NumberOf(nums, Read(w, sources[0].1).value)];
      BindKeeps(nums, w, sources[1..], more, n);
    }
  }

  /** With all sources there each name stands for the number of what its path reads. */
  lemma {:induction false} BindMeans<N>(nums: Numbers<N>, w: Work, sources: seq<(string, string)>,
                                        variables: map<string, N>, i: nat)
    requires DistinctNames(sources) && i < |sources| && Bind(nums, w, sources, variables).Bound?
    ensures var (n, path) := sources[i];
            Defined(Read(w, path)) && n in Bind(nums, w, sources, variables).variables &&
            Bind(nums, w, sources, variables).variables[n] == NumberOf(nums, Read(w, path).value)
  {
    var more := variables[sources[0].0 := NumberOf(nums, Read(w, sources[0].1).value)];
    if i == 0 {
      BindKeeps(nums, w, sources[1..], more, sources[0].0);
    } else {
      BindMeans(nums, w, sources[1..], more, i - 1);
    }
  }

  /** The names are those of the sources and no others. */
  lemma {:induction false} BindNames<N>(nums: Numbers<N>, w: Work, sources: seq<(string, string)>,
                                        variables: map<string, N>)
    requires Bind(nums, w, sources, variables).Bound?
    ensures forall n | n in Bind(nums, w, sources, variables).variables ::
              n in variables || exists i :: 0 <= i < |sources| && sources[i].0 == n
  {
    if sources != [] {
      var more := variables[sources[0].0 := NumberOf(nums, Read(w, sources[0].1).value)];
      BindNames(nums, w, sources[1..], more);
      forall n | n in Bind(nums, w, sources, variables).variables
        ensures n in variables || exists i :: 0 <= i < |sources| && sources[i].0 == n
      {
        if n !in variables && n != sources[0].0 {
          var j :| 0 <= j < |sources[1..]| && sources[1..][j].0 == n;
          assert sources[j + 1].0 == n;
        }
      }
    }
  }

  /** The first source that is not there is the one that is missed. */
  lemma {:induction false} MissedExactly<N>(nums: Numbers<N>, w: Work, sources: seq<(string, string)>,
                                            variables: map<string, N>, i: nat)
    requires i < |sources| && !Defined(Read(w, sources[i].1))
    requires forall h | 0 <= h < i :: Defined(Read(w, sources[h].1))
    ensures Bind(nums, w, sources, variables) == Missing(sources[i].1)
  {
    if i > 0 {
      assert Defined(Read(w, sources[0].1));
      forall h | 0 <= h < i - 1 ensures Defined(Read(w, sources[1..][h].1)) {
        assert sources[1..][h] == sources[h + 1];
      }
      MissedExactly(nums, w, sources[1..], variables[sources[0].0 := NumberOf(nums, Read(w, sources[0].1).value)],
                    i - 1);
    }
  }

  /** A missing source skips the rule, and is an error in a strict mapping. */
  lemma RuleMisses<N>(nums: Numbers<N>, strict: bool, w: Work, rule: Rule, i: nat)
    requires i < |SourcesOf(rule)| && !Defined(Read(w, SourcesOf(rule)[i].1))
    requires forall h | 0 <= h < i :: Defined(Read(w, SourcesOf(rule)[h].1))
    ensures AfterRule(nums, strict, w, rule) ==
            if strict then w.(errors := w.errors + [MissingField(SourcesOf(rule)[i].1)]) else w
  {
    MissedExactly(nums, w, SourcesOf(rule), map[], i);
  }

  /** Named sources come before a single one, which goes by the name `value`; a rule with neither does nothing. */
  lemma SourcesMean<N>(nums: Numbers<N>, strict: bool, w: Work, rule: Rule)
    ensures rule.sources != [] ==> SourcesOf(rule) == rule.sources
    ensures rule.sources == [] && rule.source.Some? && !T.Blank(rule.source.value) ==>
              SourcesOf(rule) == [("value", rule.source.value)]
    ensures rule.sources == [] && (rule.source.None? || T.Blank(rule.source.value)) ==>
              AfterRule(nums, strict, w, rule) == w
  {
    if rule.source.Some? {
      T.BlankExactly(rule.source.value);
    }
  }

  /** The rules are applied in their order. */
  lemma {:induction false} RulesInOrder<N>(nums: Numbers<N>, strict: bool, w: Work, a: seq<Rule>, b: seq<Rule>)
    ensures AfterRules(nums, strict, w, a + b) == AfterRules(nums, strict, AfterRules(nums, strict, w, a), b)
  {
    if b == [] {
      assert a + b == a;
    } else {
      assert (a + b)[..|a + b| - 1] == a + b[..|b| - 1];
      RulesInOrder(nums, strict, w, a, b[..|b| - 1]);
    }
  }

  // ----- Checks -----

  /** A required path must hold something other than null and blank text. */
  lemma FilledMeans(w: Work, path: string)
    ensures Filled(w, path) <==>
            var v := Walk(w.heap, Ref(ROOT), Parts(path));
            v.Some? && v != Some(Plain(Null)) && (forall s | v == Some(Plain(Str(s))) :: !T.Blank(s))
  {
    var v := Walk(w.heap, Ref(ROOT), Parts(path));
    if v.Some? && v.value.Plain? && v.value.j.Str? {
      T.BlankExactly(v.value.j.s);
    }
  }

  /** A typed path may be missing or null; otherwise it holds a text, a number, a truth value or an object. */
  lemma TypedMeans(w: Work, path: string)
    requires var v := Walk(w.heap, Ref(ROOT), Parts(path)); v.Some? && v != Some(Plain(Null))
    ensures var v := Walk(w.heap, Ref(ROOT), Parts(path)).value;
            (Typed(w, path, StringType) <==> exists s :: v == Plain(Str(s))) &&
            (Typed(w, path, NumberType) <==> exists n :: v == Plain(Num(n))) &&
            (Typed(w, path, BooleanType) <==> exists b :: v == Plain(Bool(b))) &&
            (Typed(w, path, ObjectType) <==> exists l :: v == Ref(l))
  {
    match Walk(w.heap, Ref(ROOT), Parts(path)).value
    case Ref(l) =>
    case Plain(Str(s)) =>
    case Plain(Num(n)) =>
    case Plain(Bool(b)) =>
    case Plain(_) =>
  }
}
