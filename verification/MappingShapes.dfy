/** For which mappings some payload shows that objects are shared. */
module MappingShapes {
  import opened Json
  import opened SharedObjects
  import opened SharedText
  import opened FieldMappings
  import opened MappingLaws
  import opened MappingLeaks
  import MappingInputs
  import TransformExpression
  import T = Text

  /** With this payload the mapping changes what is read at `q`, though nothing is aimed at it or near it. */
  ghost predicate Strays<N>(nums: Numbers<N>, m: Mapping, f: Fields, q: Path) {
    (forall a | a in m.aliases :: !Comparable(Parts(a.canonical), q)) &&
    (forall r | r in m.transforms :: !Comparable(Parts(r.target), q)) &&
    Look(Rewritten(nums, m, f).heap, TOP, q) != Sight(Obj(f), q)
  }

  lemma ApartNeverStrays<N>(nums: Numbers<N>, m: Mapping, f: Fields, q: Path)
    requires CanonicalsApart(m)
    ensures !Strays(nums, m, f, q)
  {
    if (forall a | a in m.aliases :: !Comparable(Parts(a.canonical), q)) &&
       (forall r | r in m.transforms :: !Comparable(Parts(r.target), q))
    {
      MappingKeepsOtherPaths(nums, m, f, q);
      assert Look(Rewritten(nums, m, f).heap, TOP, q + []) == Sight(Obj(f), q + []) && q + [] == q;
    }
  }

  lemma NeverStrays<N>(nums: Numbers<N>, m: Mapping)
    requires CanonicalsApart(m)
    ensures forall f, q :: !Strays(nums, m, f, q)
  {
    forall f, q ensures !Strays(nums, m, f, q) {
      ApartNeverStrays(nums, m, f, q);
    }
  }

  // ----- A payload with an empty object at one path and a value at another -----

  function Sample(d: Path, s: Path, v: Json): Fields {
    Set(Set(map[], d, Obj(map[])), s, v)
  }

  lemma NothingBelow(q: Path)
    requires q != []
    ensures Get(Obj(map[]), q) == None
  {
  }

  lemma SampleReads(d: Path, s: Path, v: Json)
    requires !Comparable(d, s)
    ensures Get(Obj(Sample(d, s, v)), s) == Some(v) && Get(Obj(Sample(d, s, v)), d) == Some(Obj(map[]))
  {
    var f := Set(map[], d, Obj(map[]));
    GetSetBelow(f, s, v, []);
    assert s + [] == s && d + [] == d;
    GetSetElsewhere(f, s, v, d);
    GetSetBelow(map[], d, Obj(map[]), []);
  }

  lemma SampleElsewhere(d: Path, s: Path, v: Json, q: Path)
    requires !Comparable(d, q) && !Comparable(s, q)
    ensures Get(Obj(Sample(d, s, v)), q) == None
  {
    GetSetElsewhere(Set(map[], d, Obj(map[])), s, v, q);
    GetSetElsewhere(map[], d, Obj(map[]), q);
    NothingBelow(q);
  }

  /** Three paths, none at or above another. */
  predicate Apart(c: Path, d: Path, s: Path) {
    !Comparable(c, d) && !Comparable(d, s) && !Comparable(s, c)
  }

  lemma SampleFires(c: Path, d: Path, s: Path, v: Json)
    requires Apart(c, d, s)
    ensures Fires(Sample(d, s, v), c, d) && Get(Obj(Sample(d, s, v)), d) == Some(Obj(map[]))
  {
    SampleReads(d, s, v);
    SampleElsewhere(d, s, v, c);
  }

  /** A plain value written strictly below the canonical path strays to below the candidate. */
  lemma SampleLeaks(c: Path, d: Path, s: Path, v: Json, t: Path, x: Json) returns (q: Path)
    requires Apart(c, d, s) && c < t && !x.Obj?
    ensures Fires(Sample(d, s, v), c, d) && !Comparable(c, q) && !Comparable(t, q)
    ensures Look(ThenWritten(Sample(d, s, v), c, d, t, x), TOP, q) == Some(Leaf(x))
    ensures Get(Obj(Sample(d, s, v)), q) == None
  {
    var f, y := Sample(d, s, v), t[|c|..];
    assert t == c + y;
    q := d + y;
    SampleFires(c, d, s, v);
    LeakShows(f, c, d, y, x);
    LeakPath(c, d, y);
    GetConcat(Obj(f), d, y);
    NothingBelow(y);
  }

  // ----- An alias and a transform -----

  lemma RuleWritesFrom<N>(nums: Numbers<N>, strict: bool, w: Work, rule: Rule, source: string, v: Json)
    requires rule.sources == [] && rule.source == Some(source) && T.Trim(source) != ""
    requires Read(w, source) == Some(Plain(v)) && !v.Obj? && !v.Null?
    requires TransformExpression.Evaluated(nums.ar, rule.expression, map["value" := nums.number(v)]).Ok?
    ensures exists x: real :: AfterRule(nums, strict, w, rule) == PutAt(w, rule.target, Plain(Num(x)), [])
  {
    var sources := [("value", source)];
    assert SourcesOf(rule) == sources && sources[1..] == [];
    assert Bind(nums, w, sources, map[]) == Bound(map["value" := nums.number(v)]);
    var r := TransformExpression.Evaluated(nums.ar, rule.expression, map["value" := nums.number(v)]);
    assert AfterRule(nums, strict, w, rule) == PutAt(w, rule.target, Plain(Num(nums.toReal(r.value))), []);
  }

  /** The mapping is one alias with one candidate and one transform with one source, all at separate places, and the
      expression evaluates on some value. */
  ghost predicate AliasAndRule<N>(nums: Numbers<N>, m: Mapping, canonical: string, candidate: string, rule: Rule,
                                  source: string, v: Json)
  {
    m.aliases == [Alias(canonical, [candidate])] && m.transforms == [rule] &&
    rule.sources == [] && rule.source == Some(source) && T.Trim(source) != "" &&
    Apart(Parts(canonical), Parts(candidate), Parts(source)) && !v.Obj? && !v.Null? &&
    TransformExpression.Evaluated(nums.ar, rule.expression, map["value" := nums.number(v)]).Ok?
  }

  lemma RunOfAliasAndRule<N>(nums: Numbers<N>, m: Mapping, canonical: string, candidate: string, rule: Rule,
                             source: string, v: Json) returns (x: real)
    requires AliasAndRule(nums, m, canonical, candidate, rule, source, v) && Parts(rule.target) != []
    ensures var c, d := Parts(canonical), Parts(candidate);
            var f := Sample(d, Parts(source), v);
            Get(Obj(f), d).Some? && Rewritten(nums, m, f).heap == ThenWritten(f, c, d, Parts(rule.target), Num(x))
  {
    var c, d, s := Parts(canonical), Parts(candidate), Parts(source);
    var f := Sample(d, s, v);
    SampleFires(c, d, s, v);
    SampleReads(d, s, v);
    MappingInputs.OneAliasRuns(f, canonical, candidate);
    MappingInputs.OneAliasList(f, Alias(canonical, [candidate]));
    var w := AfterAliases(Parsed(f), m.aliases);
    AliasedKeepsOthers(f, c, d, s);
    FoundWalk(f, s);
    assert Read(w, source) == Some(Plain(v));
    RuleWritesFrom(nums, m.strict, w, rule, source, v);
    x :| AfterRule(nums, m.strict, w, rule) == PutAt(w, rule.target, Plain(Num(x)), []);
    assert m.transforms[..0] == [];
    assert AfterRules(nums, m.strict, w, []) == w;
  }

  lemma TransformStrays<N>(nums: Numbers<N>, m: Mapping, canonical: string, candidate: string, rule: Rule,
                           source: string, v: Json) returns (q: Path)
    requires AliasAndRule(nums, m, canonical, candidate, rule, source, v) && Parts(canonical) < Parts(rule.target)
    ensures Strays(nums, m, Sample(Parts(candidate), Parts(source), v), q)
  {
    var x := RunOfAliasAndRule(nums, m, canonical, candidate, rule, source, v);
    q := SampleLeaks(Parts(canonical), Parts(candidate), Parts(source), v, Parts(rule.target), Num(x));
  }

  /** Of such mappings exactly those with the target strictly below the canonical path stray with some payload. */
  lemma TransformStraysExactly<N>(nums: Numbers<N>, m: Mapping, canonical: string, candidate: string, rule: Rule,
                                  source: string, v: Json)
    requires AliasAndRule(nums, m, canonical, candidate, rule, source, v)
    ensures (exists f, q :: Strays(nums, m, f, q)) <==> Parts(canonical) < Parts(rule.target)
  {
    if Parts(canonical) < Parts(rule.target) {
      var q := TransformStrays(nums, m, canonical, candidate, rule, source, v);
    } else {
      NeverStrays(nums, m);
    }
  }

  // ----- Two aliases -----

  ghost predicate TwoAliases(m: Mapping, canonical: string, candidate: string, second: string, other: string) {
    m.aliases == [Alias(canonical, [candidate]), Alias(second, [other])] && m.transforms == [] &&
    Apart(Parts(canonical), Parts(candidate), Parts(other))
  }

  lemma SecondIsMissing(f: Fields, c: Path, d: Path, t: Path)
    requires Fires(f, c, d) && Get(Obj(f), d) == Some(Obj(map[])) && !(d < c) && c < t
    ensures Walk(Aliased(f, c, d), TOP, t) == None
  {
    var y := t[|c|..];
    assert t == c + y;
    AliasedShows(f, c, d);
    GetSetBelow(f, c, Obj(map[]), y);
    NothingBelow(y);
    assert Look(Aliased(f, c, d), TOP, t) == Sight(Obj(Set(f, c, Obj(map[]))), t);
  }

  lemma RunOfTwoAliases<N>(nums: Numbers<N>, m: Mapping, canonical: string, candidate: string, second: string,
                           other: string)
    requires TwoAliases(m, canonical, candidate, second, other) && Parts(canonical) < Parts(second)
    ensures var c, d := Parts(canonical), Parts(candidate);
            var f := Sample(d, Parts(other), Num(1.0));
            Get(Obj(f), d).Some? && Rewritten(nums, m, f).heap == ThenWritten(f, c, d, Parts(second), Num(1.0))
  {
    var c, d, s := Parts(canonical), Parts(candidate), Parts(other);
    var f := Sample(d, s, Num(1.0));
    SampleFires(c, d, s, Num(1.0));
    SampleReads(d, s, Num(1.0));
    MappingInputs.OneAliasRuns(f, canonical, candidate);
    MappingInputs.OneAliasList(f, m.aliases[0]);
    var w := AfterAliases(Parsed(f), [m.aliases[0]]);
    AliasedKeepsOthers(f, c, d, s);
    FoundWalk(f, s);
    SecondIsMissing(f, c, d, Parts(second));
    AliasPuts(w, m.aliases[1], 0);
    assert m.aliases[..1] == [m.aliases[0]];
  }

  lemma AliasStrays<N>(nums: Numbers<N>, m: Mapping, canonical: string, candidate: string, second: string,
                       other: string)
      returns (q: Path)
    requires TwoAliases(m, canonical, candidate, second, other) && Parts(canonical) < Parts(second)
    ensures Strays(nums, m, Sample(Parts(candidate), Parts(other), Num(1.0)), q)
  {
    RunOfTwoAliases(nums, m, canonical, candidate, second, other);
    q := SampleLeaks(Parts(canonical), Parts(candidate), Parts(other), Num(1.0), Parts(second), Num(1.0));
  }

  /** Of mappings of two aliases with one candidate each, at separate places, exactly those with the second canonical
      path strictly below the first stray with some payload. */
  lemma AliasStraysExactly<N>(nums: Numbers<N>, m: Mapping, canonical: string, candidate: string, second: string,
                              other: string)
    requires TwoAliases(m, canonical, candidate, second, other)
    ensures (exists f, q :: Strays(nums, m, f, q)) <==> Parts(canonical) < Parts(second)
  {
    if Parts(canonical) < Parts(second) {
      var q := AliasStrays(nums, m, canonical, candidate, second, other);
    } else {
      NeverStrays(nums, m);
    }
  }

  // ----- One alias that puts an object below itself -----

  /** A candidate strictly above the canonical path, and no other one at or above that. */
  ghost predicate Cyclic(a: Alias) {
    exists i :: 0 <= i < |a.candidates| && CyclicBy(a, i)
  }

  ghost predicate CyclicBy(a: Alias, i: nat)
    requires i < |a.candidates|
  {
    Parts(a.candidates[i]) < Parts(a.canonical) &&
    forall j | 0 <= j < |a.candidates| && j != i :: !(Parts(a.candidates[j]) <= Parts(a.candidates[i]))
  }

  function Hole(d: Path): Fields {
    Set(map[], d, Obj(map[]))
  }

  /** Only at and above `d` there is something. */
  lemma HoleReads(d: Path, q: Path)
    ensures Get(Obj(Hole(d)), d) == Some(Obj(map[]))
    ensures !(q <= d) ==> Get(Obj(Hole(d)), q) == None
  {
    assert d + [] == d;
    if d != [] {
      GetSetBelow(map[], d, Obj(map[]), []);
    }
    if d < q {
      assert q == d + q[|d|..];
      GetConcat(Obj(Hole(d)), d, q[|d|..]);
      NothingBelow(q[|d|..]);
    } else if !(q <= d) {
      GetSetElsewhere(map[], d, Obj(map[]), q);
      NothingBelow(q);
    }
  }

  lemma HoleWalk(d: Path, q: Path)
    requires !(q <= d)
    ensures Walk(Load(Hole(d)), TOP, q) == None
  {
    HoleReads(d, q);
    LoadShows(Hole(d));
    assert Look(Load(Hole(d)), TOP, q) == Sight(Obj(Hole(d)), q);
  }

  lemma CyclicHasNoText(a: Alias, i: nat) returns (f: Fields)
    requires i < |a.candidates| && CyclicBy(a, i)
    ensures Text(AfterAliases(Parsed(f), [a]).heap, TOP, {}).None?
  {
    var c, d := Parts(a.canonical), Parts(a.candidates[i]);
    f := Hole(d);
    HoleReads(d, c);
    FoundWalk(f, d);
    HoleWalk(d, c);
    forall j | 0 <= j < |a.candidates| && j != i ensures !Defined(Read(Parsed(f), a.candidates[j])) {
      HoleWalk(d, Parts(a.candidates[j]));
    }
    AliasPuts(Parsed(f), a, i);
    MappingInputs.OneAliasList(f, a);
    TextAfterAliasExactly(f, c, d);
  }

  lemma ParsedHasText(f: Fields)
    ensures Text(Load(f), TOP, {}).Some?
  {
    LoadShows(f);
    TextExactly(Load(f), ROOT, Obj(f));
  }

  /** A candidate at or above an object is present, too. */
  lemma AboveIsPresent(f: Fields, p: Path, d: Path)
    requires p <= d && Get(Obj(f), d).Some? && Get(Obj(f), d).value.Obj?
    ensures Defined(Walk(Load(f), TOP, p))
  {
    assert d == p + d[|p|..];
    GetConcat(Obj(f), p, d[|p|..]);
    LoadShows(f);
    assert Look(Load(f), TOP, p) == Sight(Obj(f), p);
  }

  lemma NoTextIsCyclic(f: Fields, a: Alias)
    requires Text(AfterAlias(Parsed(f), a).heap, TOP, {}).None?
    ensures Cyclic(a)
  {
    var w, present := Parsed(f), Candidates(Parsed(f), a.candidates);
    ParsedHasText(f);
    assert |present| == 1 && Parts(a.canonical) != [];
    FoundIsThere(w, a.candidates, 0);
    var i :| 0 <= i < |a.candidates| && Parts(a.candidates[i]) == present[0].at;
    var c, d := Parts(a.canonical), present[0].at;
    LoadShows(f);
    assert Look(w.heap, TOP, c) == Sight(Obj(f), c) && Look(w.heap, TOP, d) == Sight(Obj(f), d);
    FoundWalk(f, d);
    TextAfterAliasExactly(f, c, d);
    forall j | 0 <= j < |a.candidates| && j != i ensures !(Parts(a.candidates[j]) <= d) {
      if Parts(a.candidates[j]) <= d {
        AboveIsPresent(f, Parts(a.candidates[j]), d);
        TwoCandidates(w, a.candidates, if i < j then i else j, if i < j then j else i);
      }
    }
    assert CyclicBy(a, i);
  }

  /** Exactly such an alias makes some payload impossible to write out. */
  lemma AliasCyclesExactly(a: Alias)
    ensures (exists f :: Text(AfterAliases(Parsed(f), [a]).heap, TOP, {}).None?) <==> Cyclic(a)
  {
    if Cyclic(a) {
      var i :| 0 <= i < |a.candidates| && CyclicBy(a, i);
      var f := CyclicHasNoText(a, i);
    }
    if f :| Text(AfterAliases(Parsed(f), [a]).heap, TOP, {}).None? {
      MappingInputs.OneAliasList(f, a);
      NoTextIsCyclic(f, a);
    }
  }
}
