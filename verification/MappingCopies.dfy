/** The plain reading of a field mapping: every write puts a copy of what was read. */
module MappingCopies {
  import opened Json
  import opened Sharing
  import opened FieldMappings
  import TransformExpression

  datatype Copied = Copied(payload: Fields, errors: seq<Error>, writes: seq<Entry>)

  function ReadCopy(c: Copied, path: string): Option<Json> {
    Get(Obj(c.payload), Parts(path))
  }

  function PutCopy(c: Copied, path: string, v: Json, from: Path): Copied {
    if Parts(path) == [] then c
    else Copied(Set(c.payload, Parts(path), v), c.errors,
                c.writes + [Entry(Parts(path), if v.Obj? then Some(from) else None)])
  }

  function FailCopy(c: Copied, e: Error): Copied {
    c.(errors := c.errors + [e])
  }

  datatype FoundCopy = FoundCopy(at: Path, v: Json)

  function CandidateCopies(c: Copied, candidates: seq<string>): seq<FoundCopy> {
    if candidates == [] then []
    else
      var n := |candidates| - 1;
      CandidateCopies(c, candidates[..n]) +
      if Present(ReadCopy(c, candidates[n]))
      then [FoundCopy(Parts(candidates[n]), ReadCopy(c, candidates[n]).value)]
      else []
  }

  function CopyAlias(c: Copied, a: Alias): Copied {
    var present := CandidateCopies(c, a.candidates);
    if Present(ReadCopy(c, a.canonical)) || present == [] then c
    else if |present| == 1 then PutCopy(c, a.canonical, present[0].v, present[0].at)
    else FailCopy(c, AmbiguousAlias(a.canonical))
  }

  function CopyAliases(c: Copied, aliases: seq<Alias>): Copied {
    if aliases == [] then c
    else CopyAlias(CopyAliases(c, aliases[..|aliases| - 1]), aliases[|aliases| - 1])
  }

  function BindCopies<N>(nums: Numbers<N>, c: Copied, sources: seq<(string, string)>,
                         variables: map<string, N>): Bound<N> {
    if sources == [] then Bound(variables)
    else
      var v := ReadCopy(c, sources[0].1);
      if Present(v) then BindCopies(nums, c, sources[1..], variables[sources[0].0 := nums.number(v.value)])
      else Missing(sources[0].1)
  }

  function CopyRule<N>(nums: Numbers<N>, strict: bool, c: Copied, rule: Rule): Copied {
    if SourcesOf(rule) == [] then c
    else match BindCopies(nums, c, SourcesOf(rule), map[])
      case Missing(path) => if strict then FailCopy(c, MissingField(path)) else c
      case Bound(variables) =>
        match TransformExpression.Evaluated(nums.ar, rule.expression, variables)
        case Ok(v) => PutCopy(c, rule.target, Num(nums.toReal(v)), [])
        case Err(_) => FailCopy(c, BadExpression(rule.target))
  }

  function CopyRules<N>(nums: Numbers<N>, strict: bool, c: Copied, rules: seq<Rule>): Copied {
    if rules == [] then c
    else CopyRule(nums, strict, CopyRules(nums, strict, c, rules[..|rules| - 1]), rules[|rules| - 1])
  }

  function Rewrite<N>(nums: Numbers<N>, m: Mapping, payload: Fields): Copied {
    CopyRules(nums, m.strict, CopyAliases(Copied(payload, [], []), m.aliases), m.transforms)
  }

  predicate FilledCopy(c: Copied, path: string) {
    var v := ReadCopy(c, path);
    Present(v) && (v.value.Str? ==> T.Trim(v.value.s) != "")
  }

  predicate JsonType(v: Json, t: Primitive) {
    match t
    case StringType => v.Str?
    case NumberType => v.Num?
    case BooleanType => v.Bool?
    case ObjectType => v.Obj?
  }

  predicate TypedCopy(c: Copied, path: string, t: Primitive) {
    Present(ReadCopy(c, path)) ==> JsonType(ReadCopy(c, path).value, t)
  }

  predicate PassesCopy(m: Mapping, c: Copied) {
    c.errors == [] && (forall path | path in m.required :: FilledCopy(c, path)) &&
    forall t | t in m.types :: TypedCopy(c, t.0, t.1)
  }

  // ----- The series of writes -----

  lemma CopyAliasWrites(c: Copied, a: Alias)
    ensures c.writes <= CopyAlias(c, a).writes
  {
  }

  lemma {:induction false} CopyAliasesWrite(c: Copied, aliases: seq<Alias>)
    ensures c.writes <= CopyAliases(c, aliases).writes
  {
    if aliases != [] {
      CopyAliasesWrite(c, aliases[..|aliases| - 1]);
    }
  }

  lemma {:induction false} CopyRulesWrite<N>(nums: Numbers<N>, strict: bool, c: Copied, rules: seq<Rule>)
    ensures c.writes <= CopyRules(nums, strict, c, rules).writes
  {
    if rules != [] {
      CopyRulesWrite(nums, strict, c, rules[..|rules| - 1]);
    }
  }
}
