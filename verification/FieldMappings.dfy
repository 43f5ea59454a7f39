/** Tenant field mappings: aliases, then transforms, then required fields and types. The payload is a graph of
    objects: an alias puts the very object it finds under the canonical path. */
module FieldMappings {
  import opened Json
  import opened SharedObjects
  import opened Sharing
  import T = Text
  import TransformGrammar
  import TransformExpression

  datatype Primitive = StringType | NumberType | BooleanType | ObjectType

  datatype Alias = Alias(canonical: string, candidates: seq<string>)

  datatype Rule = Rule(target: string, source: Option<string>, sources: seq<(string, string)>, expression: string)

  datatype Mapping = Mapping(
    required: seq<string>, aliases: seq<Alias>, types: seq<(string, Primitive)>, transforms: seq<Rule>, strict: bool)

  datatype Error =
    | NotAnObject
    | AmbiguousAlias(path: string)
    | MissingField(path: string)
    | BadExpression(path: string)
    | WrongType(path: string)

  datatype Outcome = Accepted(payload: Heap) | Rejected(errors: seq<Error>)

  /** Numbers as expressions compute with them: `Number(x)` of a JSON value, and back for a finite result. */
  datatype Numbers<!N> = Numbers(ar: TransformGrammar.Arith<N>, number: Json -> N, toReal: N -> real)

  /** The payload so far, the errors so far, and the writes so far. */
  datatype Work = Work(heap: Heap, errors: seq<Error>, writes: seq<Entry>)

  const TOP: Slot := Ref(ROOT)

  predicate Defined(v: Option<Slot>) {
    v.Some? && v.value != Plain(Null)
  }

  function Read(w: Work, path: string): Option<Slot> {
    Walk(w.heap, TOP, Parts(path))
  }

  /** `setAtPath` of a slot found at `from`; an empty path writes nothing. */
  function PutAt(w: Work, path: string, v: Slot, from: Path): Work {
    if Parts(path) == [] then w
    else Work(Put(w.heap, w.writes, Parts(path), v), w.errors,
              w.writes + [Entry(Parts(path), if v.Ref? then Some(from) else None)])
  }

  function Fail(w: Work, e: Error): Work {
    w.(errors := w.errors + [e])
  }

  method SetAt(w: Work, path: string, v: Slot, from: Path) returns (r: Work)
    requires ROOT in w.heap && Sane(w.heap)
    ensures r == PutAt(w, path, v, from)
  {
    var heap := WriteAtPath(w.heap, path, v, |w.writes| + 1);
    r := if Parts(path) == [] then w
         else Work(heap, w.errors, w.writes + [Entry(Parts(path), if v.Ref? then Some(from) else None)]);
  }

  // ----- Aliases -----

  datatype Found = Found(at: Path, v: Slot)

  function Candidates(w: Work, candidates: seq<string>): seq<Found> {
    if candidates == [] then []
    else
      var n := |candidates| - 1;
      Candidates(w, candidates[..n]) +
      if Defined(Read(w, candidates[n])) then [Found(Parts(candidates[n]), Read(w, candidates[n]).value)] else []
  }

  function AfterAlias(w: Work, a: Alias): Work {
    var present := Candidates(w, a.candidates);
    if Defined(Read(w, a.canonical)) || present == [] then w
    else if |present| == 1 then PutAt(w, a.canonical, present[0].v, present[0].at)
    else Fail(w, AmbiguousAlias(a.canonical))
  }

  function AfterAliases(w: Work, aliases: seq<Alias>): Work {
    if aliases == [] then w
    else AfterAlias(AfterAliases(w, aliases[..|aliases| - 1]), aliases[|aliases| - 1])
  }

  /** What the writes need of the heap, whatever paths they follow. */
  ghost predicate Usable(w: Work) {
    ROOT in w.heap && Sane(w.heap)
  }

  lemma {:induction false} FoundIsThere(w: Work, candidates: seq<string>, i: nat)
    requires i < |Candidates(w, candidates)|
    ensures var c := Candidates(w, candidates)[i];
            Walk(w.heap, TOP, c.at) == Some(c.v) && c.v != Plain(Null) &&
            exists j :: 0 <= j < |candidates| && Parts(candidates[j]) == c.at
  {
    var n := |candidates| - 1;
    if i < |Candidates(w, candidates[..n])| {
      FoundIsThere(w, candidates[..n], i);
      var j :| 0 <= j < n && Parts(candidates[..n][j]) == Candidates(w, candidates)[i].at;
      assert candidates[j] == candidates[..n][j];
    }
  }

  lemma PutUsable(w: Work, path: string, v: Slot, from: Path)
    requires Usable(w) && (v.Ref? ==> v.loc in w.heap) && (v.Plain? ==> !v.j.Obj?)
    ensures Usable(PutAt(w, path, v, from))
  {
    if Parts(path) != [] {
      WriteSane(w.heap, ROOT, [], Parts(path), v, |w.writes| + 1);
    }
  }

  lemma AliasUsable(w: Work, a: Alias)
    requires Usable(w)
    ensures Usable(AfterAlias(w, a))
  {
    var present := Candidates(w, a.candidates);
    if |present| == 1 {
      FoundIsThere(w, a.candidates, 0);
      WalkSane(w.heap, TOP, present[0].at);
      PutUsable(w, a.canonical, present[0].v, present[0].at);
    }
  }

  method FindCandidates(w: Work, candidates: seq<string>) returns (present: seq<Found>)
    ensures present == Candidates(w, candidates)
  {
    present := [];
    for j := 0 to |candidates|
      invariant present == Candidates(w, candidates[..j])
    {
      assert candidates[..j + 1][..j] == candidates[..j];
      var v := WalkAtPath(w.heap, candidates[j]);
      if Defined(v) {
        present := present + [Found(Parts(candidates[j]), v.value)];
      }
    }
    assert candidates[..|candidates|] == candidates;
  }

  method ApplyAliases(w: Work, aliases: seq<Alias>) returns (r: Work)
    requires Usable(w)
    ensures r == AfterAliases(w, aliases) && Usable(r)
  {
    r := w;
    for i := 0 to |aliases|
      invariant r == AfterAliases(w, aliases[..i]) && Usable(r)
    {
      assert aliases[..i + 1][..i] == aliases[..i];
      AliasUsable(r, aliases[i]);
      var a := aliases[i];
      var canonicalVal := WalkAtPath(r.heap, a.canonical);
      if !Defined(canonicalVal) {
        var present := FindCandidates(r, a.candidates);
        if |present| == 1 {
          r := SetAt(r, a.canonical, present[0].v, present[0].at);
        } else if |present| > 1 {
          r := Fail(r, AmbiguousAlias(a.canonical));
        }
      }
    }
    assert aliases[..|aliases|] == aliases;
  }

  // ----- Transforms -----

  datatype Bound<N> = Missing(path: string) | Bound(variables: map<string, N>)

  /** `Number` of a slot: of an object it does not depend on what the object holds. */
  function NumberOf<N>(nums: Numbers<N>, v: Slot): N {
    nums.number(match v case Plain(j) => j case Ref(_) => Obj(map[]))
  }

  /** The variables of a rule, or the first source that is not there. */
  function Bind<N>(nums: Numbers<N>, w: Work, sources: seq<(string, string)>, variables: map<string, N>): Bound<N> {
    if sources == [] then Bound(variables)
    else
      var v := Read(w, sources[0].1);
      if Defined(v) then Bind(nums, w, sources[1..], variables[sources[0].0 := NumberOf(nums, v.value)])
      else Missing(sources[0].1)
  }

  /** Several sources, or a single one under the name `value`; a rule with neither does nothing. */
  function SourcesOf(rule: Rule): seq<(string, string)> {
    if rule.sources != [] then rule.sources
    else if rule.source.Some? && T.Trim(rule.source.value) != "" then [("value", rule.source.value)]
    else []
  }

  function AfterRule<N>(nums: Numbers<N>, strict: bool, w: Work, rule: Rule): Work {
    if SourcesOf(rule) == [] then w
    else match Bind(nums, w, SourcesOf(rule), map[])
      case Missing(path) => if strict then Fail(w, MissingField(path)) else w
      case Bound(variables) =>
        match TransformExpression.Evaluated(nums.ar, rule.expression, variables)
        case Ok(v) => PutAt(w, rule.target, Plain(Num(nums.toReal(v))), [])
        case Err(_) => Fail(w, BadExpression(rule.target))
  }

  function AfterRules<N>(nums: Numbers<N>, strict: bool, w: Work, rules: seq<Rule>): Work {
    if rules == [] then w
    else AfterRule(nums, strict, AfterRules(nums, strict, w, rules[..|rules| - 1]), rules[|rules| - 1])
  }

  lemma RuleUsable<N>(nums: Numbers<N>, strict: bool, w: Work, rule: Rule)
    requires Usable(w)
    ensures Usable(AfterRule(nums, strict, w, rule))
  {
    forall x ensures Usable(PutAt(w, rule.target, Plain(Num(x)), [])) {
      PutUsable(w, rule.target, Plain(Num(x)), []);
    }
  }

  method BindSources<N>(nums: Numbers<N>, w: Work, sources: seq<(string, string)>) returns (r: Bound<N>)
    ensures r == Bind(nums, w, sources, map[])
  {
    var variables: map<string, N> := map[];
    for i := 0 to |sources|
      invariant Bind(nums, w, sources, map[]) == Bind(nums, w, sources[i..], variables)
    {
      assert sources[i..][1..] == sources[i + 1..];
      var v := WalkAtPath(w.heap, sources[i].1);
      if !Defined(v) {
        return Missing(sources[i].1);
      }
      variables := variables[sources[i].0 := NumberOf(nums, v.value)];
    }
    r := Bound(variables);
  }

  method ApplyRule<N>(nums: Numbers<N>, strict: bool, w: Work, rule: Rule) returns (r: Work)
    requires Usable(w)
    ensures r == AfterRule(nums, strict, w, rule)
  {
    r := w;
    var sources := SourcesOf(rule);
    if sources == [] {
      return;
    }
    var bound := BindSources(nums, w, sources);
    match bound {
      case Missing(path) =>
        if strict {
          r := Fail(w, MissingField(path));
        }
      case Bound(variables) =>
        var result := TransformExpression.EvaluateTransform(nums.ar, rule.expression, variables);
        match result {
          case Ok(v) => r := SetAt(w, rule.target, Plain(Num(nums.toReal(v))), []);
          case Err(_) => r := Fail(w, BadExpression(rule.target));
        }
    }
  }

  method ApplyRules<N>(nums: Numbers<N>, strict: bool, w: Work, rules: seq<Rule>) returns (r: Work)
    requires Usable(w)
    ensures r == AfterRules(nums, strict, w, rules)
  {
    r := w;
    for i := 0 to |rules|
      invariant r == AfterRules(nums, strict, w, rules[..i]) && Usable(r)
    {
      assert rules[..i + 1][..i] == rules[..i];
      RuleUsable(nums, strict, r, rules[i]);
      r := ApplyRule(nums, strict, r, rules[i]);
    }
    assert rules[..|rules|] == rules;
  }

  // ----- Required fields and types -----

  /** Present, not null, and not a blank text. */
  predicate Filled(w: Work, path: string) {
    var v := Read(w, path);
    Defined(v) && (v.value.Plain? && v.value.j.Str? ==> T.Trim(v.value.j.s) != "")
  }

  predicate HasType(v: Slot, t: Primitive) {
    match t
    case StringType => v.Plain? && v.j.Str?
    case NumberType => v.Plain? && v.j.Num?
    case BooleanType => v.Plain? && v.j.Bool?
    case ObjectType => v.Ref?
  }

  /** Absent, null, or of the type. */
  predicate Typed(w: Work, path: string, t: Primitive) {
    Defined(Read(w, path)) ==> HasType(Read(w, path).value, t)
  }

  method CheckRequired(w: Work, required: seq<string>) returns (r: Work)
    ensures r == w.(errors := r.errors) && w.errors <= r.errors
    ensures r.errors == w.errors <==> forall path | path in required :: Filled(w, path)
    ensures forall path | path in required && !Filled(w, path) :: MissingField(path) in r.errors
  {
    var errors := w.errors;
    for i := 0 to |required|
      invariant w.errors <= errors
      invariant errors == w.errors <==> forall j | 0 <= j < i :: Filled(w, required[j])
      invariant forall j | 0 <= j < i && !Filled(w, required[j]) :: MissingField(required[j]) in errors
    {
      var v := WalkAtPath(w.heap, required[i]);
      if !Defined(v) || (v.value.Plain? && v.value.j.Str? && T.Trim(v.value.j.s) == "") {
        errors := errors + [MissingField(required[i])];
      }
    }
    r := w.(errors := errors);
  }

  method CheckTypes(w: Work, types: seq<(string, Primitive)>) returns (r: Work)
    ensures r == w.(errors := r.errors) && w.errors <= r.errors
    ensures r.errors == w.errors <==> forall t | t in types :: Typed(w, t.0, t.1)
    ensures forall t | t in types && !Typed(w, t.0, t.1) :: WrongType(t.0) in r.errors
  {
    var errors := w.errors;
    for i := 0 to |types|
      invariant w.errors <= errors
      invariant errors == w.errors <==> forall j | 0 <= j < i :: Typed(w, types[j].0, types[j].1)
      invariant forall j | 0 <= j < i && !Typed(w, types[j].0, types[j].1) :: WrongType(types[j].0) in errors
    {
      var v := WalkAtPath(w.heap, types[i].0);
      if Defined(v) && !HasType(v.value, types[i].1) {
        errors := errors + [WrongType(types[i].0)];
      }
    }
    r := w.(errors := errors);
  }

  // ----- The whole -----

  function Parsed(payload: Fields): Work {
    Work(Load(payload), [], [])
  }

  function Rewritten<N>(nums: Numbers<N>, m: Mapping, payload: Fields): Work {
    AfterRules(nums, m.strict, AfterAliases(Parsed(payload), m.aliases), m.transforms)
  }

  /** The rewritten payload is good as it stands. */
  predicate Passes(m: Mapping, w: Work) {
    w.errors == [] && (forall path | path in m.required :: Filled(w, path)) &&
    forall t | t in m.types :: Typed(w, t.0, t.1)
  }

  /** The payload that goes on, if any: as parsed without a mapping, as rewritten with one that it passes. */
  function Normal<N>(nums: Numbers<N>, mapping: Option<Mapping>, payload: Json): Option<Heap> {
    if !payload.Obj? then None
    else if mapping.None? then Some(Load(payload.fields))
    else
      var w := Rewritten(nums, mapping.value, payload.fields);
      if Passes(mapping.value, w) then Some(w.heap) else None
  }

  method NormalizeAndValidate<N>(nums: Numbers<N>, mapping: Option<Mapping>, payload: Json) returns (outcome: Outcome)
    ensures outcome.Accepted? ==> Normal(nums, mapping, payload) == Some(outcome.payload)
    ensures outcome.Rejected? ==> Normal(nums, mapping, payload) == None && outcome.errors != []
    ensures payload.Obj? && mapping.Some? && outcome.Rejected? ==>
              Rewritten(nums, mapping.value, payload.fields).errors <= outcome.errors
  {
    if !payload.Obj? {
      return Rejected([NotAnObject]);
    }
    LoadShows(payload.fields);
    if mapping.None? {
      return Accepted(Load(payload.fields));
    }
    var m := mapping.value;
    var aliased := ApplyAliases(Parsed(payload.fields), m.aliases);
    var w := ApplyRules(nums, m.strict, aliased, m.transforms);
    var checked := CheckRequired(w, m.required);
    var typed := CheckTypes(checked, m.types);
    TypedStays(w, checked, m.types);
    outcome := if |typed.errors| > 0 then Rejected(typed.errors) else Accepted(w.heap);
  }

  lemma TypedStays(w: Work, checked: Work, types: seq<(string, Primitive)>)
    requires checked == w.(errors := checked.errors)
    ensures (forall t | t in types :: Typed(checked, t.0, t.1)) <==> forall t | t in types :: Typed(w, t.0, t.1)
  {
    forall t: (string, Primitive) ensures Typed(checked, t.0, t.1) == Typed(w, t.0, t.1) {}
  }

  /** Errors are never taken back. */
  lemma {:induction false} ErrorsStay<N>(nums: Numbers<N>, strict: bool, w: Work, rules: seq<Rule>)
    ensures w.errors <= AfterRules(nums, strict, w, rules).errors
  {
    if rules != [] {
      ErrorsStay(nums, strict, w, rules[..|rules| - 1]);
    }
  }

  /** An ambiguous alias rejects the payload, whatever the transforms make of it. */
  lemma AliasErrorsReject<N>(nums: Numbers<N>, m: Mapping, payload: Fields)
    requires AfterAliases(Parsed(payload), m.aliases).errors != []
    ensures Normal(nums, Some(m), Obj(payload)) == None
  {
    ErrorsStay(nums, m.strict, AfterAliases(Parsed(payload), m.aliases), m.transforms);
  }

  // ----- Expressions the upload check has seen -----

  function NamesIn(sources: seq<(string, string)>): seq<string> {
    seq(|sources|, i requires 0 <= i < |sources| => sources[i].0)
  }

  lemma {:induction false} BindBindsAll<N>(nums: Numbers<N>, w: Work, sources: seq<(string, string)>,
                                           variables: map<string, N>)
    requires Bind(nums, w, sources, variables).Bound?
    ensures variables.Keys <= Bind(nums, w, sources, variables).variables.Keys
    ensures forall n | n in NamesIn(sources) :: n in Bind(nums, w, sources, variables).variables
  {
    if sources != [] {
      var v := Read(w, sources[0].1);
      var more := variables[sources[0].0 := NumberOf(nums, v.value)];
      BindBindsAll(nums, w, sources[1..], more);
      assert NamesIn(sources) == [sources[0].0] + NamesIn(sources[1..]);
    }
  }

  /** A rule whose expression the validator accepted for its variables, once its sources are there, fails by
      a division by zero or a non-finite result or not at all, whatever the payload holds. */
  lemma AcceptedRuleRuns<N>(nums: Numbers<N>, w: Work, rule: Rule)
    requires TransformExpression.Accepted(nums.ar, rule.expression, NamesIn(SourcesOf(rule)))
    requires Bind(nums, w, SourcesOf(rule), map[]).Bound?
    ensures var r := TransformExpression.Evaluated(nums.ar, rule.expression,
                                                   Bind(nums, w, SourcesOf(rule), map[]).variables);
            r.Ok? || r == TransformGrammar.Err(TransformGrammar.DivisionByZero) ||
            r == TransformGrammar.Err(TransformGrammar.NonFinite)
  {
    BindBindsAll(nums, w, SourcesOf(rule), map[]);
    TransformExpression.Progress(nums.ar, rule.expression, NamesIn(SourcesOf(rule)),
                                 Bind(nums, w, SourcesOf(rule), map[]).variables);
  }

  // ----- Which candidate an alias takes -----

  lemma {:induction false} NoCandidate(w: Work, candidates: seq<string>)
    requires forall i | 0 <= i < |candidates| :: !Defined(Read(w, candidates[i]))
    ensures Candidates(w, candidates) == []
  {
    if candidates != [] {
      NoCandidate(w, candidates[..|candidates| - 1]);
    }
  }

  lemma {:induction false} OneCandidate(w: Work, candidates: seq<string>, j: nat)
    requires j < |candidates| && Defined(Read(w, candidates[j]))
    requires forall i | 0 <= i < |candidates| && i != j :: !Defined(Read(w, candidates[i]))
    ensures Candidates(w, candidates) == [Found(Parts(candidates[j]), Read(w, candidates[j]).value)]
  {
    var n := |candidates| - 1;
    if j == n {
      NoCandidate(w, candidates[..n]);
    } else {
      OneCandidate(w, candidates[..n], j);
    }
  }

  lemma {:induction false} TwoCandidates(w: Work, candidates: seq<string>, i: nat, j: nat)
    requires i < j < |candidates| && Defined(Read(w, candidates[i])) && Defined(Read(w, candidates[j]))
    ensures |Candidates(w, candidates)| >= 2
  {
    var n := |candidates| - 1;
    if j == n {
      SomeCandidate(w, candidates[..n], i);
    } else {
      TwoCandidates(w, candidates[..n], i, j);
    }
  }

  lemma {:induction false} SomeCandidate(w: Work, candidates: seq<string>, i: nat)
    requires i < |candidates| && Defined(Read(w, candidates[i]))
    ensures |Candidates(w, candidates)| >= 1
  {
    var n := |candidates| - 1;
    if i < n {
      SomeCandidate(w, candidates[..n], i);
    }
  }

  /** With two candidates present nothing is written and the ambiguity reported. */
  lemma AliasAmbiguous(w: Work, a: Alias, i: nat, j: nat)
    requires !Defined(Read(w, a.canonical)) && i < j < |a.candidates|
    requires Defined(Read(w, a.candidates[i])) && Defined(Read(w, a.candidates[j]))
    ensures AfterAlias(w, a) == Fail(w, AmbiguousAlias(a.canonical))
  {
    TwoCandidates(w, a.candidates, i, j);
  }

  /** With one present the slot found there, an object included, is put at the canonical path. */
  lemma AliasPuts(w: Work, a: Alias, j: nat)
    requires !Defined(Read(w, a.canonical)) && j < |a.candidates| && Defined(Read(w, a.candidates[j]))
    requires forall i | 0 <= i < |a.candidates| && i != j :: !Defined(Read(w, a.candidates[i]))
    ensures AfterAlias(w, a) == PutAt(w, a.canonical, Read(w, a.candidates[j]).value, Parts(a.candidates[j]))
  {
    OneCandidate(w, a.candidates, j);
  }
}
