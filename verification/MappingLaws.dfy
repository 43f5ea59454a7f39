/** When a field mapping does what its plain reading says, and what it keeps in any case. */
module MappingLaws {
  import opened Json
  import opened SharedObjects
  import opened SharedText
  import opened Sharing
  import opened FieldMappings
  import opened MappingCopies
  import TransformExpression

  // ----- The run agrees with its plain reading -----

  /** The graph reads like the copy, after the same careful writes and with the same errors. */
  ghost predicate Agrees(w: Work, c: Copied) {
    Kept(w.heap, w.writes) && Rooted(w.heap, w.writes) && Shows(w.heap, TOP, Obj(c.payload)) &&
    w.errors == c.errors && w.writes == c.writes && Careful(w.writes)
  }

  /** A slot and the value it shows. */
  ghost predicate SlotShows(w: Work, s: Option<Slot>, v: Option<Json>) {
    (s.Some? <==> v.Some?) && (s.Some? ==> Shows(w.heap, s.value, v.value))
  }

  lemma SlotsShow(w: Work, c: Copied, p: Path)
    requires Agrees(w, c)
    ensures SlotShows(w, Walk(w.heap, TOP, p), Get(Obj(c.payload), p))
  {
    assert Look(w.heap, TOP, p) == Sight(Obj(c.payload), p);
    if Walk(w.heap, TOP, p).Some? {
      ShowsBelow(w.heap, TOP, Obj(c.payload), p);
    }
  }

  lemma ShownShape(w: Work, s: Slot, v: Json)
    requires Shows(w.heap, s, v)
    ensures match s case Plain(j) => v == j && !v.Obj? case Ref(_) => v.Obj?
  {
    assert Look(w.heap, s, []) == Sight(v, []);
  }

  lemma ReadsAgree(w: Work, c: Copied, path: string)
    requires Agrees(w, c)
    ensures SlotShows(w, Read(w, path), ReadCopy(c, path)) && (Defined(Read(w, path)) <==> Present(ReadCopy(c, path)))
    ensures Defined(Read(w, path)) ==>
              match Read(w, path).value
              case Plain(j) => ReadCopy(c, path) == Some(j) && !j.Obj?
              case Ref(_) => ReadCopy(c, path).value.Obj?
  {
    SlotsShow(w, c, Parts(path));
    if Read(w, path).Some? {
      ShownShape(w, Read(w, path).value, ReadCopy(c, path).value);
    }
  }

  /** A value found in the graph, and the one found in the copy. */
  ghost predicate SameFound(w: Work, c: Copied, f: Found, g: FoundCopy) {
    f.at == g.at && Walk(w.heap, TOP, f.at) == Some(f.v) && Get(Obj(c.payload), g.at) == Some(g.v) &&
    Shows(w.heap, f.v, g.v)
  }

  lemma {:induction false} CandidatesAgree(w: Work, c: Copied, candidates: seq<string>)
    requires Agrees(w, c)
    ensures |Candidates(w, candidates)| == |CandidateCopies(c, candidates)|
    ensures forall i | 0 <= i < |Candidates(w, candidates)| ::
              SameFound(w, c, Candidates(w, candidates)[i], CandidateCopies(c, candidates)[i])
  {
    if candidates != [] {
      CandidatesAgree(w, c, candidates[..|candidates| - 1]);
      ReadsAgree(w, c, candidates[|candidates| - 1]);
    }
  }

  lemma PutAgrees(w: Work, c: Copied, path: string, v: Slot, j: Json, from: Path)
    requires Agrees(w, c) && Careful(PutCopy(c, path, j, from).writes) && Shows(w.heap, v, j)
    requires v.Ref? ==> Walk(w.heap, TOP, from) == Some(v) && Get(Obj(c.payload), from) == Some(j)
    ensures Agrees(PutAt(w, path, v, from), PutCopy(c, path, j, from))
  {
    ShownShape(w, v, j);
    if Parts(path) != [] {
      var e := Entry(Parts(path), if v.Ref? then Some(from) else None);
      CarefulAppend(w.writes, e);
      PutKept(w.heap, w.writes, e, v);
      PutRooted(w.heap, w.writes, e, v);
      PutShows(w.heap, w.writes, e, v, c.payload);
      assert CopyOf(c.payload, e, v) == j;
    }
  }

  lemma AliasAgrees(w: Work, c: Copied, a: Alias)
    requires Agrees(w, c) && Careful(CopyAlias(c, a).writes)
    ensures Agrees(AfterAlias(w, a), CopyAlias(c, a))
  {
    ReadsAgree(w, c, a.canonical);
    CandidatesAgree(w, c, a.candidates);
    var present := Candidates(w, a.candidates);
    if !Defined(Read(w, a.canonical)) && |present| == 1 {
      var copy := CandidateCopies(c, a.candidates)[0];
      assert SameFound(w, c, present[0], copy);
      PutAgrees(w, c, a.canonical, present[0].v, copy.v, copy.at);
    }
  }

  lemma CarefulPrefix(ws: seq<Entry>, more: seq<Entry>)
    requires ws <= more && Careful(more)
    ensures Careful(ws)
  {
    forall j | 0 <= j < |ws|
      ensures StaysOutOfBoth(ws[..j], ws[j].at) && (ws[j].from.Some? ==> !(ws[j].from.value < ws[j].at))
    {
      assert ws[..j] == more[..j] && ws[j] == more[j];
    }
  }

  lemma {:induction false} AliasesAgree(w: Work, c: Copied, aliases: seq<Alias>)
    requires Agrees(w, c) && Careful(CopyAliases(c, aliases).writes)
    ensures Agrees(AfterAliases(w, aliases), CopyAliases(c, aliases))
  {
    if aliases != [] {
      var n := |aliases| - 1;
      CopyAliasWrites(CopyAliases(c, aliases[..n]), aliases[n]);
      CarefulPrefix(CopyAliases(c, aliases[..n]).writes, CopyAliases(c, aliases).writes);
      AliasesAgree(w, c, aliases[..n]);
      AliasAgrees(AfterAliases(w, aliases[..n]), CopyAliases(c, aliases[..n]), aliases[n]);
    }
  }

  /** `Number` of an object is the same whatever the object holds. */
  ghost predicate ObjectsAlike<N(!new)>(nums: Numbers<N>) {
    forall f: Fields :: nums.number(Obj(f)) == nums.number(Obj(map[]))
  }

  lemma {:induction false} BindAgrees<N(!new)>(nums: Numbers<N>, w: Work, c: Copied, sources: seq<(string, string)>,
                                               variables: map<string, N>)
    requires Agrees(w, c) && ObjectsAlike(nums)
    ensures Bind(nums, w, sources, variables) == BindCopies(nums, c, sources, variables)
  {
    if sources != [] {
      ReadsAgree(w, c, sources[0].1);
      if Defined(Read(w, sources[0].1)) {
        var v := ReadCopy(c, sources[0].1).value;
        assert NumberOf(nums, Read(w, sources[0].1).value) == nums.number(v) by {
          assert v.Obj? ==> v == Obj(v.fields);
        }
        BindAgrees(nums, w, c, sources[1..], variables[sources[0].0 := nums.number(v)]);
      }
    }
  }

  lemma PlainShows(h: Heap, j: Json)
    requires !j.Obj?
    ensures Shows(h, Plain(j), j)
  {
    forall p ensures Look(h, Plain(j), p) == Sight(j, p) {
      PlainLook(h, j, p);
    }
  }

  lemma RuleAgrees<N(!new)>(nums: Numbers<N>, strict: bool, w: Work, c: Copied, rule: Rule)
    requires Agrees(w, c) && ObjectsAlike(nums) && Careful(CopyRule(nums, strict, c, rule).writes)
    ensures Agrees(AfterRule(nums, strict, w, rule), CopyRule(nums, strict, c, rule))
  {
    BindAgrees(nums, w, c, SourcesOf(rule), map[]);
    var bound := Bind(nums, w, SourcesOf(rule), map[]);
    if SourcesOf(rule) != [] && bound.Bound? {
      var r := TransformExpression.Evaluated(nums.ar, rule.expression, bound.variables);
      if r.Ok? {
        PlainShows(w.heap, Num(nums.toReal(r.value)));
        PutAgrees(w, c, rule.target, Plain(Num(nums.toReal(r.value))), Num(nums.toReal(r.value)), []);
      }
    }
  }

  lemma {:induction false} RulesAgree<N(!new)>(nums: Numbers<N>, strict: bool, w: Work, c: Copied, rules: seq<Rule>)
    requires Agrees(w, c) && ObjectsAlike(nums) && Careful(CopyRules(nums, strict, c, rules).writes)
    ensures Agrees(AfterRules(nums, strict, w, rules), CopyRules(nums, strict, c, rules))
  {
    if rules != [] {
      var n := |rules| - 1;
      var before := CopyRules(nums, strict, c, rules[..n]);
      assert before.writes <= CopyRules(nums, strict, c, rules).writes;
      CarefulPrefix(before.writes, CopyRules(nums, strict, c, rules).writes);
      RulesAgree(nums, strict, w, c, rules[..n]);
      RuleAgrees(nums, strict, AfterRules(nums, strict, w, rules[..n]), before, rules[n]);
    }
  }

  lemma ParsedAgrees(payload: Fields)
    ensures Agrees(Parsed(payload), Copied(payload, [], []))
  {
    LoadShows(payload);
    LoadKept(payload);
  }

  lemma ChecksAgree(m: Mapping, w: Work, c: Copied)
    requires Agrees(w, c)
    ensures Passes(m, w) <==> PassesCopy(m, c)
  {
    forall path ensures Filled(w, path) <==> FilledCopy(c, path) {
      ReadsAgree(w, c, path);
    }
    forall path, t ensures Typed(w, path, t) <==> TypedCopy(c, path, t) {
      ReadsAgree(w, c, path);
    }
  }

  /** While the writes of the plain reading are careful, the program's graph reads just like it, it is accepted or
      rejected as it is, and its text is that payload. */
  lemma NormalizedAsCopied<N(!new)>(nums: Numbers<N>, m: Mapping, payload: Fields)
    requires ObjectsAlike(nums) && Careful(Rewrite(nums, m, payload).writes)
    ensures Agrees(Rewritten(nums, m, payload), Rewrite(nums, m, payload))
    ensures Passes(m, Rewritten(nums, m, payload)) <==> PassesCopy(m, Rewrite(nums, m, payload))
    ensures Text(Rewritten(nums, m, payload).heap, TOP, {}) == Some(Obj(Rewrite(nums, m, payload).payload))
  {
    var c0, w0 := Copied(payload, [], []), Parsed(payload);
    var c1 := CopyAliases(c0, m.aliases);
    ParsedAgrees(payload);
    CopyRulesWrite(nums, m.strict, c1, m.transforms);
    CarefulPrefix(c1.writes, Rewrite(nums, m, payload).writes);
    AliasesAgree(w0, c0, m.aliases);
    RulesAgree(nums, m.strict, AfterAliases(w0, m.aliases), c1, m.transforms);
    ChecksAgree(m, Rewritten(nums, m, payload), Rewrite(nums, m, payload));
    TextExactly(Rewritten(nums, m, payload).heap, ROOT, Obj(Rewrite(nums, m, payload).payload));
  }

  /** In a careful run a rule with its sources there has its result read back at its target, or is reported. */
  lemma RuleWrites<N(!new)>(nums: Numbers<N>, strict: bool, w: Work, c: Copied, rule: Rule)
    requires Agrees(w, c) && StaysOutOfBoth(w.writes, Parts(rule.target))
    requires SourcesOf(rule) != [] && Parts(rule.target) != [] && Bind(nums, w, SourcesOf(rule), map[]).Bound?
    ensures var r := TransformExpression.Evaluated(nums.ar, rule.expression,
                                                   Bind(nums, w, SourcesOf(rule), map[]).variables);
            var after := AfterRule(nums, strict, w, rule);
            if r.Ok? then Read(after, rule.target) == Some(Plain(Num(nums.toReal(r.value)))) && after.errors == w.errors
            else after == Fail(w, BadExpression(rule.target))
  {
    var t := Parts(rule.target);
    var r := TransformExpression.Evaluated(nums.ar, rule.expression, Bind(nums, w, SourcesOf(rule), map[]).variables);
    if r.Ok? {
      CarefulIsAlone(w.heap, w.writes, t);
      WriteThenWalk(w.heap, ROOT, [], t, Plain(Num(nums.toReal(r.value))), |w.writes| + 1, t);
    }
  }

  // ----- What any run keeps that stays out of what it has shared -----

  /** The payload shows at and below `q` what it showed as parsed. */
  ghost predicate Untouched(h: Heap, payload: Fields, q: Path) {
    forall y :: Look(h, TOP, q + y) == Sight(Obj(payload), q + y)
  }

  ghost predicate ApartFromWrites(ws: seq<Entry>, q: Path) {
    forall i | 0 <= i < |ws| :: !Comparable(ws[i].at, q)
  }

  ghost predicate KeptSoFar(w: Work, payload: Fields, q: Path) {
    Kept(w.heap, w.writes) && (ApartFromWrites(w.writes, q) ==> Untouched(w.heap, payload, q))
  }

  lemma ApartBelow(p: Path, q: Path, y: Path)
    ensures Comparable(p, q + y) ==> Comparable(p, q)
  {
    assert (q + y)[..|q|] == q;
    if p <= q + y {
      if |p| <= |q| {
        assert p == (q + y)[..|p|] == q[..|p|];
      } else {
        assert q == p[..|q|];
      }
    }
    if q + y <= p {
      assert q == p[..|q|];
    }
  }

  lemma KeepsOutPrefix(ws: seq<Entry>, more: seq<Entry>)
    requires ws <= more && KeepsOut(more)
    ensures KeepsOut(ws)
  {
    forall j | 0 <= j < |ws| ensures StaysOut(ws[..j], ws[j].at) {
      assert ws[..j] == more[..j] && ws[j] == more[j];
    }
  }

  lemma PutKeepsPath(w: Work, path: string, v: Slot, from: Path, payload: Fields, q: Path)
    requires KeptSoFar(w, payload, q) && KeepsOut(PutAt(w, path, v, from).writes)
    requires if v.Ref? then Walk(w.heap, TOP, from) == Some(v) else !v.j.Obj?
    ensures KeptSoFar(PutAt(w, path, v, from), payload, q)
  {
    if Parts(path) != [] {
      var e := Entry(Parts(path), if v.Ref? then Some(from) else None);
      KeepsOutAppend(w.writes, e);
      PutKept(w.heap, w.writes, e, v);
      if ApartFromWrites(w.writes + [e], q) {
        assert (w.writes + [e])[|w.writes|] == e;
        forall i | 0 <= i < |w.writes| ensures !Comparable(w.writes[i].at, q) {
          assert (w.writes + [e])[i] == w.writes[i];
        }
        forall y ensures Look(Put(w.heap, w.writes, e.at, v), TOP, q + y) == Sight(Obj(payload), q + y) {
          KeptBelow(w, e, v, q, y);
        }
      }
    }
  }

  lemma KeptBelow(w: Work, e: Entry, v: Slot, q: Path, y: Path)
    requires Kept(w.heap, w.writes) && StaysOut(w.writes, e.at) && !Comparable(e.at, q) && ApartFromWrites(w.writes, q)
    ensures Look(Put(w.heap, w.writes, e.at, v), TOP, q + y) == Look(w.heap, TOP, q + y)
  {
    ApartBelow(e.at, q, y);
    forall i | 0 <= i < |w.writes| && w.writes[i].from.Some? ensures !(w.writes[i].at <= q + y) {
      ApartBelow(w.writes[i].at, q, y);
    }
    PutKeeps(w.heap, w.writes, e, v, q + y);
  }

  lemma AliasKeepsPath(w: Work, a: Alias, payload: Fields, q: Path)
    requires KeptSoFar(w, payload, q) && KeepsOut(AfterAlias(w, a).writes)
    ensures KeptSoFar(AfterAlias(w, a), payload, q)
  {
    var present := Candidates(w, a.candidates);
    if !Defined(Read(w, a.canonical)) && |present| == 1 {
      FoundIsThere(w, a.candidates, 0);
      WalkSane(w.heap, TOP, present[0].at);
      PutKeepsPath(w, a.canonical, present[0].v, present[0].at, payload, q);
    }
  }

  lemma {:induction false} AliasesKeepPath(w: Work, aliases: seq<Alias>, payload: Fields, q: Path)
    requires KeptSoFar(w, payload, q) && KeepsOut(AfterAliases(w, aliases).writes)
    ensures KeptSoFar(AfterAliases(w, aliases), payload, q)
  {
    if aliases != [] {
      var n := |aliases| - 1;
      var before := AfterAliases(w, aliases[..n]);
      assert before.writes <= AfterAlias(before, aliases[n]).writes;
      KeepsOutPrefix(before.writes, AfterAliases(w, aliases).writes);
      AliasesKeepPath(w, aliases[..n], payload, q);
      AliasKeepsPath(before, aliases[n], payload, q);
    }
  }

  lemma RuleKeepsPath<N>(nums: Numbers<N>, strict: bool, w: Work, rule: Rule, payload: Fields, q: Path)
    requires KeptSoFar(w, payload, q) && KeepsOut(AfterRule(nums, strict, w, rule).writes)
    ensures KeptSoFar(AfterRule(nums, strict, w, rule), payload, q)
  {
    var bound := Bind(nums, w, SourcesOf(rule), map[]);
    if SourcesOf(rule) != [] && bound.Bound? {
      var r := TransformExpression.Evaluated(nums.ar, rule.expression, bound.variables);
      if r.Ok? {
        PutKeepsPath(w, rule.target, Plain(Num(nums.toReal(r.value))), [], payload, q);
      }
    }
  }

  lemma {:induction false} RulesKeepPath<N>(nums: Numbers<N>, strict: bool, w: Work, rules: seq<Rule>, payload: Fields,
                                            q: Path)
    requires KeptSoFar(w, payload, q) && KeepsOut(AfterRules(nums, strict, w, rules).writes)
    ensures KeptSoFar(AfterRules(nums, strict, w, rules), payload, q)
  {
    if rules != [] {
      var n := |rules| - 1;
      var before := AfterRules(nums, strict, w, rules[..n]);
      assert before.writes <= AfterRule(nums, strict, before, rules[n]).writes;
      KeepsOutPrefix(before.writes, AfterRules(nums, strict, w, rules).writes);
      RulesKeepPath(nums, strict, w, rules[..n], payload, q);
      RuleKeepsPath(nums, strict, before, rules[n], payload, q);
    }
  }

  lemma {:induction false} RulesWrite<N>(nums: Numbers<N>, strict: bool, w: Work, rules: seq<Rule>)
    ensures w.writes <= AfterRules(nums, strict, w, rules).writes
  {
    if rules != [] {
      RulesWrite(nums, strict, w, rules[..|rules| - 1]);
    }
  }

  /** While no write goes below a canonical path that holds a shared object, every path incomparable with all the
      writes of the run keeps its original value. */
  lemma OtherPathsAreKept<N>(nums: Numbers<N>, m: Mapping, payload: Fields, q: Path)
    requires KeepsOut(Rewritten(nums, m, payload).writes) && ApartFromWrites(Rewritten(nums, m, payload).writes, q)
    ensures Untouched(Rewritten(nums, m, payload).heap, payload, q)
  {
    var w1 := AfterAliases(Parsed(payload), m.aliases);
    LoadKept(payload);
    LoadShows(payload);
    RulesWrite(nums, m.strict, w1, m.transforms);
    KeepsOutPrefix(w1.writes, Rewritten(nums, m, payload).writes);
    AliasesKeepPath(Parsed(payload), m.aliases, payload, q);
    RulesKeepPath(nums, m.strict, w1, m.transforms, payload, q);
  }

  // ----- Conditions on the mapping alone -----

  /** The target does not lie strictly below the alias's canonical path. */
  predicate Outside(a: Alias, target: string) {
    !(Parts(a.canonical) < Parts(target))
  }

  /** Nor strictly below one of its candidates. */
  predicate OutsideBoth(a: Alias, target: string) {
    Outside(a, target) && forall d | d in a.candidates :: !(Parts(d) < Parts(target))
  }

  /** No later alias or transform writes strictly below an alias's canonical path. */
  ghost predicate CanonicalsApart(m: Mapping) {
    (forall i, j | 0 <= i < j < |m.aliases| :: Outside(m.aliases[i], m.aliases[j].canonical)) &&
    forall a, r | a in m.aliases && r in m.transforms :: Outside(a, r.target)
  }

  /** Nor below one of its candidates, and no candidate lies above its own canonical path. */
  ghost predicate Separate(m: Mapping) {
    (forall i, j | 0 <= i < j < |m.aliases| :: OutsideBoth(m.aliases[i], m.aliases[j].canonical)) &&
    (forall a, r | a in m.aliases && r in m.transforms :: OutsideBoth(a, r.target)) &&
    forall a, d | a in m.aliases && d in a.candidates :: !(Parts(d) < Parts(a.canonical))
  }

  /** A shared write is an alias's. */
  predicate IsBy(e: Entry, a: Alias) {
    e.at == Parts(a.canonical) && (e.from.Some? ==> exists d :: d in a.candidates && Parts(d) == e.from.value)
  }

  ghost predicate ByAliases(ws: seq<Entry>, aliases: seq<Alias>) {
    forall i | 0 <= i < |ws| && ws[i].from.Some? :: exists a :: a in aliases && IsBy(ws[i], a)
  }

  lemma ByMore(ws: seq<Entry>, aliases: seq<Alias>, more: seq<Alias>)
    requires ByAliases(ws, aliases) && forall a | a in aliases :: a in more
    ensures ByAliases(ws, more)
  {
    forall i | 0 <= i < |ws| && ws[i].from.Some? ensures exists a :: a in more && IsBy(ws[i], a) {
      var a :| a in aliases && IsBy(ws[i], a);
      assert a in more;
    }
  }

  lemma ByAppend(ws: seq<Entry>, e: Entry, aliases: seq<Alias>, a: Alias)
    requires ByAliases(ws, aliases) && a in aliases && (e.from.Some? ==> IsBy(e, a))
    ensures ByAliases(ws + [e], aliases)
  {
    forall i | 0 <= i < |ws + [e]| && (ws + [e])[i].from.Some?
      ensures exists b :: b in aliases && IsBy((ws + [e])[i], b)
    {
      if i < |ws| {
        assert (ws + [e])[i] == ws[i];
      }
    }
  }

  lemma {:induction false} FoundIsCandidate(c: Copied, candidates: seq<string>, i: nat)
    requires i < |CandidateCopies(c, candidates)|
    ensures exists d :: d in candidates && Parts(d) == CandidateCopies(c, candidates)[i].at
  {
    var n := |candidates| - 1;
    assert candidates == candidates[..n] + [candidates[n]];
    if i < |CandidateCopies(c, candidates[..n])| {
      FoundIsCandidate(c, candidates[..n], i);
    }
  }

  lemma AliasBy(c: Copied, a: Alias, aliases: seq<Alias>)
    requires ByAliases(c.writes, aliases) && a in aliases
    ensures ByAliases(CopyAlias(c, a).writes, aliases)
  {
    var present := CandidateCopies(c, a.candidates);
    if !Present(ReadCopy(c, a.canonical)) && |present| == 1 && Parts(a.canonical) != [] {
      FoundIsCandidate(c, a.candidates, 0);
      ByAppend(c.writes, Entry(Parts(a.canonical), if present[0].v.Obj? then Some(present[0].at) else None), aliases,
               a);
    }
  }

  lemma OutsideStaysOut(ws: seq<Entry>, aliases: seq<Alias>, target: string)
    requires ByAliases(ws, aliases) && forall a | a in aliases :: OutsideBoth(a, target)
    ensures StaysOutOfBoth(ws, Parts(target))
  {
    forall i | 0 <= i < |ws| && ws[i].from.Some?
      ensures !(ws[i].at < Parts(target)) && !(ws[i].from.value < Parts(target))
    {
      var a :| a in aliases && IsBy(ws[i], a);
      assert OutsideBoth(a, target);
      var d :| d in a.candidates && Parts(d) == ws[i].from.value;
    }
  }

  lemma AliasCareful(c: Copied, a: Alias, before: seq<Alias>)
    requires Careful(c.writes) && ByAliases(c.writes, before) && forall b | b in before :: OutsideBoth(b, a.canonical)
    requires forall d | d in a.candidates :: !(Parts(d) < Parts(a.canonical))
    ensures Careful(CopyAlias(c, a).writes)
  {
    var present := CandidateCopies(c, a.candidates);
    if !Present(ReadCopy(c, a.canonical)) && |present| == 1 && Parts(a.canonical) != [] {
      FoundIsCandidate(c, a.candidates, 0);
      OutsideStaysOut(c.writes, before, a.canonical);
      CarefulAppend(c.writes, Entry(Parts(a.canonical), if present[0].v.Obj? then Some(present[0].at) else None));
    }
  }

  lemma {:induction false} AliasesCareful(m: Mapping, payload: Fields, n: nat)
    requires Separate(m) && n <= |m.aliases|
    ensures Careful(CopyAliases(Copied(payload, [], []), m.aliases[..n]).writes)
    ensures ByAliases(CopyAliases(Copied(payload, [], []), m.aliases[..n]).writes, m.aliases[..n])
  {
    if n > 0 {
      AliasesCareful(m, payload, n - 1);
      var before, a := m.aliases[..n - 1], m.aliases[n - 1];
      assert m.aliases[..n][..n - 1] == before && m.aliases[..n] == before + [a];
      var c := CopyAliases(Copied(payload, [], []), before);
      BeforeIsOutsideBoth(m, before, n - 1);
      AliasCareful(c, a, before);
      ByMore(c.writes, before, m.aliases[..n]);
      AliasBy(c, a, m.aliases[..n]);
    }
  }

  lemma BeforeIsOutsideBoth(m: Mapping, before: seq<Alias>, k: nat)
    requires Separate(m) && k < |m.aliases| && before == m.aliases[..k]
    ensures forall b | b in before :: OutsideBoth(b, m.aliases[k].canonical)
    ensures forall d | d in m.aliases[k].candidates :: !(Parts(d) < Parts(m.aliases[k].canonical))
  {
    assert m.aliases[k] in m.aliases;
  }

  lemma {:induction false} RulesCareful<N>(nums: Numbers<N>, m: Mapping, c: Copied, rules: seq<Rule>)
    requires Separate(m) && Careful(c.writes) && ByAliases(c.writes, m.aliases) &&
             forall r | r in rules :: r in m.transforms
    ensures Careful(CopyRules(nums, m.strict, c, rules).writes) &&
            ByAliases(CopyRules(nums, m.strict, c, rules).writes, m.aliases)
  {
    if rules != [] {
      var n := |rules| - 1;
      RulesCareful(nums, m, c, rules[..n]);
      assert rules[n] in m.transforms;
      RuleCareful(nums, m, CopyRules(nums, m.strict, c, rules[..n]), rules[n]);
    }
  }

  lemma RuleCareful<N>(nums: Numbers<N>, m: Mapping, c: Copied, rule: Rule)
    requires Separate(m) && Careful(c.writes) && ByAliases(c.writes, m.aliases) && rule in m.transforms
    ensures Careful(CopyRule(nums, m.strict, c, rule).writes) &&
            ByAliases(CopyRule(nums, m.strict, c, rule).writes, m.aliases)
  {
    var e := Entry(Parts(rule.target), None);
    OutsideStaysOut(c.writes, m.aliases, rule.target);
    CarefulAppend(c.writes, e);
    forall i | 0 <= i < |c.writes + [e]| && (c.writes + [e])[i].from.Some?
      ensures exists b :: b in m.aliases && IsBy((c.writes + [e])[i], b)
    {
      assert (c.writes + [e])[i] == c.writes[i];
    }
  }

  /** A mapping whose paths are separate is careful with every payload: it can be told when it is uploaded. */
  lemma SeparateIsCareful<N>(nums: Numbers<N>, m: Mapping, payload: Fields)
    requires Separate(m)
    ensures Careful(Rewrite(nums, m, payload).writes)
  {
    AliasesCareful(m, payload, |m.aliases|);
    assert m.aliases[..|m.aliases|] == m.aliases;
    RulesCareful(nums, m, CopyAliases(Copied(payload, [], []), m.aliases), m.transforms);
  }

  /** Every write of a run is an alias's at its canonical path, or a transform's at its target. */
  ghost predicate Origin(e: Entry, aliases: seq<Alias>, rules: seq<Rule>) {
    (exists a :: a in aliases && e.at == Parts(a.canonical)) ||
    (e.from.None? && exists r :: r in rules && e.at == Parts(r.target))
  }

  ghost predicate Origins(ws: seq<Entry>, aliases: seq<Alias>, rules: seq<Rule>) {
    forall i | 0 <= i < |ws| :: Origin(ws[i], aliases, rules)
  }

  lemma OriginsAppend(ws: seq<Entry>, e: Entry, aliases: seq<Alias>, rules: seq<Rule>)
    requires Origins(ws, aliases, rules) && Origin(e, aliases, rules)
    ensures Origins(ws + [e], aliases, rules)
  {
    forall i | 0 <= i < |ws + [e]| ensures Origin((ws + [e])[i], aliases, rules) {
      assert i < |ws| ==> (ws + [e])[i] == ws[i];
    }
  }

  lemma OriginsGrow(ws: seq<Entry>, aliases: seq<Alias>, more: seq<Alias>)
    requires Origins(ws, aliases, []) && forall a | a in aliases :: a in more
    ensures Origins(ws, more, [])
  {
    forall i | 0 <= i < |ws| ensures Origin(ws[i], more, []) {
      assert Origin(ws[i], aliases, []);
    }
  }

  /** A path outside the aliases stays out of what they have shared. */
  lemma OriginStaysOut(ws: seq<Entry>, aliases: seq<Alias>, rules: seq<Rule>, target: string)
    requires Origins(ws, aliases, rules) && forall a | a in aliases :: Outside(a, target)
    ensures StaysOut(ws, Parts(target))
  {
    forall i | 0 <= i < |ws| && ws[i].from.Some? ensures !(ws[i].at < Parts(target)) {
      assert Origin(ws[i], aliases, rules);
      var a :| a in aliases && ws[i].at == Parts(a.canonical);
      assert Outside(a, target);
    }
  }

  lemma AliasKeepsOut(w: Work, a: Alias, before: seq<Alias>)
    requires KeepsOut(w.writes) && Origins(w.writes, before, []) && forall b | b in before :: Outside(b, a.canonical)
    ensures KeepsOut(AfterAlias(w, a).writes) && Origins(AfterAlias(w, a).writes, before + [a], [])
  {
    OriginsGrow(w.writes, before, before + [a]);
    OriginStaysOut(w.writes, before, [], a.canonical);
    assert a in before + [a];
    forall from: Option<Path> ensures KeepsOut(w.writes + [Entry(Parts(a.canonical), from)]) {
      KeepsOutAppend(w.writes, Entry(Parts(a.canonical), from));
    }
    forall from: Option<Path> ensures Origins(w.writes + [Entry(Parts(a.canonical), from)], before + [a], []) {
      OriginsAppend(w.writes, Entry(Parts(a.canonical), from), before + [a], []);
    }
  }

  lemma {:induction false} AliasesKeepOut(m: Mapping, payload: Fields, n: nat)
    requires CanonicalsApart(m) && n <= |m.aliases|
    ensures var ws := AfterAliases(Parsed(payload), m.aliases[..n]).writes;
            KeepsOut(ws) && Origins(ws, m.aliases[..n], [])
  {
    if n > 0 {
      AliasesKeepOut(m, payload, n - 1);
      var before, a := m.aliases[..n - 1], m.aliases[n - 1];
      assert m.aliases[..n][..n - 1] == before && m.aliases[..n] == before + [a];
      BeforeIsOutside(m, before, n - 1);
      AliasKeepsOut(AfterAliases(Parsed(payload), before), a, before);
    }
  }

  lemma BeforeIsOutside(m: Mapping, before: seq<Alias>, k: nat)
    requires CanonicalsApart(m) && k < |m.aliases| && before == m.aliases[..k]
    ensures forall b | b in before :: Outside(b, m.aliases[k].canonical)
  {
  }

  lemma RuleKeepsOut<N>(nums: Numbers<N>, m: Mapping, w: Work, rule: Rule)
    requires CanonicalsApart(m) && KeepsOut(w.writes) && Origins(w.writes, m.aliases, m.transforms) &&
             rule in m.transforms
    ensures var ws := AfterRule(nums, m.strict, w, rule).writes; KeepsOut(ws) && Origins(ws, m.aliases, m.transforms)
  {
    var e := Entry(Parts(rule.target), None);
    OriginStaysOut(w.writes, m.aliases, m.transforms, rule.target);
    KeepsOutAppend(w.writes, e);
    OriginsAppend(w.writes, e, m.aliases, m.transforms);
  }

  lemma {:induction false} RulesKeepOut<N>(nums: Numbers<N>, m: Mapping, w: Work, rules: seq<Rule>)
    requires CanonicalsApart(m) && KeepsOut(w.writes) && Origins(w.writes, m.aliases, m.transforms)
    requires forall r | r in rules :: r in m.transforms
    ensures var ws := AfterRules(nums, m.strict, w, rules).writes; KeepsOut(ws) && Origins(ws, m.aliases, m.transforms)
  {
    if rules != [] {
      var n := |rules| - 1;
      RulesKeepOut(nums, m, w, rules[..n]);
      assert rules[n] in m.transforms;
      RuleKeepsOut(nums, m, AfterRules(nums, m.strict, w, rules[..n]), rules[n]);
    }
  }

  lemma RunKeepsOut<N>(nums: Numbers<N>, m: Mapping, payload: Fields)
    requires CanonicalsApart(m)
    ensures var ws := Rewritten(nums, m, payload).writes; KeepsOut(ws) && Origins(ws, m.aliases, m.transforms)
  {
    AliasesKeepOut(m, payload, |m.aliases|);
    assert m.aliases[..|m.aliases|] == m.aliases;
    var w := AfterAliases(Parsed(payload), m.aliases);
    forall i | 0 <= i < |w.writes| ensures Origin(w.writes[i], m.aliases, m.transforms) {
      assert Origin(w.writes[i], m.aliases, []);
    }
    RulesKeepOut(nums, m, w, m.transforms);
  }

  /** A mapping with its canonical paths apart keeps, with every payload, each path incomparable with all alias and
      transform targets. */
  lemma MappingKeepsOtherPaths<N>(nums: Numbers<N>, m: Mapping, payload: Fields, q: Path)
    requires CanonicalsApart(m)
    requires forall a | a in m.aliases :: !Comparable(Parts(a.canonical), q)
    requires forall r | r in m.transforms :: !Comparable(Parts(r.target), q)
    ensures Untouched(Rewritten(nums, m, payload).heap, payload, q)
  {
    RunKeepsOut(nums, m, payload);
    var ws := Rewritten(nums, m, payload).writes;
    forall i | 0 <= i < |ws| ensures !Comparable(ws[i].at, q) {
      assert Origin(ws[i], m.aliases, m.transforms);
    }
    OtherPathsAreKept(nums, m, payload, q);
  }
}
