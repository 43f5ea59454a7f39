/** Mappings and payloads for which sharing shows. */
module MappingInputs {
  import opened Json
  import opened SharedObjects
  import opened SharedText
  import opened FieldMappings
  import opened MappingLeaks
  import TransformGrammar
  import TransformExpression

  // ----- Dotted paths -----

  lemma OneWord(a: string)
    requires IsKey(a)
    ensures Parts(a) == [a]
  {
    PartsOfWord(a);
  }

  lemma TwoWords(a: string, b: string)
    requires IsKey(a) && IsKey(b)
    ensures Parts(a + "." + b) == [a, b]
  {
    PartsAppend(a, b);
    PartsOfWord(a);
    PartsOfWord(b);
    assert [a] + [b] == [a, b];
  }

  // ----- One alias on a payload as parsed -----

  lemma OneAliasRuns(f: Fields, canonical: string, candidate: string)
    requires Fires(f, Parts(canonical), Parts(candidate))
    ensures var c, d := Parts(canonical), Parts(candidate);
            AfterAlias(Parsed(f), Alias(canonical, [candidate])) == Work(Aliased(f, c, d), [], Series(f, c, d))
  {
    var c, d := Parts(canonical), Parts(candidate);
    var w, a := Parsed(f), Alias(canonical, [candidate]);
    LoadShows(f);
    assert Look(w.heap, TOP, c) == Sight(Obj(f), c);
    assert Look(w.heap, TOP, d) == Sight(Obj(f), d);
    FoundWalk(f, d);
    AliasPuts(w, a, 0);
    assert [] + [Series(f, c, d)[0]] == Series(f, c, d);
  }

  lemma OneAliasList(f: Fields, a: Alias)
    ensures AfterAliases(Parsed(f), [a]) == AfterAlias(Parsed(f), a)
  {
    assert [a][..0] == [];
    assert AfterAliases(Parsed(f), []) == Parsed(f);
  }

  // ----- The payload {data: {raw: 5}} under the alias metrics <- data -----

  const DATA: Fields := map["raw" := Num(5.0)]
  const PAYLOAD: Fields := map["data" := Obj(DATA)]
  const METRICS: Alias := Alias("metrics", ["data"])

  lemma Words()
    ensures Parts("metrics") == ["metrics"] && Parts("data") == ["data"] && Parts("data.raw") == ["data", "raw"]
    ensures Parts("metrics.score") == ["metrics", "score"] && Parts("data.copy") == ["data", "copy"]
    ensures Parts("legacyScore") == ["legacyScore"]
  {
    DottedWords();
    LongWord();
    OneWord("metrics");
    OneWord("data");
  }

  lemma LongWord()
    ensures Parts("legacyScore") == ["legacyScore"]
  {
    OneWord("legacyScore");
  }

  lemma DottedWords()
    ensures Parts("data.raw") == ["data", "raw"] && Parts("metrics.score") == ["metrics", "score"] &&
            Parts("data.copy") == ["data", "copy"]
  {
    TwoWords("data", "raw");
    TwoWords("metrics", "score");
    TwoWords("data", "copy");
    assert "data" + "." + "raw" == "data.raw" && "metrics" + "." + "score" == "metrics.score" &&
           "data" + "." + "copy" == "data.copy";
  }

  lemma GetTwo(f: Fields, k: string, l: string)
    ensures Get(Obj(f), [k, l]) == if k in f && f[k].Obj? then At(f[k].fields, l) else None
  {
    assert [k, l][1..] == [l];
    if k in f && f[k].Obj? {
      GetOne(f[k].fields, l);
    }
  }

  /** A payload with an object `data` without a score, and no `metrics`. */
  predicate Sample(f: Fields) {
    "metrics" !in f && "data" in f && f["data"] == Obj(DATA)
  }

  lemma SampleFires(f: Fields)
    requires Sample(f)
    ensures Fires(f, ["metrics"], ["data"]) && Get(Obj(f), ["data"]) == Some(Obj(DATA)) &&
            !Comparable(["metrics"], ["data"])
    ensures Get(Obj(f), ["data", "score"]) == None && Get(Obj(f), ["data", "raw"]) == Some(Num(5.0))
  {
    GetOne(f, "metrics");
    GetOne(f, "data");
    GetTwo(f, "data", "score");
    GetTwo(f, "data", "raw");
    assert "raw"[0] != "score"[0];
    assert ["metrics"][0][0] == 'm' && ["data"][0][0] == 'd';
  }

  /** Writing `metrics.score` afterwards writes `data.score`, too. */
  lemma SampleLeaks(f: Fields, x: Json)
    requires Sample(f) && !x.Obj?
    ensures Get(Obj(f), ["data"]).Some?
    ensures Look(ThenWritten(f, ["metrics"], ["data"], ["metrics", "score"], x), TOP, ["data", "score"]) ==
            Some(Leaf(x))
    ensures !OthersKept(f, ["metrics"], ["data"], ["metrics", "score"], x)
  {
    SampleFires(f);
    assert ["metrics"] + ["score"] == ["metrics", "score"] && ["data"] + ["score"] == ["data", "score"];
    LeakShows(f, ["metrics"], ["data"], ["score"], x);
    assert ["metrics", "score"][|["metrics"]|..] == ["score"];
    GetOne(DATA, "score");
    assert "raw"[0] != "score"[0];
    assert Leaks(f, ["metrics"], ["data"], ["metrics", "score"], x);
    OthersKeptExactly(f, ["metrics"], ["data"], ["metrics", "score"], x);
  }

  /** Two aliases: `{"metrics": ["data"], "metrics.score": ["legacyScore"]}` on `{data: {raw: 5}, legacyScore: 7}`
      leaves `data.score` at 7, a path incomparable with both canonical paths that the payload did not have. */
  lemma AliasesLeak()
    ensures var f := PAYLOAD["legacyScore" := Num(7.0)];
            var w := AfterAliases(Parsed(f), [METRICS, Alias("metrics.score", ["legacyScore"])]);
            Get(Obj(f), ["data", "score"]) == None && Look(w.heap, TOP, ["data", "score"]) == Some(Leaf(Num(7.0))) &&
            w.errors == []
  {
    var f := PAYLOAD["legacyScore" := Num(7.0)];
    var second := Alias("metrics.score", ["legacyScore"]);
    SampleOf7(f);
    SampleFires(f);
    FirstAliasRuns(f);
    SecondAliasPuts(f, AfterAliases(Parsed(f), [METRICS]), second);
    assert [METRICS, second][..1] == [METRICS];
    SampleLeaks(f, Num(7.0));
  }

  lemma FirstAliasRuns(f: Fields)
    requires Fires(f, ["metrics"], ["data"])
    ensures AfterAliases(Parsed(f), [METRICS]) ==
            Work(Aliased(f, ["metrics"], ["data"]), [], Series(f, ["metrics"], ["data"]))
  {
    Words();
    OneAliasRuns(f, "metrics", "data");
    OneAliasList(f, METRICS);
  }

  lemma SampleOf7(f: Fields)
    requires f == PAYLOAD["legacyScore" := Num(7.0)]
    ensures Sample(f) && Get(Obj(f), ["legacyScore"]) == Some(Num(7.0)) && !Comparable(["metrics"], ["legacyScore"])
  {
    assert "legacyScore"[0] == 'l' && "metrics"[0] == 'm' && "data"[0] == 'd';
    assert ["metrics"][0][0] == 'm' && ["legacyScore"][0][0] == 'l';
    GetOne(f, "legacyScore");
  }

  lemma SecondAliasPuts(f: Fields, w: Work, second: Alias)
    requires f == PAYLOAD["legacyScore" := Num(7.0)] && second == Alias("metrics.score", ["legacyScore"])
    requires Fires(f, ["metrics"], ["data"]) &&
             w == Work(Aliased(f, ["metrics"], ["data"]), [], Series(f, ["metrics"], ["data"]))
    ensures AfterAlias(w, second).heap == ThenWritten(f, ["metrics"], ["data"], ["metrics", "score"], Num(7.0))
    ensures AfterAlias(w, second).errors == []
  {
    Words();
    SampleOf7(f);
    SampleFires(f);
    AliasedKeepsOthers(f, ["metrics"], ["data"], ["legacyScore"]);
    NoScoreYet(f);
    assert Read(w, "legacyScore") == Some(Plain(Num(7.0))) by {
      assert Look(w.heap, TOP, ["legacyScore"]) == Some(Leaf(Num(7.0)));
    }
    AliasPuts(w, second, 0);
  }

  /** `metrics` is the object `data` now, and that has no score. */
  lemma NoScoreYet(f: Fields)
    requires Sample(f) && Fires(f, ["metrics"], ["data"])
    ensures Walk(Aliased(f, ["metrics"], ["data"]), TOP, ["metrics", "score"]) == None
  {
    SampleFires(f);
    AliasedShows(f, ["metrics"], ["data"]);
    var g := Set(f, ["metrics"], Obj(DATA));
    GetTwo(g, "metrics", "score");
    assert "raw"[0] != "score"[0];
    assert Look(Aliased(f, ["metrics"], ["data"]), TOP, ["metrics", "score"]) == Sight(Obj(g), ["metrics", "score"]);
  }

  /** An alias and a transform: `metrics` from `data`, then `metrics.score` computed from `data.raw` by the
      expression `value`, leaves `data.score` at the result. */
  lemma TransformLeaks<N>(nums: Numbers<N>)
    requires nums.ar.isFinite(nums.number(Num(5.0)))
    ensures var rule := Rule("metrics.score", Some("data.raw"), [],
                             TransformExpression.Printed(TransformGrammar.Var("value")));
            var w := Rewritten(nums, Mapping([], [METRICS], [], [rule], false), PAYLOAD);
            var x := Num(nums.toReal(nums.number(Num(5.0))));
            Get(Obj(PAYLOAD), ["data", "score"]) == None && Look(w.heap, TOP, ["data", "score"]) == Some(Leaf(x)) &&
            w.errors == []
  {
    var rule := Rule("metrics.score", Some("data.raw"), [], TransformExpression.Printed(TransformGrammar.Var("value")));
    assert "metrics"[0] == 'm' && "data"[0] == 'd';
    SampleFires(PAYLOAD);
    FirstAliasRuns(PAYLOAD);
    var w1 := AfterAliases(Parsed(PAYLOAD), [METRICS]);
    RuleRuns(nums, w1, rule);
    OneRule(nums, w1, rule);
    SampleLeaks(PAYLOAD, Num(nums.toReal(nums.number(Num(5.0)))));
  }

  lemma OneRule<N>(nums: Numbers<N>, w: Work, rule: Rule)
    ensures AfterRules(nums, false, w, [rule]) == AfterRule(nums, false, w, rule)
  {
    assert [rule][..0] == [];
    assert AfterRules(nums, false, w, []) == w;
  }

  lemma RawIsRead(w: Work)
    requires Sample(PAYLOAD) && Fires(PAYLOAD, ["metrics"], ["data"])
    requires w == Work(Aliased(PAYLOAD, ["metrics"], ["data"]), [], Series(PAYLOAD, ["metrics"], ["data"]))
    ensures Walk(w.heap, TOP, ["data", "raw"]) == Some(Plain(Num(5.0)))
  {
    SampleFires(PAYLOAD);
    assert ["metrics"][0][0] == 'm' && ["data", "raw"][0][0] == 'd';
    AliasedKeepsOthers(PAYLOAD, ["metrics"], ["data"], ["data", "raw"]);
    assert Look(w.heap, TOP, ["data", "raw"]) == Some(Leaf(Num(5.0)));
  }

  lemma BindsRaw<N>(nums: Numbers<N>, w: Work)
    requires nums.ar.isFinite(nums.number(Num(5.0))) && Walk(w.heap, TOP, ["data", "raw"]) == Some(Plain(Num(5.0)))
    ensures Bind(nums, w, [("value", "data.raw")], map[]) == Bound(map["value" := nums.number(Num(5.0))])
  {
    DottedWords();
    TrimmedRaw();
    var sources := [("value", "data.raw")];
    assert sources[1..] == [];
  }

  lemma RuleWritesRaw<N>(nums: Numbers<N>, w: Work, rule: Rule)
    requires nums.ar.isFinite(nums.number(Num(5.0))) && Walk(w.heap, TOP, ["data", "raw"]) == Some(Plain(Num(5.0)))
    requires rule == Rule("metrics.score", Some("data.raw"), [],
                          TransformExpression.Printed(TransformGrammar.Var("value")))
    ensures AfterRule(nums, false, w, rule) ==
            PutAt(w, "metrics.score", Plain(Num(nums.toReal(nums.number(Num(5.0))))), [])
  {
    BindsRaw(nums, w);
    TrimmedRaw();
    assert SourcesOf(rule) == [("value", "data.raw")];
    ValueEvaluates(nums, map["value" := nums.number(Num(5.0))]);
  }

  lemma RuleRuns<N>(nums: Numbers<N>, w: Work, rule: Rule)
    requires nums.ar.isFinite(nums.number(Num(5.0))) && Sample(PAYLOAD) && Fires(PAYLOAD, ["metrics"], ["data"])
    requires rule == Rule("metrics.score", Some("data.raw"), [],
                          TransformExpression.Printed(TransformGrammar.Var("value")))
    requires w == Work(Aliased(PAYLOAD, ["metrics"], ["data"]), [], Series(PAYLOAD, ["metrics"], ["data"]))
    ensures var after := AfterRule(nums, false, w, rule);
            after.errors == [] && after.heap ==
            ThenWritten(PAYLOAD, ["metrics"], ["data"], ["metrics", "score"], Num(nums.toReal(nums.number(Num(5.0)))))
  {
    RawIsRead(w);
    RuleWritesRaw(nums, w, rule);
    DottedWords();
  }

  lemma TrimmedRaw()
    ensures T.Trim("data.raw") != ""
  {
    assert T.TrimStart("data.raw") == "data.raw";
    assert T.TrimEnd("data.raw") == "data.raw";
  }

  lemma ValueEvaluates<N>(nums: Numbers<N>, env: map<string, N>)
    requires "value" in env && nums.ar.isFinite(env["value"])
    ensures TransformExpression.Evaluated(nums.ar, TransformExpression.Printed(TransformGrammar.Var("value")), env)
            == TransformGrammar.Ok(env["value"])
  {
    assert TransformExpression.Writable(TransformGrammar.Var("value"));
    TransformExpression.PrintedEvaluates(nums.ar, env, TransformGrammar.Var("value"));
  }

  /** `{"data.copy": ["data"]}`: the object is put into itself. What `data.copy` shows is not what `data` was, and
      the payload cannot be written out for the log. */
  lemma AliasCycles()
    ensures var w := AfterAliases(Parsed(PAYLOAD), [Alias("data.copy", ["data"])]);
            w.errors == [] && Text(w.heap, TOP, {}) == None &&
            Look(w.heap, TOP, ["data", "copy", "copy"]) == Some(Object) && Get(Obj(PAYLOAD), ["data", "copy"]) == None
  {
    Words();
    GetOne(PAYLOAD, "data");
    GetTwo(PAYLOAD, "data", "copy");
    assert "raw"[0] != "copy"[0];
    OneAliasRuns(PAYLOAD, "data.copy", "data");
    OneAliasList(PAYLOAD, Alias("data.copy", ["data"]));
    var c, d := ["data", "copy"], ["data"];
    assert d == c[..1] && c[|d|..] == ["copy"];
    TextAfterAliasExactly(PAYLOAD, c, d);
    AliasedCycle(PAYLOAD, c, d);
    var h := Aliased(PAYLOAD, c, d);
    assert ["data", "copy", "copy"] == c + ["copy"];
    WalkConcat(h, TOP, c, ["copy"]);
  }
}
