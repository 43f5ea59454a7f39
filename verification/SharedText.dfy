/** Writing objects out as JSON text: possible exactly when they unfold to a finite value. */
module SharedText {
  import opened Json
  import opened SharedObjects

  /** `JSON.stringify`, up to spelling: it fails on an object it is in the middle of writing. */
  function Text(h: Heap, s: Slot, stack: set<Loc>): Option<Json>
    decreases h.Keys - stack, s
  {
    match s
    case Plain(j) => Some(j)
    case Ref(l) =>
      if l !in h || l in stack then None
      else
        assert h.Keys - (stack + {l}) < h.Keys - stack by {
          assert l in h.Keys - stack;
        }
        if forall k | k in h[l] :: Text(h, h[l][k], stack + {l}).Some?
        then Some(Obj(map k | k in h[l] :: Text(h, h[l][k], stack + {l}).value))
        else None
  }

  lemma {:induction false} TextLooks(h: Heap, s: Slot, stack: set<Loc>, p: Path)
    requires Sane(h) && (s.Plain? ==> !s.j.Obj?) && Text(h, s, stack).Some?
    ensures Look(h, s, p) == Sight(Text(h, s, stack).value, p)
    decreases |p|
  {
    if p != [] {
      if s.Ref? && p[0] in h[s.loc] {
        TextLooks(h, h[s.loc][p[0]], stack + {s.loc}, p[1..]);
      } else {
        assert Member(h, s, p[0]) == None;
      }
    }
  }

  lemma {:induction false} SightsUnique(a: Json, b: Json)
    requires forall p :: Sight(a, p) == Sight(b, p)
    ensures a == b
    decreases a
  {
    assert Sight(a, []) == Sight(b, []);
    if a.Obj? {
      forall k ensures At(a.fields, k) == At(b.fields, k) {
        assert Sight(a, [k]) == Sight(b, [k]);
        GetOne(a.fields, k);
        GetOne(b.fields, k);
        if k in a.fields && k in b.fields {
          forall p ensures Sight(a.fields[k], p) == Sight(b.fields[k], p) {
            assert ([k] + p)[1..] == p;
            assert Sight(a, [k] + p) == Sight(b, [k] + p);
          }
          SightsUnique(a.fields[k], b.fields[k]);
        }
      }
      SameFields(a.fields, b.fields);
    }
  }

  /** A finite value does not lie below itself. */
  lemma {:induction false} NotBelowItself(j: Json, w: Path)
    requires w != []
    ensures Get(j, w) != Some(j)
    decreases j
  {
    if j.Obj? && w[0] in j.fields && Get(j, w) == Some(j) {
      var c := j.fields[w[0]];
      GetConcat(c, w[1..], [w[0]]);
      GetOne(j.fields, w[0]);
      NotBelowItself(c, w[1..] + [w[0]]);
    }
  }

  /** An object that leads back to itself shows no value. */
  lemma CycleShowsNothing(h: Heap, s: Slot, w: Path, j: Json)
    requires w != [] && Walk(h, s, w) == Some(s)
    ensures !Shows(h, s, j)
  {
    if Shows(h, s, j) {
      ShowsBelow(h, s, j, w);
      forall p ensures Sight(j, p) == Sight(Get(j, w).value, p) {
        assert Look(h, s, p) == Sight(j, p) && Look(h, s, p) == Sight(Get(j, w).value, p);
      }
      SightsUnique(j, Get(j, w).value);
      NotBelowItself(j, w);
    }
  }

  /** Every object being written leads to this slot. */
  ghost predicate Ancestors(h: Heap, s: Slot, stack: set<Loc>) {
    forall a | a in stack :: LeadsTo(h, a, s)
  }

  ghost predicate LeadsTo(h: Heap, a: Loc, s: Slot) {
    exists w: Path :: w != [] && Walk(h, Ref(a), w) == Some(s)
  }

  lemma AncestorsBelow(h: Heap, l: Loc, stack: set<Loc>, k: string)
    requires Ancestors(h, Ref(l), stack) && l in h && k in h[l]
    ensures Ancestors(h, h[l][k], stack + {l})
  {
    assert [k][1..] == [];
    assert Walk(h, Ref(l), [k]) == Some(h[l][k]);
    forall a | a in stack + {l} ensures LeadsTo(h, a, h[l][k]) {
      if a in stack {
        var w: Path :| w != [] && Walk(h, Ref(a), w) == Some(Ref(l));
        WalkConcat(h, Ref(a), w, [k]);
      }
    }
  }

  lemma MemberShows(h: Heap, l: Loc, j: Json, k: string)
    requires l in h && Shows(h, Ref(l), j) && j.Obj?
    ensures k in h[l] <==> k in j.fields
    ensures k in h[l] ==> Shows(h, h[l][k], j.fields[k])
  {
    assert [k][1..] == [];
    assert Look(h, Ref(l), [k]) == Sight(j, [k]);
    GetOne(j.fields, k);
    if k in h[l] {
      assert Walk(h, Ref(l), [k]) == Some(h[l][k]);
      ShowsBelow(h, Ref(l), j, [k]);
    }
  }

  /** What shows a value is written as that value. */
  lemma {:induction false} ShownIsText(h: Heap, s: Slot, stack: set<Loc>, j: Json)
    requires Sane(h) && (s.Plain? ==> !s.j.Obj?) && (s.Ref? ==> s.loc in h) && Shows(h, s, j) && Ancestors(h, s, stack)
    ensures Text(h, s, stack) == Some(j)
    decreases j
  {
    assert Look(h, s, []) == Sight(j, []);
    if s.Ref? {
      var l := s.loc;
      if l in stack {
        var w: Path :| w != [] && Walk(h, Ref(l), w) == Some(s);
        CycleShowsNothing(h, s, w, j);
      } else {
        forall k ensures At(j.fields, k) == if k in h[l] then Text(h, h[l][k], stack + {l}) else None {
          MemberShows(h, l, j, k);
          if k in h[l] {
            AncestorsBelow(h, l, stack, k);
            ShownIsText(h, h[l][k], stack + {l}, j.fields[k]);
          }
        }
        forall k | k in h[l] ensures Text(h, h[l][k], stack + {l}).Some? {
          assert At(j.fields, k) == Text(h, h[l][k], stack + {l});
          MemberShows(h, l, j, k);
        }
        SameFields(j.fields, Text(h, s, stack).value.fields);
      }
    }
  }

  /** The text exists exactly when there is a value to show, and is that value. */
  lemma TextExactly(h: Heap, l: Loc, j: Json)
    requires Sane(h) && l in h
    ensures Text(h, Ref(l), {}) == Some(j) <==> Shows(h, Ref(l), j)
  {
    if Text(h, Ref(l), {}) == Some(j) {
      forall p ensures Look(h, Ref(l), p) == Sight(j, p) {
        TextLooks(h, Ref(l), {}, p);
      }
    }
    if Shows(h, Ref(l), j) {
      ShownIsText(h, Ref(l), {}, j);
    }
  }

  /** Below an object that leads back to itself there is no text. */
  lemma CycleHasNoText(h: Heap, l: Loc, d: Path, s: Slot, w: Path)
    requires Sane(h) && l in h && Walk(h, Ref(l), d) == Some(s) && w != [] && Walk(h, s, w) == Some(s)
    ensures Text(h, Ref(l), {}) == None
  {
    if Text(h, Ref(l), {}).Some? {
      var j := Text(h, Ref(l), {}).value;
      TextExactly(h, l, j);
      ShowsBelow(h, Ref(l), j, d);
      CycleShowsNothing(h, s, w, Get(j, d).value);
    }
  }
}
