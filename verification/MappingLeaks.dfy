/** The exact conditions under which one alias shares an object without harm, and payloads for which it does not. */
module MappingLeaks {
  import opened Json
  import opened SharedObjects
  import opened SharedText
  import opened Sharing

  /** An alias fires on a payload as parsed: nothing at the canonical path, something at the candidate. */
  predicate Fires(f: Fields, c: Path, d: Path) {
    c != [] && !Present(Get(Obj(f), c)) && Present(Get(Obj(f), d))
  }

  function FoundAt(f: Fields, d: Path): Slot
    requires Get(Obj(f), d).Some?
  {
    var o := Get(Obj(f), d).value;
    if o.Obj? then Ref(Loc(d, 0)) else Plain(o)
  }

  function Series(f: Fields, c: Path, d: Path): seq<Entry>
    requires Get(Obj(f), d).Some?
  {
    [Entry(c, if Get(Obj(f), d).value.Obj? then Some(d) else None)]
  }

  /** The payload after the alias. */
  function Aliased(f: Fields, c: Path, d: Path): Heap
    requires Get(Obj(f), d).Some?
  {
    Put(Load(f), [], c, FoundAt(f, d))
  }

  lemma FoundWalk(f: Fields, d: Path)
    requires Get(Obj(f), d).Some?
    ensures Walk(Load(f), Ref(ROOT), d) == Some(FoundAt(f, d))
    ensures FoundAt(f, d).Ref? <==> Get(Obj(f), d).value.Obj?
  {
    LoadWalk(f, [], d);
    assert [] + d == d;
  }

  /** What fires has its two paths incomparable, unless the candidate lies above. */
  lemma FiringPaths(f: Fields, c: Path, d: Path)
    requires Fires(f, c, d) && !(d < c)
    ensures !Comparable(c, d)
  {
    if c <= d {
      assert d == c + d[|c|..];
      GetConcat(Obj(f), c, d[|c|..]);
    }
  }

  lemma AliasedKept(f: Fields, c: Path, d: Path)
    requires Fires(f, c, d)
    ensures Kept(Aliased(f, c, d), Series(f, c, d)) && Rooted(Aliased(f, c, d), Series(f, c, d))
  {
    var e := Series(f, c, d)[0];
    LoadKept(f);
    FoundWalk(f, d);
    assert MayWrite(Load(f), e, FoundAt(f, d));
    PutKept(Load(f), [], e, FoundAt(f, d));
    PutRooted(Load(f), [], e, FoundAt(f, d));
    assert [] + [e] == Series(f, c, d);
  }

  /** Unless the candidate lies above, the graph after the alias reads like a payload with a copy put in. */
  lemma AliasedShows(f: Fields, c: Path, d: Path)
    requires Fires(f, c, d) && !(Get(Obj(f), d).value.Obj? && d < c)
    ensures Shows(Aliased(f, c, d), Ref(ROOT), Obj(Set(f, c, Get(Obj(f), d).value)))
  {
    var e := Series(f, c, d)[0];
    LoadKept(f);
    LoadShows(f);
    FoundWalk(f, d);
    PutShows(Load(f), [], e, FoundAt(f, d), f);
    assert CopyOf(f, e, FoundAt(f, d)) == Get(Obj(f), d).value;
  }

  lemma LoadIsAlone(f: Fields, c: Path)
    requires c != []
    ensures Sane(Load(f)) && ROOT in Load(f) && FreshBelow(Load(f), [], 1) && Alone(Load(f), ROOT, c)
  {
    LoadKept(f);
    CarefulIsAlone(Load(f), [], c);
  }

  /** A write leaves the walk to an object above its path as it was. */
  lemma AboveIsKept(h: Heap, c: Path, d: Path, s: Slot)
    requires Sane(h) && ROOT in h && FreshBelow(h, [], 1) && Alone(h, ROOT, c) && d < c
    requires s.Ref? && Walk(h, Ref(ROOT), d) == Some(s)
    ensures Walk(Write(h, ROOT, [], c, s, 1), Ref(ROOT), d) == Some(s)
  {
    ReachesObjects(h, ROOT, d, c);
    WriteFrame(h, ROOT, [], c, s, 1);
    var changed := Changed(h, ROOT, c);
    forall z | z < d ensures Walk(h, Ref(ROOT), z) != Some(Ref(changed)) {
      assert |c[..Reached(h, ROOT, c)]| > |z|;
    }
    WalkFrame(h, Write(h, ROOT, [], c, s, 1), changed, Ref(ROOT), d);
  }

  lemma WrittenBelowItself(h: Heap, c: Path, d: Path, s: Slot)
    requires Sane(h) && ROOT in h && FreshBelow(h, [], 1) && Alone(h, ROOT, c) && d < c
    requires s.Ref? && Walk(h, Ref(ROOT), d) == Some(s)
    ensures var h' := Write(h, ROOT, [], c, s, 1);
            Walk(h', Ref(ROOT), d) == Some(s) && Walk(h', Ref(ROOT), c) == Some(s) && Walk(h', s, c[|d|..]) == Some(s)
  {
    var h' := Write(h, ROOT, [], c, s, 1);
    WriteThenWalk(h, ROOT, [], c, s, 1, c);
    assert c[|c|..] == [];
    AboveIsKept(h, c, d, s);
    assert c == d + c[|d|..];
    WalkConcat(h', Ref(ROOT), d, c[|d|..]);
  }

  /** An object put below itself leads back to itself. */
  lemma AliasedCycle(f: Fields, c: Path, d: Path)
    requires Fires(f, c, d) && Get(Obj(f), d).value.Obj? && d < c
    ensures var h, s := Aliased(f, c, d), FoundAt(f, d);
            Walk(h, Ref(ROOT), d) == Some(s) && Walk(h, Ref(ROOT), c) == Some(s) && Walk(h, s, c[|d|..]) == Some(s)
  {
    LoadIsAlone(f, c);
    FoundWalk(f, d);
    WrittenBelowItself(Load(f), c, d, FoundAt(f, d));
  }

  /** The alias fills its canonical path with the value the candidate had, if and only if that value is no object
      above the canonical path. */
  lemma AliasFillsExactly(f: Fields, c: Path, d: Path)
    requires Fires(f, c, d)
    ensures (forall y :: Look(Aliased(f, c, d), Ref(ROOT), c + y) == Sight(Obj(f), d + y))
            <==> !(Get(Obj(f), d).value.Obj? && d < c)
  {
    var o := Get(Obj(f), d).value;
    var h := Aliased(f, c, d);
    if o.Obj? && d < c {
      AliasedCycle(f, c, d);
      var z := c[|d|..];
      WalkConcat(h, Ref(ROOT), c, z);
      assert d + z == c;
      assert Look(h, Ref(ROOT), c + z) == Some(Object) && Sight(Obj(f), d + z) != Some(Object);
    } else {
      AliasedShows(f, c, d);
      forall y ensures Look(h, Ref(ROOT), c + y) == Sight(Obj(f), d + y) {
        GetSetBelow(f, c, o, y);
        GetConcat(Obj(f), d, y);
        assert Look(h, Ref(ROOT), c + y) == Sight(Obj(Set(f, c, o)), c + y);
      }
    }
  }

  /** The payload can be written out as text, and so logged, under the same condition. */
  lemma TextAfterAliasExactly(f: Fields, c: Path, d: Path)
    requires Fires(f, c, d)
    ensures Text(Aliased(f, c, d), Ref(ROOT), {}).Some? <==> !(Get(Obj(f), d).value.Obj? && d < c)
  {
    AliasedKept(f, c, d);
    if Get(Obj(f), d).value.Obj? && d < c {
      AliasedCycle(f, c, d);
      CycleHasNoText(Aliased(f, c, d), ROOT, d, FoundAt(f, d), c[|d|..]);
    } else {
      AliasedShows(f, c, d);
      TextExactly(Aliased(f, c, d), ROOT, Obj(Set(f, c, Get(Obj(f), d).value)));
    }
  }

  // ----- Whether an alias only adds -----

  /** A value that is neither null nor an object stands above the path. */
  ghost predicate Blocked(f: Fields, p: Path) {
    exists q :: q < p && Present(Get(Obj(f), q)) && !Get(Obj(f), q).value.Obj?
  }

  /** Whatever the payload holds that is neither null nor an object is still there. */
  ghost predicate OnlyAdds(f: Fields, h: Heap) {
    forall q :: Present(Get(Obj(f), q)) && !Get(Obj(f), q).value.Obj? ==> Look(h, Ref(ROOT), q) == Sight(Obj(f), q)
  }

  /** Filling a canonical path that was undefined or null only adds to the payload, unless a value that is no object
      stands above the path: then that value is lost. */
  lemma AliasOnlyAdds(f: Fields, c: Path, d: Path)
    requires Fires(f, c, d)
    ensures OnlyAdds(f, Aliased(f, c, d)) <==> !Blocked(f, c)
  {
    var h := Aliased(f, c, d);
    if Blocked(f, c) {
      var q :| q < c && Present(Get(Obj(f), q)) && !Get(Obj(f), q).value.Obj?;
      LoadIsAlone(f, c);
      WriteThenWalk(Load(f), ROOT, [], c, FoundAt(f, d), 1, q);
      assert Look(h, Ref(ROOT), q) == Some(Object);
    } else {
      forall q | Present(Get(Obj(f), q)) && !Get(Obj(f), q).value.Obj?
        ensures Look(h, Ref(ROOT), q) == Sight(Obj(f), q)
      {
        NotBelowNothing(f, c, q);
        AliasedKeepsOthers(f, c, d, q);
      }
    }
  }

  /** Nothing is present at or below a path where nothing is. */
  lemma NotBelowNothing(f: Fields, c: Path, q: Path)
    requires !Present(Get(Obj(f), c)) && Present(Get(Obj(f), q))
    ensures !(c <= q)
  {
    if c <= q {
      assert q == c + q[|c|..];
      GetConcat(Obj(f), c, q[|c|..]);
    }
  }

  // ----- A write after the alias -----

  /** The payload after a plain value has been written as well. */
  function ThenWritten(f: Fields, c: Path, d: Path, t: Path, x: Json): Heap
    requires Get(Obj(f), d).Some?
  {
    Put(Aliased(f, c, d), Series(f, c, d), t, Plain(x))
  }

  /** Every path incomparable with the two written ones shows what it showed. */
  ghost predicate OthersKept(f: Fields, c: Path, d: Path, t: Path, x: Json)
    requires Get(Obj(f), d).Some?
  {
    forall q :: !Comparable(c, q) && !Comparable(t, q) ==>
      Look(ThenWritten(f, c, d, t, x), Ref(ROOT), q) == Sight(Obj(f), q)
  }

  /** The write goes into the shared object and changes it. */
  predicate Leaks(f: Fields, c: Path, d: Path, t: Path, x: Json)
    requires Get(Obj(f), d).Some?
  {
    Get(Obj(f), d).value.Obj? && c < t && Get(Get(Obj(f), d).value, t[|c|..]) != Some(x)
  }

  lemma AliasedKeepsOthers(f: Fields, c: Path, d: Path, q: Path)
    requires Fires(f, c, d) && !Comparable(c, q)
    ensures Walk(Aliased(f, c, d), Ref(ROOT), q) == Walk(Load(f), Ref(ROOT), q)
    ensures Look(Aliased(f, c, d), Ref(ROOT), q) == Sight(Obj(f), q)
  {
    LoadKept(f);
    LoadShows(f);
    PutKeeps(Load(f), [], Series(f, c, d)[0], FoundAt(f, d), q);
    assert Look(Load(f), Ref(ROOT), q) == Sight(Obj(f), q);
  }

  /** A write of what is there already changes nothing. */
  lemma SameValueKeeps(f: Fields, c: Path, d: Path, t: Path, x: Json)
    requires Fires(f, c, d) && !(d < c) && !x.Obj? && Get(Obj(f), d).value.Obj? && c < t
    requires Get(Get(Obj(f), d).value, t[|c|..]) == Some(x)
    ensures ThenWritten(f, c, d, t, x) == Aliased(f, c, d)
  {
    var h, g := Aliased(f, c, d), Set(f, c, Get(Obj(f), d).value);
    AliasedShows(f, c, d);
    var y := t[|c|..];
    assert t == c + y;
    GetSetBelow(f, c, Get(Obj(f), d).value, y);
    assert Look(h, Ref(ROOT), t) == Sight(Obj(g), t);
    WriteSame(h, ROOT, [], t, Plain(x), 2);
  }

  /** A write that stays out of the shared object keeps every path apart from both. */
  lemma OutsideKeeps(f: Fields, c: Path, d: Path, t: Path, x: Json, q: Path)
    requires Fires(f, c, d) && t != [] && !(Get(Obj(f), d).value.Obj? && c < t) && !Comparable(c, q) &&
             !Comparable(t, q)
    ensures Walk(ThenWritten(f, c, d, t, x), Ref(ROOT), q) == Walk(Aliased(f, c, d), Ref(ROOT), q)
  {
    AliasedKept(f, c, d);
    PutKeeps(Aliased(f, c, d), Series(f, c, d), Entry(t, None), Plain(x), q);
  }

  lemma NoLeakKeeps(f: Fields, c: Path, d: Path, t: Path, x: Json)
    requires Fires(f, c, d) && !(d < c) && t != [] && !x.Obj? && !Leaks(f, c, d, t, x)
    ensures OthersKept(f, c, d, t, x)
  {
    forall q | !Comparable(c, q) && !Comparable(t, q)
      ensures Look(ThenWritten(f, c, d, t, x), Ref(ROOT), q) == Sight(Obj(f), q)
    {
      AliasedKeepsOthers(f, c, d, q);
      if Get(Obj(f), d).value.Obj? && c < t {
        SameValueKeeps(f, c, d, t, x);
      } else {
        OutsideKeeps(f, c, d, t, x, q);
      }
    }
  }

  /** Below the shared object every path leads to an object of its own. */
  lemma AloneInShared(f: Fields, c: Path, d: Path, y: Path)
    requires Fires(f, c, d) && !(d < c) && Get(Obj(f), d).value.Obj? && y != []
    ensures Alone(Aliased(f, c, d), Loc(d, 0), y) && d <= Changed(Aliased(f, c, d), Loc(d, 0), y).path
  {
    var h, ws, m := Aliased(f, c, d), Series(f, c, d), Loc(d, 0);
    AliasedKept(f, c, d);
    FiringPaths(f, c, d);
    var changed := Changed(h, m, y);
    var n := Reached(h, m, y);
    ReachedChanged(h, m, y);
    forall q | Walk(h, Ref(m), q) == Some(Ref(changed)) ensures changed.path == d + q {
      NothingSharedBelow(f, c, d, q);
      CleanWalk(h, ws, m, q);
    }
    assert changed.path == d + y[..n];
    forall q | Walk(h, Ref(m), q) == Some(Ref(changed)) ensures q == y[..n] {
      assert (d + q)[|d|..] == q && (d + y[..n])[|d|..] == y[..n];
    }
  }

  lemma NothingSharedBelow(f: Fields, c: Path, d: Path, q: Path)
    requires Get(Obj(f), d).Some? && !Comparable(c, d)
    ensures Unshared(Series(f, c, d), d, q)
  {
    forall e | e <= d + q && |e| > |d| ensures e != c {
      assert d == (d + q)[..|d|] == e[..|d|];
    }
  }

  /** The walk to the candidate still leads to the shared object after a write into it. */
  lemma CandidateStays(f: Fields, c: Path, d: Path, y: Path, x: Json)
    requires Fires(f, c, d) && !(d < c) && Get(Obj(f), d).value.Obj? && y != []
    ensures Walk(Write(Aliased(f, c, d), Loc(d, 0), c, y, Plain(x), 2), Ref(ROOT), d) == Some(Ref(Loc(d, 0)))
  {
    var h, ws, m := Aliased(f, c, d), Series(f, c, d), Loc(d, 0);
    AliasedKept(f, c, d);
    FiringPaths(f, c, d);
    FoundWalk(f, d);
    AliasedKeepsOthers(f, c, d, d);
    AloneInShared(f, c, d, y);
    SharedIsThere(f, c, d);
    WriteFrame(h, m, c, y, Plain(x), 2);
    var changed := Changed(h, m, y);
    forall z | z < d ensures Walk(h, Ref(ROOT), z) != Some(Ref(changed)) {
      ShorterIsElsewhere(f, c, d, z);
    }
    WalkFrame(h, Write(h, m, c, y, Plain(x), 2), changed, Ref(ROOT), d);
  }

  /** On the way to the candidate every object stands on its own path. */
  lemma ShorterIsElsewhere(f: Fields, c: Path, d: Path, z: Path)
    requires Fires(f, c, d) && !Comparable(c, d) && z < d
    ensures forall l :: Walk(Aliased(f, c, d), Ref(ROOT), z) == Some(Ref(l)) ==> l.path == z
  {
    var ws := Series(f, c, d);
    AliasedKept(f, c, d);
    assert ROOT.path + z == z;
    assert !(c <= z);
    assert Unshared(ws, ROOT.path, z);
    CleanWalk(Aliased(f, c, d), ws, ROOT, z);
  }

  lemma SharedIsThere(f: Fields, c: Path, d: Path)
    requires Fires(f, c, d) && Get(Obj(f), d).value.Obj?
    ensures Loc(d, 0) in Aliased(f, c, d)
  {
    LoadAt(f, d);
    LoadIsAlone(f, c);
    WriteFrame(Load(f), ROOT, [], c, FoundAt(f, d), 1);
  }

  /** A write strictly below the canonical path shows below the candidate, too. */
  lemma LeakShows(f: Fields, c: Path, d: Path, y: Path, x: Json)
    requires Fires(f, c, d) && !(d < c) && Get(Obj(f), d).value.Obj? && y != [] && !x.Obj?
    ensures Look(ThenWritten(f, c, d, c + y, x), Ref(ROOT), d + y) == Some(Leaf(x))
  {
    var h, m := Aliased(f, c, d), Loc(d, 0);
    AliasedKept(f, c, d);
    FoundWalk(f, d);
    LoadIsAlone(f, c);
    WriteThenWalk(Load(f), ROOT, [], c, FoundAt(f, d), 1, c);
    assert Walk(h, Ref(ROOT), c) == Some(Ref(m));
    WriteThrough(h, ROOT, [], c, y, Plain(x), 2, m);
    assert [] + c == c;
    AloneInShared(f, c, d, y);
    SharedIsThere(f, c, d);
    WriteThenWalk(h, m, c, y, Plain(x), 2, y);
    CandidateStays(f, c, d, y, x);
    WalkConcat(Write(h, m, c, y, Plain(x), 2), Ref(ROOT), d, y);
  }

  /** After an alias and a plain write all incomparable paths keep their values, if and only if the write does not
      go below the canonical path into an object that it changes. */
  lemma OthersKeptExactly(f: Fields, c: Path, d: Path, t: Path, x: Json)
    requires Fires(f, c, d) && !(d < c) && t != [] && !x.Obj?
    ensures OthersKept(f, c, d, t, x) <==> !Leaks(f, c, d, t, x)
  {
    if Leaks(f, c, d, t, x) {
      var y := t[|c|..];
      assert t == c + y;
      FiringPaths(f, c, d);
      LeakShows(f, c, d, y, x);
      GetConcat(Obj(f), d, y);
      LeakPath(c, d, y);
      assert Look(ThenWritten(f, c, d, t, x), Ref(ROOT), d + y) != Sight(Obj(f), d + y);
    } else {
      NoLeakKeeps(f, c, d, t, x);
    }
  }

  lemma LeakPath(c: Path, d: Path, y: Path)
    requires !Comparable(c, d)
    ensures !Comparable(c, d + y) && !Comparable(c + y, d + y)
  {
    var i := Apart(c, d);
    assert (d + y)[i] == d[i] && (c + y)[i] == c[i];
  }

  lemma {:induction false} Apart(c: Path, d: Path) returns (i: nat)
    requires !Comparable(c, d)
    ensures i < |c| && i < |d| && c[i] != d[i]
    decreases |c|
  {
    if c[0] != d[0] {
      i := 0;
    } else {
      assert c == [c[0]] + c[1..] && d == [d[0]] + d[1..];
      i := Apart(c[1..], d[1..]);
      i := i + 1;
    }
  }

  // ----- A plain write into any graph that reads like a value -----

  lemma {:induction false} ChangedStays(h: Heap, l: Loc, p: Path)
    requires p != []
    ensures Changed(h, Changed(h, l, p), p[Reached(h, l, p)..]) == Changed(h, l, p)
    ensures Reached(h, Changed(h, l, p), p[Reached(h, l, p)..]) == 0
    decreases |p|
  {
    if |p| > 1 && l in h && p[0] in h[l] && h[l][p[0]].Ref? {
      var c := h[l][p[0]].loc;
      ChangedStays(h, c, p[1..]);
      assert p[1..][Reached(h, c, p[1..])..] == p[Reached(h, l, p)..];
    } else {
      assert p[0..] == p;
    }
  }

  /** In a graph that shows a value no object leads back to itself. */
  lemma NoCycle(h: Heap, f: Fields, q: Path, s: Slot, w: Path)
    requires Shows(h, Ref(ROOT), Obj(f)) && Walk(h, Ref(ROOT), q) == Some(s) && w != []
    ensures Walk(h, s, w) != Some(s)
  {
    ShowsBelow(h, Ref(ROOT), Obj(f), q);
    if Walk(h, s, w) == Some(s) {
      CycleShowsNothing(h, s, w, Get(Obj(f), q).value);
    }
  }

  /** Through every path that leads to the changed object the written value shows. */
  lemma WrittenShowsThrough(h: Heap, f: Fields, t: Path, x: Json, time: nat, q: Path)
    requires Sane(h) && ROOT in h && FreshBelow(h, [], time) && Shows(h, Ref(ROOT), Obj(f)) && t != [] && !x.Obj?
    requires Walk(h, Ref(ROOT), q) == Some(Ref(Changed(h, ROOT, t)))
    ensures Look(Write(h, ROOT, [], t, Plain(x), time), Ref(ROOT), q + t[Reached(h, ROOT, t)..]) == Some(Leaf(x))
  {
    var l, n := Changed(h, ROOT, t), Reached(h, ROOT, t);
    var m, y := t[..n], t[n..];
    var h' := Write(h, ROOT, [], t, Plain(x), time);
    ReachedChanged(h, ROOT, t);
    WriteFrame(h, ROOT, [], t, Plain(x), time);
    forall z | z < q ensures Walk(h, Ref(ROOT), z) != Some(Ref(l)) {
      NotOnTheWay(h, f, q, z, l);
    }
    WalkFrame(h, h', l, Ref(ROOT), q);
    assert t == m + y && [] + m == m;
    WriteThrough(h, ROOT, [], m, y, Plain(x), time, l);
    ChangedStays(h, ROOT, t);
    assert Alone(h, l, y) by {
      forall z | Walk(h, Ref(l), z) == Some(Ref(l)) ensures z == [] {
        if z != [] {
          NoCycle(h, f, q, Ref(l), z);
        }
      }
    }
    FreshLower(h, m, time);
    WriteThenWalk(h, l, m, y, Plain(x), time, y);
    WalkConcat(h', Ref(ROOT), q, y);
  }

  lemma FreshLower(h: Heap, at: Path, time: nat)
    requires FreshBelow(h, [], time)
    ensures FreshBelow(h, at, time)
  {
  }

  lemma NotOnTheWay(h: Heap, f: Fields, q: Path, z: Path, l: Loc)
    requires Shows(h, Ref(ROOT), Obj(f)) && Walk(h, Ref(ROOT), q) == Some(Ref(l)) && z < q
    ensures Walk(h, Ref(ROOT), z) != Some(Ref(l))
  {
    if Walk(h, Ref(ROOT), z) == Some(Ref(l)) {
      var w := q[|z|..];
      assert q == z + w;
      WalkConcat(h, Ref(ROOT), z, w);
      NoCycle(h, f, z, Ref(l), w);
    }
  }

  /** Two paths to one object read the same value. */
  lemma SameBelow(h: Heap, f: Fields, p: Path, q: Path, y: Path)
    requires Shows(h, Ref(ROOT), Obj(f)) && Walk(h, Ref(ROOT), p).Some? &&
             Walk(h, Ref(ROOT), p) == Walk(h, Ref(ROOT), q)
    ensures Get(Obj(f), p + y) == Get(Obj(f), q + y)
  {
    ShowsBelow(h, Ref(ROOT), Obj(f), p);
    ShowsBelow(h, Ref(ROOT), Obj(f), q);
    var a, b := Get(Obj(f), p).value, Get(Obj(f), q).value;
    forall z ensures Sight(a, z) == Sight(b, z) {
      assert Look(h, Walk(h, Ref(ROOT), p).value, z) == Sight(a, z);
      assert Look(h, Walk(h, Ref(ROOT), q).value, z) == Sight(b, z);
    }
    SightsUnique(a, b);
    GetConcat(Obj(f), p, y);
    GetConcat(Obj(f), q, y);
  }

  lemma AloneShows(h: Heap, f: Fields, t: Path, x: Json, time: nat)
    requires Sane(h) && ROOT in h && FreshBelow(h, [], time) && Shows(h, Ref(ROOT), Obj(f)) && t != [] && !x.Obj?
    requires Alone(h, ROOT, t)
    ensures Shows(Write(h, ROOT, [], t, Plain(x), time), Ref(ROOT), Obj(Set(f, t, x)))
  {
    var h' := Write(h, ROOT, [], t, Plain(x), time);
    forall q ensures Look(h', Ref(ROOT), q) == Sight(Obj(Set(f, t, x)), q) {
      WriteThenWalk(h, ROOT, [], t, Plain(x), time, q);
      if t <= q {
        assert q == t + q[|t|..];
        GetSetBelow(f, t, x, q[|t|..]);
        PlainLook(h', x, q[|t|..]);
      } else if q < t {
        GetSetAbove(f, t, x, q);
      } else {
        GetSetElsewhere(f, t, x, q);
        assert Look(h, Ref(ROOT), q) == Sight(Obj(f), q);
      }
    }
  }

  lemma SameFront(q: Path, m: Path, y: Path)
    ensures q + y == m + y ==> q == m
  {
    if q + y == m + y {
      assert |q| == |m|;
      assert (q + y)[..|q|] == q && (m + y)[..|m|] == m;
    }
  }

  /** Through a second path a change shows where a copy would not have it. */
  lemma SecondPathTells(h: Heap, f: Fields, t: Path, x: Json, time: nat, q: Path)
    requires Sane(h) && ROOT in h && FreshBelow(h, [], time) && Shows(h, Ref(ROOT), Obj(f)) && t != [] && !x.Obj?
    requires Walk(h, Ref(ROOT), q) == Some(Ref(Changed(h, ROOT, t))) && q != t[..Reached(h, ROOT, t)] &&
             Get(Obj(f), t) != Some(x)
    ensures !Shows(Write(h, ROOT, [], t, Plain(x), time), Ref(ROOT), Obj(Set(f, t, x)))
  {
    var n := Reached(h, ROOT, t);
    var m, y := t[..n], t[n..];
    var r := q + y;
    assert t == m + y;
    ReachedChanged(h, ROOT, t);
    WrittenShowsThrough(h, f, t, x, time, q);
    SameBelow(h, f, q, m, y);
    SameFront(q, m, y);
    if t <= r {
      assert r == t + r[|t|..];
      GetSetBelow(f, t, x, r[|t|..]);
    } else if r < t {
      GetSetAbove(f, t, x, r);
    } else {
      GetSetElsewhere(f, t, x, r);
    }
    assert Look(Write(h, ROOT, [], t, Plain(x), time), Ref(ROOT), r) != Sight(Obj(Set(f, t, x)), r);
  }

  /** A plain write into a graph that reads like `f` gives one that reads like the copy written, if and only if no
      other path leads to the object it goes into, or the value was there already. */
  lemma WriteShowsExactly(h: Heap, f: Fields, t: Path, x: Json, time: nat)
    requires Sane(h) && ROOT in h && FreshBelow(h, [], time) && Shows(h, Ref(ROOT), Obj(f)) && t != [] && !x.Obj?
    ensures Shows(Write(h, ROOT, [], t, Plain(x), time), Ref(ROOT), Obj(Set(f, t, x)))
            <==> Alone(h, ROOT, t) || Get(Obj(f), t) == Some(x)
  {
    if Alone(h, ROOT, t) {
      AloneShows(h, f, t, x, time);
    } else if Get(Obj(f), t) == Some(x) {
      assert Look(h, Ref(ROOT), t) == Sight(Obj(f), t);
      WriteSame(h, ROOT, [], t, Plain(x), time);
      SetSame(f, t, x);
    } else {
      var q :| Walk(h, Ref(ROOT), q) == Some(Ref(Changed(h, ROOT, t))) && q != t[..Reached(h, ROOT, t)];
      SecondPathTells(h, f, t, x, time, q);
    }
  }
}
