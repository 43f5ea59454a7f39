/** Objects held by reference: reading and writing by path where two paths may lead to one object. */
module SharedObjects {
  import opened Json

  /** An object's identity: the path it was made at, and when. */
  datatype Loc = Loc(path: Path, time: nat)

  /** What a member holds: a value that is no object, or a reference to one. */
  datatype Slot = Plain(j: Json) | Ref(loc: Loc)

  type Cell = map<string, Slot>

  type Heap = map<Loc, Cell>

  const ROOT: Loc := Loc([], 0)

  /** References lead to objects, and only references do. */
  ghost predicate Sane(h: Heap) {
    forall l, k | l in h && k in h[l] :: match h[l][k] case Ref(m) => m in h case Plain(j) => !j.Obj?
  }

  // ----- Reading -----

  function Member(h: Heap, s: Slot, k: string): Option<Slot> {
    if s.Ref? && s.loc in h && k in h[s.loc] then Some(h[s.loc][k]) else None
  }

  /** `getAtPath`: undefined as soon as the walk leaves the objects. */
  function Walk(h: Heap, s: Slot, p: Path): Option<Slot>
    decreases |p|
  {
    if p == [] then Some(s)
    else match Member(h, s, p[0]) case None => None case Some(t) => Walk(h, t, p[1..])
  }

  /** The walk with a cursor that the program runs. */
  method WalkAtPath(h: Heap, path: string) returns (cur: Option<Slot>)
    ensures cur == Walk(h, Ref(ROOT), Parts(path))
  {
    var parts := Parts(path);
    cur := Some(Ref(ROOT));
    var i := 0;
    while i < |parts|
      invariant 0 <= i <= |parts|
      invariant Walk(h, Ref(ROOT), parts) == if cur.None? then None else Walk(h, cur.value, parts[i..])
    {
      if cur.None? {
        return None;
      }
      assert parts[i..][1..] == parts[i + 1..];
      cur := Member(h, cur.value, parts[i]);
      i := i + 1;
    }
  }

  lemma {:induction false} WalkConcat(h: Heap, s: Slot, p: Path, q: Path)
    ensures Walk(h, s, p + q) == match Walk(h, s, p) case None => None case Some(t) => Walk(h, t, q)
    decreases |p|
  {
    if p == [] {
      assert p + q == q;
    } else {
      assert (p + q)[1..] == p[1..] + q;
      var t := Member(h, s, p[0]);
      if t.Some? {
        WalkConcat(h, t.value, p[1..], q);
      }
    }
  }

  lemma {:induction false} WalkSane(h: Heap, s: Slot, p: Path)
    requires Sane(h) && (s.Ref? ==> s.loc in h) && (s.Plain? ==> !s.j.Obj?)
    ensures Walk(h, s, p).Some? ==>
              var t := Walk(h, s, p).value; (t.Ref? ==> t.loc in h) && (t.Plain? ==> !t.j.Obj?)
    decreases |p|
  {
    if p != [] && Member(h, s, p[0]).Some? {
      WalkSane(h, Member(h, s, p[0]).value, p[1..]);
    }
  }

  // ----- What a read can tell -----

  /** A value, or that there is an object. */
  datatype Shape = Leaf(j: Json) | Object

  function ShapeOf(s: Slot): Shape {
    match s case Plain(j) => Leaf(j) case Ref(_) => Object
  }

  function Look(h: Heap, s: Slot, p: Path): Option<Shape> {
    match Walk(h, s, p) case None => None case Some(t) => Some(ShapeOf(t))
  }

  function Sight(j: Json, p: Path): Option<Shape> {
    match Get(j, p) case None => None case Some(v) => Some(if v.Obj? then Object else Leaf(v))
  }

  /** Read by path, the slot is that value. */
  ghost predicate Shows(h: Heap, s: Slot, j: Json) {
    forall p :: Look(h, s, p) == Sight(j, p)
  }

  lemma ShowsBelow(h: Heap, s: Slot, j: Json, p: Path)
    requires Shows(h, s, j) && Walk(h, s, p).Some?
    ensures Get(j, p).Some? && Shows(h, Walk(h, s, p).value, Get(j, p).value)
  {
    assert Look(h, s, p) == Sight(j, p);
    forall q ensures Look(h, Walk(h, s, p).value, q) == Sight(Get(j, p).value, q) {
      WalkConcat(h, s, p, q);
      GetConcat(j, p, q);
      assert Look(h, s, p + q) == Sight(j, p + q);
    }
  }

  // ----- A payload as parsed: every object its own -----

  function ObjectPaths(j: Json): set<Path> {
    if j.Obj? then {[]} + (set k, p | k in j.fields && p in ObjectPaths(j.fields[k]) :: [k] + p) else {}
  }

  lemma {:induction false} ObjectPathsHold(j: Json, p: Path)
    ensures p in ObjectPaths(j) <==> Get(j, p).Some? && Get(j, p).value.Obj?
    decreases j
  {
    if j.Obj? && p != [] {
      assert p == [p[0]] + p[1..];
      if p[0] in j.fields {
        ObjectPathsHold(j.fields[p[0]], p[1..]);
      }
      forall k, q | k in j.fields && q in ObjectPaths(j.fields[k]) && [k] + q == p ensures k == p[0] && q == p[1..] {
        assert ([k] + q)[1..] == q;
      }
    }
  }

  function CellAt(f: Fields, p: Path): Cell {
    map k | k in f :: if f[k].Obj? then Ref(Loc(p + [k], 0)) else Plain(f[k])
  }

  function FieldsAt(f: Fields, p: Path): Fields {
    if Get(Obj(f), p).Some? && Get(Obj(f), p).value.Obj? then Get(Obj(f), p).value.fields else map[]
  }

  /** The objects of a parsed value. */
  function Load(f: Fields): Heap {
    map l | l in (set p | p in ObjectPaths(Obj(f)) :: Loc(p, 0)) ::
      CellAt(FieldsAt(f, l.path), l.path)
  }

  lemma LoadAt(f: Fields, p: Path)
    ensures Loc(p, 0) in Load(f) <==> Get(Obj(f), p).Some? && Get(Obj(f), p).value.Obj?
    ensures Loc(p, 0) in Load(f) ==> Load(f)[Loc(p, 0)] == CellAt(Get(Obj(f), p).value.fields, p)
  {
    ObjectPathsHold(Obj(f), p);
  }

  lemma {:induction false} LoadWalk(f: Fields, a: Path, p: Path)
    requires Get(Obj(f), a).Some? && Get(Obj(f), a).value.Obj?
    ensures Walk(Load(f), Ref(Loc(a, 0)), p) ==
            match Get(Obj(f), a + p)
            case None => None
            case Some(v) => Some(if v.Obj? then Ref(Loc(a + p, 0)) else Plain(v))
    decreases |p|
  {
    LoadAt(f, a);
    GetConcat(Obj(f), a, p);
    if p == [] {
      assert a + p == a;
    } else {
      var v := Get(Obj(f), a).value;
      assert a + [p[0]] + p[1..] == a + p;
      GetConcat(Obj(f), a, [p[0]]);
      GetOne(v.fields, p[0]);
      if p[0] in v.fields && v.fields[p[0]].Obj? {
        LoadWalk(f, a + [p[0]], p[1..]);
      }
    }
  }

  lemma LoadShows(f: Fields)
    ensures Shows(Load(f), Ref(ROOT), Obj(f)) && ROOT in Load(f) && Sane(Load(f))
  {
    LoadAt(f, []);
    forall p ensures Look(Load(f), Ref(ROOT), p) == Sight(Obj(f), p) {
      LoadWalk(f, [], p);
      assert [] + p == p;
    }
    forall l, k | l in Load(f) && k in Load(f)[l] && Load(f)[l][k].Ref? ensures Load(f)[l][k].loc in Load(f) {
      assert l == Loc(l.path, 0);
      LoadAt(f, l.path);
      LoadAt(f, l.path + [k]);
      GetConcat(Obj(f), l.path, [k]);
      GetOne(Get(Obj(f), l.path).value.fields, k);
    }
    forall l, k | l in Load(f) && k in Load(f)[l] && Load(f)[l][k].Plain? ensures !Load(f)[l][k].j.Obj? {
      assert l == Loc(l.path, 0);
      LoadAt(f, l.path);
    }
  }

  // ----- Writing -----

  /** `setAtPath` from object `l`, which the walk from the top has reached at `at`: into the objects that are
      there, and into new ones made at `time` where there are none. */
  function Write(h: Heap, l: Loc, at: Path, p: Path, v: Slot, time: nat): Heap
    decreases |p|
  {
    if p == [] || l !in h then h
    else if |p| == 1 then h[l := h[l][p[0] := v]]
    else if p[0] in h[l] && h[l][p[0]].Ref? then Write(h, h[l][p[0]].loc, at + [p[0]], p[1..], v, time)
    else
      var n := Loc(at + [p[0]], time);
      Write(h[l := h[l][p[0] := Ref(n)]][n := map[]], n, at + [p[0]], p[1..], v, time)
  }

  method WriteAtPath(h: Heap, path: string, v: Slot, time: nat) returns (r: Heap)
    requires ROOT in h && Sane(h)
    ensures r == Write(h, ROOT, [], Parts(path), v, time)
  {
    var parts := Parts(path);
    if |parts| == 0 {
      return h;
    }
    r := h;
    var cur := ROOT;
    for i := 0 to |parts| - 1
      invariant cur in r && Sane(r)
      invariant Write(h, ROOT, [], parts, v, time) == Write(r, cur, parts[..i], parts[i..], v, time)
    {
      var p := parts[i];
      assert parts[..i] + [p] == parts[..i + 1] && parts[i..][1..] == parts[i + 1..];
      if p in r[cur] && r[cur][p].Ref? {
        cur := r[cur][p].loc;
      } else {
        var n := Loc(parts[..i + 1], time);
        r := r[cur := r[cur][p := Ref(n)]][n := map[]];
        cur := n;
      }
    }
    var last := |parts| - 1;
    assert parts[last..] == [parts[last]];
    r := r[cur := r[cur][parts[last] := v]];
  }

  // ----- What a write does -----

  /** The object the write changes: the last one the walk to the parent reaches. */
  function Changed(h: Heap, l: Loc, p: Path): Loc
    decreases |p|
  {
    if |p| > 1 && l in h && p[0] in h[l] && h[l][p[0]].Ref? then Changed(h, h[l][p[0]].loc, p[1..]) else l
  }

  /** How far the walk gets before it. */
  function Reached(h: Heap, l: Loc, p: Path): (n: nat)
    ensures n <= |p| && (p != [] ==> n < |p|)
    decreases |p|
  {
    if |p| > 1 && l in h && p[0] in h[l] && h[l][p[0]].Ref? then 1 + Reached(h, h[l][p[0]].loc, p[1..]) else 0
  }

  lemma {:induction false} ReachedChanged(h: Heap, l: Loc, p: Path)
    requires p != []
    ensures Reached(h, l, p) < |p| && Walk(h, Ref(l), p[..Reached(h, l, p)]) == Some(Ref(Changed(h, l, p)))
    decreases |p|
  {
    if |p| > 1 && l in h && p[0] in h[l] && h[l][p[0]].Ref? {
      var n := Reached(h, h[l][p[0]].loc, p[1..]);
      ReachedChanged(h, h[l][p[0]].loc, p[1..]);
      assert p[..n + 1][1..] == p[1..][..n];
    }
  }

  /** Objects made so far are older, or lie above `at`. */
  ghost predicate FreshBelow(h: Heap, at: Path, time: nat) {
    forall l | l in h :: l.time < time || (l.time == time && |l.path| <= |at|)
  }

  /** A write changes one object and makes new ones. */
  lemma {:induction false} WriteFrame(h: Heap, l: Loc, at: Path, p: Path, v: Slot, time: nat)
    requires l in h && Sane(h) && FreshBelow(h, at, time)
    ensures var h' := Write(h, l, at, p, v, time);
            h.Keys <= h'.Keys && Changed(h, l, p) in h && (forall m | m in h && m != Changed(h, l, p) :: h'[m] == h[m])
    ensures forall m | m in Write(h, l, at, p, v, time) && m !in h :: m.time == time && |m.path| > |at|
    decreases |p|
  {
    if p == [] || |p| == 1 {
    } else if p[0] in h[l] && h[l][p[0]].Ref? {
      WriteFrame(h, h[l][p[0]].loc, at + [p[0]], p[1..], v, time);
    } else {
      var n := Loc(at + [p[0]], time);
      var h1 := h[l := h[l][p[0] := Ref(n)]][n := map[]];
      assert n !in h;
      WriteFrame(h1, n, at + [p[0]], p[1..], v, time);
    }
  }

  lemma {:induction false} WriteSane(h: Heap, l: Loc, at: Path, p: Path, v: Slot, time: nat)
    requires l in h && Sane(h) && (v.Ref? ==> v.loc in h) && (v.Plain? ==> !v.j.Obj?)
    ensures Sane(Write(h, l, at, p, v, time)) && h.Keys <= Write(h, l, at, p, v, time).Keys
    decreases |p|
  {
    if p == [] || |p| == 1 {
    } else if p[0] in h[l] && h[l][p[0]].Ref? {
      WriteSane(h, h[l][p[0]].loc, at + [p[0]], p[1..], v, time);
    } else {
      var n := Loc(at + [p[0]], time);
      WriteSane(h[l := h[l][p[0] := Ref(n)]][n := map[]], n, at + [p[0]], p[1..], v, time);
    }
  }

  /** A walk that never stands on a changed object is the walk it was. */
  lemma {:induction false} WalkFrame(h: Heap, h': Heap, changed: Loc, s: Slot, p: Path)
    requires Sane(h) && (s.Ref? ==> s.loc in h) && h.Keys <= h'.Keys &&
             forall m | m in h && m != changed :: h'[m] == h[m]
    requires forall q | q < p :: Walk(h, s, q) != Some(Ref(changed))
    ensures Walk(h', s, p) == Walk(h, s, p)
    decreases |p|
  {
    if p != [] && s.Ref? {
      assert [] < p && Walk(h, s, []) == Some(s);
      var t := Member(h, s, p[0]);
      if t.Some? {
        forall q | q < p[1..] ensures Walk(h, t.value, q) != Some(Ref(changed)) {
          assert ([p[0]] + q)[1..] == q && [p[0]] + q < p;
          assert Walk(h, s, [p[0]] + q) == Walk(h, t.value, q);
        }
        WalkFrame(h, h', changed, t.value, p[1..]);
      }
    }
  }

  /** Only one path from `l` leads to the object a write changes. */
  ghost predicate Alone(h: Heap, l: Loc, p: Path) {
    forall q :: Walk(h, Ref(l), q) == Some(Ref(Changed(h, l, p))) ==> q == p[..Reached(h, l, p)]
  }

  lemma AloneBelow(h: Heap, l: Loc, p: Path)
    requires l in h && |p| > 1 && p[0] in h[l] && h[l][p[0]].Ref? && Alone(h, l, p)
    ensures Alone(h, h[l][p[0]].loc, p[1..]) && Changed(h, l, p) != l
  {
    var c := h[l][p[0]].loc;
    var n := Reached(h, c, p[1..]);
    forall q | Walk(h, Ref(c), q) == Some(Ref(Changed(h, c, p[1..]))) ensures q == p[1..][..n] {
      assert ([p[0]] + q)[1..] == q;
      assert Walk(h, Ref(l), [p[0]] + q) == Walk(h, Ref(c), q);
      assert [p[0]] + q == p[..n + 1];
    }
    assert Walk(h, Ref(l), []) == Some(Ref(l)) && p[..n + 1] != [];
  }

  /** Beside the path the write takes, nothing leads to the object it changes. */
  lemma AloneBeside(h: Heap, l: Loc, p: Path, k: string, q: Path)
    requires l in h && p != [] && k in h[l] && k != p[0] && Alone(h, l, p)
    ensures Walk(h, h[l][k], q) != Some(Ref(Changed(h, l, p)))
  {
    assert ([k] + q)[1..] == q;
    assert Walk(h, Ref(l), [k] + q) == Walk(h, h[l][k], q);
  }

  /** Beside its path a write that is alone changes nothing. */
  lemma WriteBeside(h: Heap, l: Loc, at: Path, p: Path, v: Slot, time: nat, k: string, q: Path)
    requires l in h && Sane(h) && FreshBelow(h, at, time) && p != [] && k in h[l] && k != p[0] && Alone(h, l, p)
    ensures Walk(Write(h, l, at, p, v, time), h[l][k], q) == Walk(h, h[l][k], q)
  {
    WriteFrame(h, l, at, p, v, time);
    forall y | y < q ensures Walk(h, h[l][k], y) != Some(Ref(Changed(h, l, p))) {
      AloneBeside(h, l, p, k, y);
    }
    WalkFrame(h, Write(h, l, at, p, v, time), Changed(h, l, p), h[l][k], q);
  }

  /** What a walk finds after a write that is alone: the written slot at the path, an object above it, and
      elsewhere what it found before. */
  ghost predicate WriteShows(h: Heap, h': Heap, l: Loc, p: Path, v: Slot, q: Path) {
    if p <= q then Walk(h', Ref(l), q) == Walk(h', v, q[|p|..])
    else if q < p then Look(h', Ref(l), q) == Some(Object)
    else Walk(h', Ref(l), q) == Walk(h, Ref(l), q)
  }

  lemma WriteShowsHere(h: Heap, l: Loc, at: Path, p: Path, v: Slot, time: nat, q: Path)
    requires l in h && Sane(h) && FreshBelow(h, at, time) && |p| == 1 && Alone(h, l, p)
    ensures WriteShows(h, Write(h, l, at, p, v, time), l, p, v, q)
  {
    var h' := Write(h, l, at, p, v, time);
    if q != [] {
      if q[0] == p[0] {
        assert p <= q && q[|p|..] == q[1..];
      } else if q[0] in h[l] {
        WriteBeside(h, l, at, p, v, time, q[0], q[1..]);
      }
    }
  }

  lemma {:induction false} WriteThenWalk(h: Heap, l: Loc, at: Path, p: Path, v: Slot, time: nat, q: Path)
    requires l in h && Sane(h) && FreshBelow(h, at, time) && p != [] && Alone(h, l, p)
    ensures WriteShows(h, Write(h, l, at, p, v, time), l, p, v, q)
    decreases |p|
  {
    if |p| == 1 {
      WriteShowsHere(h, l, at, p, v, time, q);
    } else if p[0] in h[l] && h[l][p[0]].Ref? {
      WriteIntoObject(h, l, at, p, v, time, q);
    } else {
      WriteIntoNew(h, l, at, p, v, time, q);
    }
  }

  lemma PrefixTail(p: Path, q: Path)
    requires p != [] && q != [] && p[0] == q[0]
    ensures p <= q <==> p[1..] <= q[1..]
    ensures p < q <==> p[1..] < q[1..]
    ensures p <= q ==> q[|p|..] == q[1..][|p[1..]|..]
  {
    assert p == [p[0]] + p[1..] && q == [q[0]] + q[1..];
  }

  lemma {:induction false} WriteIntoObject(h: Heap, l: Loc, at: Path, p: Path, v: Slot, time: nat, q: Path)
    requires l in h && Sane(h) && FreshBelow(h, at, time) && |p| > 1 && Alone(h, l, p) && p[0] in h[l] &&
             h[l][p[0]].Ref?
    ensures WriteShows(h, Write(h, l, at, p, v, time), l, p, v, q)
    decreases |p|, 0
  {
    var c := h[l][p[0]].loc;
    var h' := Write(h, l, at, p, v, time);
    AloneBelow(h, l, p);
    WriteFrame(h, l, at, p, v, time);
    assert h'[l] == h[l];
    if q != [] && q[0] == p[0] {
      PrefixTail(p, q);
      PrefixTail(q, p);
      WriteThenWalk(h, c, at + [p[0]], p[1..], v, time, q[1..]);
    } else if q != [] && q[0] in h[l] {
      WriteBeside(h, l, at, p, v, time, q[0], q[1..]);
    }
  }

  lemma NewAlone(h: Heap, n: Loc, p: Path)
    requires n in h && h[n] == map[] && p != []
    ensures Changed(h, n, p) == n && Alone(h, n, p)
  {
    forall q | Walk(h, Ref(n), q) == Some(Ref(n)) ensures q == [] {}
  }

  lemma {:induction false} WriteIntoNew(h: Heap, l: Loc, at: Path, p: Path, v: Slot, time: nat, q: Path)
    requires l in h && Sane(h) && FreshBelow(h, at, time) && |p| > 1 && Alone(h, l, p) &&
             !(p[0] in h[l] && h[l][p[0]].Ref?)
    ensures WriteShows(h, Write(h, l, at, p, v, time), l, p, v, q)
    decreases |p|, 0
  {
    var n := Loc(at + [p[0]], time);
    assert n !in h;
    var h1 := h[l := h[l][p[0] := Ref(n)]][n := map[]];
    var h' := Write(h, l, at, p, v, time);
    NewAlone(h1, n, p[1..]);
    WriteFrame(h1, n, at + [p[0]], p[1..], v, time);
    assert h'[l] == h1[l];
    if q != [] && q[0] == p[0] {
      PrefixTail(p, q);
      PrefixTail(q, p);
      WriteThenWalk(h1, n, at + [p[0]], p[1..], v, time, q[1..]);
      if q[1..] != [] {
        assert Member(h1, Ref(n), q[1..][0]) == None;
        assert Walk(h1, Ref(n), q[1..]) == None;
        if p[0] in h[l] {
          assert Member(h, Ref(l), q[0]) == Some(h[l][p[0]]);
          assert Member(h, h[l][p[0]], q[1..][0]) == None;
        }
        assert Walk(h, Ref(l), q) == None;
      }
    } else if q != [] && q[0] in h[l] {
      WriteBeside(h, l, at, p, v, time, q[0], q[1..]);
    }
  }

  /** Writing what is there changes nothing. */
  lemma {:induction false} WriteSame(h: Heap, l: Loc, at: Path, p: Path, v: Slot, time: nat)
    requires p != [] && Walk(h, Ref(l), p) == Some(v)
    ensures Write(h, l, at, p, v, time) == h
    decreases |p|
  {
    var t := Member(h, Ref(l), p[0]).value;
    if |p| > 1 {
      WalkNeedsObject(h, t, p[1..]);
      WriteSame(h, t.loc, at + [p[0]], p[1..], v, time);
    } else {
      assert p[1..] == [] && t == v;
      assert h[l][p[0] := v] == h[l];
    }
  }

  lemma WalkNeedsObject(h: Heap, s: Slot, p: Path)
    requires p != [] && Walk(h, s, p).Some?
    ensures s.Ref?
  {
  }

  /** A write through an object is the write from that object on. */
  lemma {:induction false} WriteThrough(h: Heap, l: Loc, at: Path, c: Path, y: Path, v: Slot, time: nat, m: Loc)
    requires y != [] && Walk(h, Ref(l), c) == Some(Ref(m))
    ensures Write(h, l, at, c + y, v, time) == Write(h, m, at + c, y, v, time)
    decreases |c|
  {
    if c == [] {
      assert c + y == y && at + c == at;
    } else {
      var t := Member(h, Ref(l), c[0]).value;
      assert (c + y)[1..] == c[1..] + y && at + [c[0]] + c[1..] == at + c;
      if c[1..] != [] {
        WalkNeedsObject(h, t, c[1..]);
      }
      WriteThrough(h, t.loc, at + [c[0]], c[1..], y, v, time, m);
    }
  }

  /** The walk of a write gets at least as far as an object above its end. */
  lemma {:induction false} ReachesObjects(h: Heap, l: Loc, d: Path, p: Path)
    requires d < p && Walk(h, Ref(l), d).Some? && Walk(h, Ref(l), d).value.Ref?
    ensures Reached(h, l, p) >= |d|
    decreases |d|
  {
    if d != [] {
      PrefixTail(d, p);
      var t := Member(h, Ref(l), d[0]).value;
      if d[1..] != [] {
        WalkNeedsObject(h, t, d[1..]);
      }
      ReachesObjects(h, t.loc, d[1..], p[1..]);
    }
  }
}
