/** Which objects two paths lead to after a series of writes, and what a further write then changes. */
module Sharing {
  import opened Json
  import opened SharedObjects

  /** A write in a series: where, and, if what it wrote is an object that was there, where that was read. */
  datatype Entry = Entry(at: Path, from: Option<Path>)

  predicate SharedAt(ws: seq<Entry>, p: Path) {
    exists i :: 0 <= i < |ws| && ws[i].from.Some? && ws[i].at == p
  }

  predicate FromAbove(ws: seq<Entry>, p: Path) {
    exists i :: 0 <= i < |ws| && ws[i].from.Some? && ws[i].from.value <= p
  }

  /** A member that holds an object holds the one made there, unless the series has put another there. */
  ghost predicate Named(h: Heap, ws: seq<Entry>) {
    forall l: Loc, k: string | l in h && k in h[l] && h[l][k].Ref? ::
      h[l][k].loc.path == l.path + [k] || SharedAt(ws, l.path + [k])
  }

  /** And that other one was made at or below a path the series has read from. */
  ghost predicate Rooted(h: Heap, ws: seq<Entry>) {
    forall l: Loc, k: string | l in h && k in h[l] && h[l][k].Ref? && h[l][k].loc.path != l.path + [k] ::
      FromAbove(ws, h[l][k].loc.path)
  }

  /** The path does not lead below one where the series has put an object. */
  ghost predicate StaysOut(ws: seq<Entry>, t: Path) {
    forall i | 0 <= i < |ws| && ws[i].from.Some? :: !(ws[i].at < t)
  }

  /** Nor below one it has read an object from. */
  ghost predicate StaysOutOfBoth(ws: seq<Entry>, t: Path) {
    StaysOut(ws, t) && forall i | 0 <= i < |ws| && ws[i].from.Some? :: !(ws[i].from.value < t)
  }

  /** No write of the series goes below an earlier one that shared an object. */
  ghost predicate KeepsOut(ws: seq<Entry>) {
    forall j | 0 <= j < |ws| :: StaysOut(ws[..j], ws[j].at)
  }

  /** Nor below the place that one had read from; and no write puts an object below itself. */
  ghost predicate Careful(ws: seq<Entry>) {
    forall j | 0 <= j < |ws| ::
      StaysOutOfBoth(ws[..j], ws[j].at) && (ws[j].from.Some? ==> !(ws[j].from.value < ws[j].at))
  }

  lemma KeepsOutAppend(ws: seq<Entry>, w: Entry)
    ensures KeepsOut(ws + [w]) <==> KeepsOut(ws) && StaysOut(ws, w.at)
  {
    forall j | 0 <= j < |ws| ensures (ws + [w])[..j] == ws[..j] {}
    assert (ws + [w])[..|ws|] == ws;
    if KeepsOut(ws + [w]) {
      assert StaysOut((ws + [w])[..|ws|], (ws + [w])[|ws|].at);
      forall j | 0 <= j < |ws| ensures StaysOut(ws[..j], ws[j].at) {
        assert StaysOut((ws + [w])[..j], (ws + [w])[j].at);
      }
    }
  }

  ghost predicate CarefulNext(ws: seq<Entry>, w: Entry) {
    StaysOutOfBoth(ws, w.at) && (w.from.Some? ==> !(w.from.value < w.at))
  }

  lemma CarefulAppend(ws: seq<Entry>, w: Entry)
    ensures Careful(ws + [w]) <==> Careful(ws) && CarefulNext(ws, w)
  {
    forall j | 0 <= j < |ws| ensures (ws + [w])[..j] == ws[..j] && (ws + [w])[j] == ws[j] {}
    assert (ws + [w])[..|ws|] == ws && (ws + [w])[|ws|] == w;
    if Careful(ws + [w]) {
      assert StaysOutOfBoth((ws + [w])[..|ws|], (ws + [w])[|ws|].at);
      forall j | 0 <= j < |ws|
        ensures StaysOutOfBoth(ws[..j], ws[j].at) && (ws[j].from.Some? ==> !(ws[j].from.value < ws[j].at))
      {
        assert StaysOutOfBoth((ws + [w])[..j], (ws + [w])[j].at);
      }
    }
  }

  /** The series has put no object on the way from `at` along `p`. */
  ghost predicate Unshared(ws: seq<Entry>, at: Path, p: Path) {
    forall e | e <= at + p && |e| > |at| :: !SharedAt(ws, e)
  }

  /** Nor, leaving out the end of the way. */
  ghost predicate UnsharedAbove(ws: seq<Entry>, at: Path, p: Path) {
    forall e | e < at + p && |e| > |at| :: !SharedAt(ws, e)
  }

  lemma UnsharedStep(ws: seq<Entry>, at: Path, p: Path)
    requires p != []
    ensures Unshared(ws, at, p) ==> Unshared(ws, at + [p[0]], p[1..]) && !SharedAt(ws, at + [p[0]])
    ensures UnsharedAbove(ws, at, p) ==>
              UnsharedAbove(ws, at + [p[0]], p[1..]) && (|p| > 1 ==> !SharedAt(ws, at + [p[0]]))
    ensures at + [p[0]] + p[1..] == at + p
  {
    assert at + [p[0]] + p[1..] == at + p;
    assert at + [p[0]] <= at + p && (|p| > 1 ==> at + [p[0]] < at + p);
  }

  // ----- Walks -----

  /** A walk that meets nothing the series has put there stands on objects made where it stands. */
  lemma {:induction false} CleanWalk(h: Heap, ws: seq<Entry>, l: Loc, p: Path)
    requires Named(h, ws) && Unshared(ws, l.path, p)
    ensures Walk(h, Ref(l), p).Some? && Walk(h, Ref(l), p).value.Ref? ==>
              Walk(h, Ref(l), p).value.loc.path == l.path + p
    decreases |p|
  {
    if p == [] {
      assert l.path + p == l.path;
    } else {
      var t := Member(h, Ref(l), p[0]);
      if t.Some? && t.value.Ref? {
        UnsharedStep(ws, l.path, p);
        CleanWalk(h, ws, t.value.loc, p[1..]);
      } else if t.Some? {
        assert p[1..] != [] ==> Member(h, t.value, p[1..][0]) == None;
      }
    }
  }

  /** Wherever a walk ends, the object was made there, or at or below a path the series has read from. */
  lemma {:induction false} WalkIsRooted(h: Heap, ws: seq<Entry>, l: Loc, p: Path, m: Loc)
    requires Rooted(h, ws) && Walk(h, Ref(l), p) == Some(Ref(m))
    ensures m.path == l.path + p || FromAbove(ws, m.path)
    decreases |p|
  {
    if p == [] {
      assert l.path + p == l.path;
    } else {
      var t := Member(h, Ref(l), p[0]).value;
      if t.Ref? {
        WalkIsRooted(h, ws, t.loc, p[1..], m);
        if m.path == t.loc.path + p[1..] {
          if t.loc.path == l.path + [p[0]] {
            assert l.path + [p[0]] + p[1..] == l.path + p;
          } else {
            var i :| 0 <= i < |ws| && ws[i].from.Some? && ws[i].from.value <= t.loc.path;
            assert ws[i].from.value <= m.path;
          }
        }
      }
    }
  }

  /** Where the series has shared nothing above the path, the object a write changes was made on the path. */
  lemma ChangedIsOnPath(h: Heap, ws: seq<Entry>, t: Path)
    requires Named(h, ws) && t != [] && StaysOut(ws, t)
    ensures Changed(h, ROOT, t).path == t[..Reached(h, ROOT, t)]
  {
    var m := t[..Reached(h, ROOT, t)];
    ReachedChanged(h, ROOT, t);
    forall e | e <= ROOT.path + m && |e| > |ROOT.path| ensures !SharedAt(ws, e) {
      assert ROOT.path + m == m && e < t;
    }
    CleanWalk(h, ws, ROOT, m);
    assert ROOT.path + m == m;
  }

  /** Then no other path leads to it. */
  lemma CarefulIsAlone(h: Heap, ws: seq<Entry>, t: Path)
    requires Named(h, ws) && Rooted(h, ws) && t != [] && StaysOutOfBoth(ws, t)
    ensures Alone(h, ROOT, t)
  {
    var l := Changed(h, ROOT, t);
    var m := t[..Reached(h, ROOT, t)];
    ChangedIsOnPath(h, ws, t);
    forall q | Walk(h, Ref(ROOT), q) == Some(Ref(l)) ensures q == m {
      WalkIsRooted(h, ws, ROOT, q, l);
      assert ROOT.path + q == q;
      forall i | 0 <= i < |ws| && ws[i].from.Some? ensures !(ws[i].from.value <= l.path) {
        assert !(ws[i].from.value < t) && l.path < t;
      }
    }
  }

  // ----- What a write keeps -----

  lemma SharedAtAppend(ws: seq<Entry>, w: Entry, p: Path)
    ensures SharedAt(ws + [w], p) <==> SharedAt(ws, p) || (w.from.Some? && w.at == p)
  {
    if SharedAt(ws, p) {
      var i :| 0 <= i < |ws| && ws[i].from.Some? && ws[i].at == p;
      assert (ws + [w])[i] == ws[i];
    }
    if w.from.Some? && w.at == p {
      assert (ws + [w])[|ws|] == w;
    }
  }

  lemma FromAboveAppend(ws: seq<Entry>, w: Entry, p: Path)
    ensures FromAbove(ws + [w], p) <==> FromAbove(ws, p) || (w.from.Some? && w.from.value <= p)
  {
    if FromAbove(ws, p) {
      var i :| 0 <= i < |ws| && ws[i].from.Some? && ws[i].from.value <= p;
      assert (ws + [w])[i] == ws[i];
    }
    if w.from.Some? && w.from.value <= p {
      assert (ws + [w])[|ws|] == w;
    }
  }

  /** The edges of `h` are covered by the series and the write at `t`; `v` may be put at `t`. */
  ghost predicate Covered(h: Heap, ws: seq<Entry>, t: Path, v: Slot) {
    forall l: Loc, k: string | l in h && k in h[l] && h[l][k].Ref? ::
      h[l][k].loc.path == l.path + [k] || SharedAt(ws, l.path + [k]) || (l.path + [k] == t && h[l][k] == v)
  }

  lemma {:induction false} WriteCovers(h: Heap, ws: seq<Entry>, l: Loc, at: Path, p: Path, v: Slot, time: nat)
    requires l in h && Named(h, ws) && l.path == at && p != []
    requires UnsharedAbove(ws, at, p)
    ensures Covered(Write(h, l, at, p, v, time), ws, at + p, v)
    decreases |p|
  {
    if |p| == 1 {
      assert at + p == at + [p[0]];
    } else {
      UnsharedStep(ws, at, p);
      if p[0] in h[l] && h[l][p[0]].Ref? {
        WriteCoversBelow(h, ws, l, at, p, v, time);
      } else {
        var n := Loc(at + [p[0]], time);
        WriteCovers(h[l := h[l][p[0] := Ref(n)]][n := map[]], ws, n, at + [p[0]], p[1..], v, time);
      }
    }
  }

  lemma {:induction false} WriteCoversBelow(h: Heap, ws: seq<Entry>, l: Loc, at: Path, p: Path, v: Slot, time: nat)
    requires l in h && Named(h, ws) && l.path == at && |p| > 1 && p[0] in h[l] && h[l][p[0]].Ref?
    requires UnsharedAbove(ws, at, p)
    ensures Covered(Write(h, l, at, p, v, time), ws, at + p, v)
    decreases |p|, 0
  {
    var c := h[l][p[0]].loc;
    UnsharedStep(ws, at, p);
    if c in h {
      WriteCovers(h, ws, c, at + [p[0]], p[1..], v, time);
    }
  }

  /** A member of `h` that holds an object made elsewhere holds one that is rooted, or `v`. */
  ghost predicate RootedBut(h: Heap, ws: seq<Entry>, v: Slot) {
    forall l: Loc, k: string | l in h && k in h[l] && h[l][k].Ref? && h[l][k].loc.path != l.path + [k] ::
      FromAbove(ws, h[l][k].loc.path) || h[l][k] == v
  }

  lemma NewObjectRoots(h: Heap, ws: seq<Entry>, l: Loc, k: string, n: Loc, v: Slot)
    requires l in h && Named(h, ws) && RootedBut(h, ws, v) && n.path == l.path + [k]
    ensures var h1 := h[l := h[l][k := Ref(n)]][n := map[]]; Named(h1, ws) && RootedBut(h1, ws, v)
  {
  }

  lemma {:induction false} WriteRoots(h: Heap, ws: seq<Entry>, l: Loc, at: Path, p: Path, v: Slot, time: nat)
    requires l in h && Named(h, ws) && RootedBut(h, ws, v) && l.path == at && p != []
    requires UnsharedAbove(ws, at, p)
    ensures RootedBut(Write(h, l, at, p, v, time), ws, v)
    decreases |p|
  {
    if |p| > 1 {
      UnsharedStep(ws, at, p);
      if p[0] in h[l] && h[l][p[0]].Ref? {
        var c := h[l][p[0]].loc;
        if c in h {
          WriteRoots(h, ws, c, at + [p[0]], p[1..], v, time);
        }
      } else {
        var n := Loc(at + [p[0]], time);
        NewObjectRoots(h, ws, l, p[0], n, v);
        WriteRoots(h[l := h[l][p[0] := Ref(n)]][n := map[]], ws, n, at + [p[0]], p[1..], v, time);
      }
    }
  }

  /** What the series has left: an object at the top, every member accounted for, nothing newer than it. */
  ghost predicate Kept(h: Heap, ws: seq<Entry>) {
    ROOT in h && Sane(h) && Named(h, ws) && FreshBelow(h, [], |ws| + 1)
  }

  lemma LoadKept(f: Fields)
    ensures Kept(Load(f), []) && Rooted(Load(f), [])
  {
    LoadShows(f);
    forall l, k | l in Load(f) && k in Load(f)[l] && Load(f)[l][k].Ref? ensures Load(f)[l][k].loc.path == l.path + [k] {
      assert l == Loc(l.path, 0);
      LoadAt(f, l.path);
    }
  }

  /** The next write of a series: a plain value, or the object found at `w.from`. */
  ghost predicate MayWrite(h: Heap, w: Entry, v: Slot) {
    match w.from
    case None => v.Plain? && !v.j.Obj?
    case Some(d) => v.Ref? && Walk(h, Ref(ROOT), d) == Some(v)
  }

  function Put(h: Heap, ws: seq<Entry>, t: Path, v: Slot): Heap {
    Write(h, ROOT, [], t, v, |ws| + 1)
  }

  lemma SlotIsThere(h: Heap, ws: seq<Entry>, w: Entry, v: Slot)
    requires Kept(h, ws) && MayWrite(h, w, v)
    ensures (v.Ref? ==> v.loc in h) && (v.Plain? ==> !v.j.Obj?)
  {
    if w.from.Some? {
      WalkSane(h, Ref(ROOT), w.from.value);
    }
  }

  lemma PutFresh(h: Heap, ws: seq<Entry>, w: Entry, v: Slot)
    requires Kept(h, ws)
    ensures FreshBelow(Put(h, ws, w.at, v), [], |ws + [w]| + 1)
  {
    WriteFrame(h, ROOT, [], w.at, v, |ws| + 1);
    var h': Heap := Put(h, ws, w.at, v);
    forall l | l in h' ensures l.time <= |ws| + 1 {
      assert l in h ==> l.time < |ws| + 1 || l.time == |ws| + 1;
    }
  }

  lemma NothingSharedAbove(ws: seq<Entry>, t: Path)
    requires StaysOut(ws, t)
    ensures UnsharedAbove(ws, [], t)
  {
    assert [] + t == t;
  }

  lemma PutNamed(h: Heap, ws: seq<Entry>, w: Entry, v: Slot)
    requires Kept(h, ws) && MayWrite(h, w, v) && StaysOut(ws, w.at) && w.at != []
    ensures Named(Put(h, ws, w.at, v), ws + [w])
  {
    NothingSharedAbove(ws, w.at);
    WriteCovers(h, ws, ROOT, [], w.at, v, |ws| + 1);
    assert [] + w.at == w.at;
    var h': Heap := Put(h, ws, w.at, v);
    forall l: Loc, k: string | l in h' && k in h'[l] && h'[l][k].Ref?
      ensures h'[l][k].loc.path == l.path + [k] || SharedAt(ws + [w], l.path + [k])
    {
      SharedAtAppend(ws, w, l.path + [k]);
    }
  }

  lemma NamedAppend(h: Heap, ws: seq<Entry>, w: Entry)
    requires Named(h, ws)
    ensures Named(h, ws + [w])
  {
    forall l: Loc, k: string | l in h && k in h[l] && h[l][k].Ref?
      ensures h[l][k].loc.path == l.path + [k] || SharedAt(ws + [w], l.path + [k])
    {
      SharedAtAppend(ws, w, l.path + [k]);
    }
  }

  /** A write that stays out keeps the members accounted for. */
  lemma PutKept(h: Heap, ws: seq<Entry>, w: Entry, v: Slot)
    requires Kept(h, ws) && MayWrite(h, w, v) && StaysOut(ws, w.at)
    ensures Kept(Put(h, ws, w.at, v), ws + [w])
  {
    SlotIsThere(h, ws, w, v);
    WriteSane(h, ROOT, [], w.at, v, |ws| + 1);
    PutFresh(h, ws, w, v);
    if w.at == [] {
      NamedAppend(h, ws, w);
    } else {
      PutNamed(h, ws, w, v);
    }
  }

  lemma PutRooted(h: Heap, ws: seq<Entry>, w: Entry, v: Slot)
    requires Kept(h, ws) && Rooted(h, ws) && MayWrite(h, w, v) && StaysOut(ws, w.at)
    ensures Rooted(Put(h, ws, w.at, v), ws + [w])
  {
    var h': Heap := Put(h, ws, w.at, v);
    if w.at != [] {
      NothingSharedAbove(ws, w.at);
      WriteRoots(h, ws, ROOT, [], w.at, v, |ws| + 1);
    }
    forall l: Loc, k: string | l in h' && k in h'[l] && h'[l][k].Ref? && h'[l][k].loc.path != l.path + [k]
      ensures FromAbove(ws + [w], h'[l][k].loc.path)
    {
      var m := h'[l][k].loc;
      FromAboveAppend(ws, w, m.path);
      if h'[l][k] == v {
        WalkIsRooted(h, ws, ROOT, w.from.value, m);
        assert ROOT.path + w.from.value == w.from.value;
      }
    }
  }

  // ----- Paths apart from the series keep what they show -----

  /** Below a member beside the write's path nothing is changed that stands on its own path. */
  lemma {:induction false} CleanFrame(h: Heap, h': Heap, changed: Loc, ws: seq<Entry>, l: Loc, q: Path)
    requires Sane(h) && Named(h, ws) && l in h && h.Keys <= h'.Keys &&
             forall m | m in h && m != changed :: h'[m] == h[m]
    requires Unshared(ws, l.path, q)
    requires !(l.path <= changed.path && changed.path <= l.path + q)
    ensures Walk(h', Ref(l), q) == Walk(h, Ref(l), q)
    decreases |q|
  {
    if q != [] {
      assert l.path <= l.path + q;
      var t := Member(h, Ref(l), q[0]);
      if t.Some? && t.value.Ref? {
        var c := t.value.loc;
        UnsharedStep(ws, l.path, q);
        CleanFrame(h, h', changed, ws, c, q[1..]);
      } else if t.Some? && q[1..] != [] {
        assert Member(h, t.value, q[1..][0]) == None && Member(h', t.value, q[1..][0]) == None;
      }
    }
  }

  lemma ChangedPath(h: Heap, ws: seq<Entry>, l: Loc, p: Path)
    requires Named(h, ws) && p != [] && UnsharedAbove(ws, l.path, p)
    ensures Changed(h, l, p).path == l.path + p[..Reached(h, l, p)]
  {
    var m := p[..Reached(h, l, p)];
    ReachedChanged(h, l, p);
    assert l.path + p == l.path + m + p[Reached(h, l, p)..];
    CleanWalk(h, ws, l, m);
  }

  /** What the object `l` shows at `q` is not touched by the write from it along `p`. */
  ghost predicate Keeps(h: Heap, l: Loc, at: Path, p: Path, v: Slot, time: nat, q: Path) {
    Walk(Write(h, l, at, p, v, time), Ref(l), q) == Walk(h, Ref(l), q)
  }

  ghost predicate Ready(h: Heap, ws: seq<Entry>, l: Loc, at: Path, p: Path, time: nat, q: Path) {
    l in h && Sane(h) && Named(h, ws) && FreshBelow(h, at, time) && l.path == at && UnsharedAbove(ws, at, p) &&
    Unshared(ws, at, q)
  }

  lemma ApartTail(p: Path, q: Path)
    requires !Comparable(p, q) && p[0] == q[0]
    ensures |p| > 1 && |q| > 1 && !Comparable(p[1..], q[1..])
  {
    assert p == [p[0]] + p[1..] && q == [q[0]] + q[1..];
  }

  /** A write keeps what shows at every path that neither meets it nor leads through a shared object. */
  lemma {:induction false} WriteKeeps(h: Heap, ws: seq<Entry>, l: Loc, at: Path, p: Path, v: Slot, time: nat, q: Path)
    requires Ready(h, ws, l, at, p, time, q) && !Comparable(p, q)
    ensures Keeps(h, l, at, p, v, time, q)
    decreases |p|
  {
    if q[0] != p[0] {
      WriteKeepsBeside(h, ws, l, at, p, v, time, q);
    } else if p[0] in h[l] && h[l][p[0]].Ref? {
      WriteKeepsInObject(h, ws, l, at, p, v, time, q);
    } else {
      WriteKeepsInNew(h, l, at, p, v, time, q);
    }
  }

  lemma WriteKeepsBeside(h: Heap, ws: seq<Entry>, l: Loc, at: Path, p: Path, v: Slot, time: nat, q: Path)
    requires Ready(h, ws, l, at, p, time, q) && p != [] && q != [] && q[0] != p[0]
    ensures Keeps(h, l, at, p, v, time, q)
  {
    var h' := Write(h, l, at, p, v, time);
    WriteFrame(h, l, at, p, v, time);
    ChangedPath(h, ws, l, p);
    WriteBesideMember(h, l, at, p, v, time, q[0]);
    if q[0] in h[l] {
      BesideFrame(h, h', ws, l, at, p, q);
    }
  }

  lemma BesideFrame(h: Heap, h': Heap, ws: seq<Entry>, l: Loc, at: Path, p: Path, q: Path)
    requires l in h && Sane(h) && Named(h, ws) && l.path == at && Unshared(ws, at, q) && p != [] && q != [] &&
             q[0] != p[0] && q[0] in h[l]
    requires Changed(h, l, p).path == at + p[..Reached(h, l, p)]
    requires h.Keys <= h'.Keys && forall m | m in h && m != Changed(h, l, p) :: h'[m] == h[m]
    ensures Walk(h', h[l][q[0]], q[1..]) == Walk(h, h[l][q[0]], q[1..])
  {
    var c := Changed(h, l, p);
    if h[l][q[0]].Ref? {
      var s := h[l][q[0]].loc;
      UnsharedStep(ws, at, q);
      assert s.path == at + [q[0]];
      if Reached(h, l, p) > 0 {
        assert c.path[|at|] == p[0] && s.path[|at|] == q[0];
      }
      CleanFrame(h, h', c, ws, s, q[1..]);
    } else if q[1..] != [] {
      assert Member(h, h[l][q[0]], q[1..][0]) == None && Member(h', h[l][q[0]], q[1..][0]) == None;
    }
  }

  /** A write along `p` leaves the other members of the object it starts from alone. */
  lemma WriteBesideMember(h: Heap, l: Loc, at: Path, p: Path, v: Slot, time: nat, k: string)
    requires l in h && Sane(h) && FreshBelow(h, at, time) && p != [] && k != p[0]
    requires Changed(h, l, p) == l ==> Reached(h, l, p) == 0
    ensures var h' := Write(h, l, at, p, v, time);
            l in h' && (k in h'[l] <==> k in h[l]) && (k in h[l] ==> h'[l][k] == h[l][k])
  {
    WriteFrame(h, l, at, p, v, time);
    if |p| > 1 && !(p[0] in h[l] && h[l][p[0]].Ref?) {
      var n := Loc(at + [p[0]], time);
      assert n !in h;
      var h1 := h[l := h[l][p[0] := Ref(n)]][n := map[]];
      NewAlone(h1, n, p[1..]);
      WriteFrame(h1, n, at + [p[0]], p[1..], v, time);
    }
  }

  lemma {:induction false} WriteKeepsInObject(h: Heap, ws: seq<Entry>, l: Loc, at: Path, p: Path, v: Slot, time: nat,
                                              q: Path)
    requires Ready(h, ws, l, at, p, time, q) && !Comparable(p, q) && q[0] == p[0] && p[0] in h[l] && h[l][p[0]].Ref?
    ensures Keeps(h, l, at, p, v, time, q)
    decreases |p|, 0
  {
    var c := h[l][p[0]].loc;
    ApartTail(p, q);
    UnsharedStep(ws, at, p);
    UnsharedStep(ws, at, q);
    ChangedPath(h, ws, l, p);
    assert Changed(h, l, p) != l;
    WriteFrame(h, l, at, p, v, time);
    WriteKeeps(h, ws, c, at + [p[0]], p[1..], v, time, q[1..]);
  }

  lemma WriteKeepsInNew(h: Heap, l: Loc, at: Path, p: Path, v: Slot, time: nat, q: Path)
    requires l in h && Sane(h) && FreshBelow(h, at, time)
    requires !Comparable(p, q) && q[0] == p[0] && !(p[0] in h[l] && h[l][p[0]].Ref?)
    ensures Keeps(h, l, at, p, v, time, q)
  {
    ApartTail(p, q);
    var n := Loc(at + [p[0]], time);
    assert n !in h;
    var h1 := h[l := h[l][p[0] := Ref(n)]][n := map[]];
    NewAlone(h1, n, p[1..]);
    WriteFrame(h1, n, at + [p[0]], p[1..], v, time);
    WriteThenWalk(h1, n, at + [p[0]], p[1..], v, time, q[1..]);
    assert Member(h1, Ref(n), q[1..][0]) == None;
    NothingBelowPlain(h, l, q);
  }

  lemma NothingBelowPlain(h: Heap, l: Loc, q: Path)
    requires l in h && |q| > 1 && !(q[0] in h[l] && h[l][q[0]].Ref?)
    ensures Walk(h, Ref(l), q) == None
  {
    if q[0] in h[l] {
      assert Member(h, Ref(l), q[0]) == Some(h[l][q[0]]);
      assert Member(h, h[l][q[0]], q[1..][0]) == None;
    }
  }

  /** Over a series that stays out: a path incomparable with the write, and with everything shared before,
      shows what it showed. */
  lemma PutKeeps(h: Heap, ws: seq<Entry>, w: Entry, v: Slot, q: Path)
    requires Kept(h, ws) && StaysOut(ws, w.at) && (w.at == [] || !Comparable(w.at, q))
    requires forall i | 0 <= i < |ws| && ws[i].from.Some? :: !(ws[i].at <= q)
    ensures Walk(Put(h, ws, w.at, v), Ref(ROOT), q) == Walk(h, Ref(ROOT), q)
  {
    if w.at != [] {
      NothingSharedAbove(ws, w.at);
      assert [] + q == q;
      assert Unshared(ws, [], q);
      WriteKeeps(h, ws, ROOT, [], w.at, v, |ws| + 1, q);
    }
  }

  // ----- A careful write shows as a write of a copy -----

  /** The value a write puts, read by copy. */
  function CopyOf(f: Fields, w: Entry, v: Slot): Json {
    match v
    case Plain(j) => j
    case Ref(_) =>
      if w.from.Some? && Get(Obj(f), w.from.value).Some? then Get(Obj(f), w.from.value).value else Null
  }

  /** Nothing below the object that is put leads to the object the write changes. */
  lemma PutSlotStays(h: Heap, ws: seq<Entry>, w: Entry, v: Slot, y: Path)
    requires Kept(h, ws) && Rooted(h, ws) && MayWrite(h, w, v) && CarefulNext(ws, w) && w.at != []
    ensures Walk(Put(h, ws, w.at, v), v, y) == Walk(h, v, y)
  {
    SlotIsThere(h, ws, w, v);
    var t := w.at;
    var c := Changed(h, ROOT, t);
    CarefulIsAlone(h, ws, t);
    WriteFrame(h, ROOT, [], t, v, |ws| + 1);
    forall z | z < y ensures Walk(h, v, z) != Some(Ref(c)) {
      if w.from.Some? {
        var d := w.from.value;
        WalkConcat(h, Ref(ROOT), d, z);
        assert d <= d + z && t[..Reached(h, ROOT, t)] < t;
      } else if z != [] {
        assert Member(h, v, z[0]) == None;
      }
    }
    WalkFrame(h, Put(h, ws, t, v), c, v, y);
  }

  lemma PlainLook(h: Heap, j: Json, y: Path)
    requires !j.Obj?
    ensures Look(h, Plain(j), y) == Sight(j, y)
  {
    if y != [] {
      assert Member(h, Plain(j), y[0]) == None;
    }
  }

  lemma PutShowsAt(h: Heap, ws: seq<Entry>, w: Entry, v: Slot, f: Fields, q: Path)
    requires Kept(h, ws) && Rooted(h, ws) && MayWrite(h, w, v) && CarefulNext(ws, w) && w.at != []
    requires Shows(h, Ref(ROOT), Obj(f))
    ensures Look(Put(h, ws, w.at, v), Ref(ROOT), q) == Sight(Obj(Set(f, w.at, CopyOf(f, w, v))), q)
  {
    var t := w.at;
    var j := CopyOf(f, w, v);
    CarefulIsAlone(h, ws, t);
    WriteThenWalk(h, ROOT, [], t, v, |ws| + 1, q);
    if t <= q {
      var y := q[|t|..];
      assert q == t + y;
      GetSetBelow(f, t, j, y);
      PutSlotStays(h, ws, w, v, y);
      if v.Plain? {
        PlainLook(h, j, y);
      } else {
        ShowsBelow(h, Ref(ROOT), Obj(f), w.from.value);
        assert Look(h, v, y) == Sight(j, y);
      }
    } else if q < t {
      GetSetAbove(f, t, j, q);
    } else {
      GetSetElsewhere(f, t, j, q);
      assert Look(h, Ref(ROOT), q) == Sight(Obj(f), q);
    }
  }

  /** After a careful write the heap shows what writing a copy into the value gives. */
  lemma PutShows(h: Heap, ws: seq<Entry>, w: Entry, v: Slot, f: Fields)
    requires Kept(h, ws) && Rooted(h, ws) && MayWrite(h, w, v) && CarefulNext(ws, w) && Shows(h, Ref(ROOT), Obj(f))
    ensures Shows(Put(h, ws, w.at, v), Ref(ROOT), Obj(Set(f, w.at, CopyOf(f, w, v))))
  {
    if w.at != [] {
      forall q ensures Look(Put(h, ws, w.at, v), Ref(ROOT), q) == Sight(Obj(Set(f, w.at, CopyOf(f, w, v))), q) {
        PutShowsAt(h, ws, w, v, f, q);
      }
    }
  }
}
