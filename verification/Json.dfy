/** JSON values and the dot-path accessors every other module reads and writes them with. */
module Json {

  datatype Option<+T> = None | Some(value: T)

  /** A parsed JSON value. An object is the finite map from its own keys to their values; a missing
      key is JavaScript's `undefined`, which `At` and `Get` report as `None`. */
  datatype Json =
    | Null
    | Bool(b: bool)
    | Num(n: real)
    | Str(s: string)
    | Arr(items: seq<Json>)
    | Obj(fields: Fields)

  type Fields = map<string, Json>

  type Path = seq<string>

  /** `m[k]`, where a missing key reads as undefined. */
  function At(m: Fields, k: string): Option<Json> {
    if k in m then Some(m[k]) else None
  }

  lemma SameFields(a: Fields, b: Fields)
    requires forall k :: At(a, k) == At(b, k)
    ensures a == b
  {
    forall k ensures k in a <==> k in b {
      assert At(a, k) == At(b, k);
    }
    forall k | k in a ensures a[k] == b[k] {
      assert At(a, k) == At(b, k);
    }
  }

  /** `path.split('.').filter(Boolean)`: the non-empty pieces between dots. */
  function Parts(path: string): Path {
    SplitFrom("", path)
  }

  function SplitFrom(piece: string, rest: string): Path
    decreases |rest|
  {
    if rest == "" then Flush(piece)
    else if rest[0] == '.' then Flush(piece) + SplitFrom("", rest[1..])
    else SplitFrom(piece + [rest[0]], rest[1..])
  }

  function Flush(piece: string): Path {
    if piece == "" then [] else [piece]
  }

  lemma {:induction false} SplitAppend(piece: string, a: string, b: string)
    ensures SplitFrom(piece, a + "." + b) == SplitFrom(piece, a) + SplitFrom("", b)
    decreases |a|
  {
    var s := a + "." + b;
    if a == "" {
      assert s[0] == '.' && s[1..] == b;
    } else {
      assert s[0] == a[0] && s[1..] == a[1..] + "." + b;
      SplitAppend(if a[0] == '.' then "" else piece + [a[0]], a[1..], b);
    }
  }

  lemma {:induction false} SplitWord(piece: string, word: string)
    requires '.' !in word
    ensures SplitFrom(piece, word) == Flush(piece + word)
    decreases |word|
  {
    if word == "" {
      assert piece + word == piece;
    } else {
      assert piece + [word[0]] + word[1..] == piece + word;
      SplitWord(piece + [word[0]], word[1..]);
    }
  }

  /** Around a dot a path falls into the pieces of its two sides. */
  lemma PartsAppend(a: string, b: string)
    ensures Parts(a + "." + b) == Parts(a) + Parts(b)
  {
    SplitAppend("", a, b);
  }

  predicate IsKey(k: string) {
    k != "" && '.' !in k
  }

  lemma PartsOfWord(word: string)
    requires '.' !in word
    ensures Parts(word) == if word == "" then [] else [word]
  {
    SplitWord("", word);
    assert "" + word == word;
  }

  function Joined(keys: seq<string>): string {
    if keys == [] then "" else if |keys| == 1 then keys[0] else keys[0] + "." + Joined(keys[1..])
  }

  /** Keys joined by dots are split into those keys again, however many they are. */
  lemma {:induction false} PartsOfJoined(keys: seq<string>)
    requires forall k | k in keys :: IsKey(k)
    ensures Parts(Joined(keys)) == keys
  {
    if keys == [] {
      PartsOfWord("");
    } else {
      assert IsKey(keys[0]);
      PartsOfWord(keys[0]);
      if |keys| == 1 {
        assert keys == [keys[0]];
      } else {
        PartsOfJoined(keys[1..]);
        PartsAppend(keys[0], Joined(keys[1..]));
        assert keys == [keys[0]] + keys[1..];
      }
    }
  }

  lemma {:induction false} SplitKeys(piece: string, rest: string)
    requires '.' !in piece
    ensures forall k | k in SplitFrom(piece, rest) :: IsKey(k)
    decreases |rest|
  {
    if rest != "" {
      SplitKeys(if rest[0] == '.' then "" else piece + [rest[0]], rest[1..]);
    }
  }

  /** A path is split into keys, and reads like those keys joined, without the empty pieces. */
  lemma PartsAreKeys(path: string)
    ensures forall k | k in Parts(path) :: IsKey(k)
    ensures Parts(Joined(Parts(path))) == Parts(path)
  {
    SplitKeys("", path);
    PartsOfJoined(Parts(path));
  }

  /** The value below `j` at `p`; undefined as soon as the walk leaves the objects. */
  function Get(j: Json, p: Path): Option<Json> {
    if p == [] then Some(j)
    else if j.Obj? && p[0] in j.fields then Get(j.fields[p[0]], p[1..])
    else None
  }

  lemma GetOne(f: Fields, k: string)
    ensures Get(Obj(f), [k]) == At(f, k)
  {
    if k in f {
      assert [k][1..] == [];
      assert Get(f[k], []) == Some(f[k]);
    }
  }

  /** The walk with a cursor that the program runs. */
  method GetAtPath(obj: Fields, path: string) returns (cur: Option<Json>)
    ensures cur == Get(Obj(obj), Parts(path))
  {
    var parts := Parts(path);
    cur := Some(Obj(obj));
    var i := 0;
    while i < |parts|
      invariant 0 <= i <= |parts|
      invariant Get(Obj(obj), parts) == if cur.None? then None else Get(cur.value, parts[i..])
    {
      if cur.None? || !cur.value.Obj? {
        return None;
      }
      assert parts[i..][1..] == parts[i + 1..];
      cur := At(cur.value.fields, parts[i]);
      i := i + 1;
    }
  }

  /** `setAtPath`: creates an object wherever the walk meets something else, then writes the last key.
      An empty path writes nothing. */
  function Set(f: Fields, p: Path, v: Json): (r: Fields)
    decreases |p|
  {
    if p == [] then f
    else if |p| == 1 then f[p[0] := v]
    else
      var child := if p[0] in f && f[p[0]].Obj? then f[p[0]].fields else map[];
      f[p[0] := Obj(Set(child, p[1..], v))]
  }

  predicate Comparable(p: Path, q: Path) {
    p <= q || q <= p
  }

  /** Writing at `p` and then reading at or below `p` reads from the value written. */
  lemma {:induction false} GetSetBelow(f: Fields, p: Path, v: Json, q: Path)
    requires p != []
    ensures Get(Obj(Set(f, p, v)), p + q) == Get(v, q)
    decreases |p|
  {
    assert (p + q)[1..] == p[1..] + q;
    if |p| == 1 {
      assert (p + q)[1..] == q;
    } else {
      var child := if p[0] in f && f[p[0]].Obj? then f[p[0]].fields else map[];
      GetSetBelow(child, p[1..], v, q);
    }
  }

  /** Every path incomparable with `p` keeps its value. */
  lemma {:induction false} GetSetElsewhere(f: Fields, p: Path, v: Json, q: Path)
    requires !Comparable(p, q)
    ensures Get(Obj(Set(f, p, v)), q) == Get(Obj(f), q)
    decreases |p|
  {
    if p[0] == q[0] {
      assert |p| == 1 ==> p <= q;
      assert |q| == 1 ==> q <= p;
      assert !Comparable(p[1..], q[1..]) by {
        assert p == [p[0]] + p[1..] && q == [q[0]] + q[1..];
      }
      var child := if p[0] in f && f[p[0]].Obj? then f[p[0]].fields else map[];
      GetSetElsewhere(child, p[1..], v, q[1..]);
    }
  }

  /** A write turns every proper prefix of its path into an object. */
  lemma {:induction false} GetSetAbove(f: Fields, p: Path, v: Json, q: Path)
    requires q < p
    ensures Get(Obj(Set(f, p, v)), q).Some? && Get(Obj(Set(f, p, v)), q).value.Obj?
    decreases |p|
  {
    if q != [] {
      assert p == [p[0]] + p[1..] && q == [q[0]] + q[1..];
      var child := if p[0] in f && f[p[0]].Obj? then f[p[0]].fields else map[];
      GetSetAbove(child, p[1..], v, q[1..]);
    }
  }

  /** Writing a value where it already stands changes nothing. */
  lemma {:induction false} SetSame(f: Fields, p: Path, v: Json)
    requires p != [] && Get(Obj(f), p) == Some(v)
    ensures Set(f, p, v) == f
    decreases |p|
  {
    if |p| > 1 {
      SetSame(f[p[0]].fields, p[1..], v);
      assert Obj(f[p[0]].fields) == f[p[0]];
    }
  }

  /** Neither undefined nor null. */
  predicate Present(v: Option<Json>) {
    v.Some? && !v.value.Null?
  }

  lemma {:induction false} GetConcat(j: Json, p: Path, q: Path)
    ensures Get(j, p + q) == match Get(j, p) case None => None case Some(v) => Get(v, q)
    decreases |p|
  {
    if p == [] {
      assert p + q == q;
    } else {
      assert (p + q)[1..] == p[1..] + q;
      if j.Obj? && p[0] in j.fields {
        GetConcat(j.fields[p[0]], p[1..], q);
      }
    }
  }
}
