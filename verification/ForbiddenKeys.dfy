/** The keys that may appear nowhere in a payload or a state, and the search for them. */
module ForbiddenKeys {
  import opened Json

  const PII_KEYS: seq<string> := [
    "firstName", "lastName", "first_name", "last_name", "fullName", "full_name",
    "email", "emailAddress", "email_address", "phone", "phoneNumber", "phone_number",
    "ssn", "social_security", "socialSecurity", "birthdate", "birthday", "birth_date",
    "date_of_birth", "dateOfBirth", "dob", "address", "streetAddress", "street_address",
    "zipCode", "zip_code", "postalCode", "postal_code"]

  const SEMANTIC_KEYS: seq<string> := [
    "ui", "screen", "view", "page", "route", "url", "link", "button", "cta",
    "workflow", "task", "job", "assignment", "assignee", "owner",
    "status", "step", "stage", "completion", "progress_percent",
    "course", "lesson", "module", "quiz", "score", "grade",
    "content_id", "content_url"]

  predicate Forbidden(key: string) {
    key in PII_KEYS || key in SEMANTIC_KEYS
  }

  /** No forbidden key in the objects reached from `j` through objects. Arrays are not searched. */
  predicate Clean(j: Json) {
    j.Obj? ==> forall k | k in j.fields :: !Forbidden(k) && Clean(j.fields[k])
  }

  /** Both lists count, the personal keys and those of screens, workflows and courses. */
  lemma BothListsCount(key: string)
    ensures Forbidden(key) <==>
            (exists i :: 0 <= i < |PII_KEYS| && PII_KEYS[i] == key) ||
            (exists i :: 0 <= i < |SEMANTIC_KEYS| && SEMANTIC_KEYS[i] == key)
    ensures |PII_KEYS| == 28 && |SEMANTIC_KEYS| == 28
  {
  }

  lemma KeyAtEnd(j: Json, k: string, p: Path)
    requires j.Obj? && k in j.fields
    ensures Get(j, [k] + p) == Get(j.fields[k], p) && ([k] + p)[|[k] + p| - 1] == if p == [] then k else p[|p| - 1]
  {
    assert ([k] + p)[1..] == p;
  }

  /** What is read at the path, if anything, is not read under a forbidden key. */
  predicate EndsAllowed(j: Json, p: Path) {
    p != [] && Get(j, p).Some? ==> !Forbidden(p[|p| - 1])
  }

  lemma {:induction false} CleanPaths(j: Json, p: Path)
    requires Clean(j)
    ensures EndsAllowed(j, p)
    decreases |p|
  {
    if p != [] && Get(j, p).Some? {
      CleanPaths(j.fields[p[0]], p[1..]);
    }
  }

  lemma {:induction false} PathsClean(j: Json)
    requires forall p :: EndsAllowed(j, p)
    ensures Clean(j)
    decreases j
  {
    if j.Obj? {
      forall k | k in j.fields ensures !Forbidden(k) && Clean(j.fields[k]) {
        KeyAtEnd(j, k, []);
        assert EndsAllowed(j, [k] + []);
        forall p ensures EndsAllowed(j.fields[k], p) {
          KeyAtEnd(j, k, p);
          assert EndsAllowed(j, [k] + p);
        }
        PathsClean(j.fields[k]);
      }
    }
  }

  /** A value is clean when no path in it ends in a forbidden key. */
  lemma CleanExactly(j: Json)
    ensures Clean(j) <==> forall p :: EndsAllowed(j, p)
  {
    if Clean(j) {
      forall p ensures EndsAllowed(j, p) {
        CleanPaths(j, p);
      }
    }
    if forall p :: EndsAllowed(j, p) {
      PathsClean(j);
    }
  }

  datatype Category = Pii | Semantic

  datatype Found = Found(key: string, path: string, category: Category)

  function Join(basePath: string, p: Path): string
    decreases |p|
  {
    if p == [] then basePath else Join(basePath + "." + p[0], p[1..])
  }

  /** `found` is a forbidden key that `j` holds at `p`. */
  ghost predicate IsAt(j: Json, basePath: string, found: Found, p: Path) {
    p != [] && Get(j, p).Some? && found.key == p[|p| - 1] && found.path == Join(basePath, p) &&
    (if found.category.Pii? then found.key in PII_KEYS else found.key in SEMANTIC_KEYS && found.key !in PII_KEYS)
  }

  /** The program's search, over the keys in any order. */
  method DetectForbiddenKeys(obj: Json, basePath: string) returns (r: Option<Found>)
    ensures r.None? <==> Clean(obj)
    ensures r.Some? ==> exists p :: IsAt(obj, basePath, r.value, p)
    decreases obj
  {
    if !obj.Obj? {
      return None;
    }
    var keys := obj.fields.Keys;
    while keys != {}
      invariant keys <= obj.fields.Keys
      invariant forall k | k in obj.fields && k !in keys :: !Forbidden(k) && Clean(obj.fields[k])
    {
      var key :| key in keys;
      keys := keys - {key};
      var currentPath := basePath + "." + key;
      GetOne(obj.fields, key);
      assert Join(basePath, [key]) == Join(currentPath, []);
      if key in PII_KEYS {
        r := Some(Found(key, currentPath, Pii));
        assert IsAt(obj, basePath, r.value, [key]);
        return;
      }
      if key in SEMANTIC_KEYS {
        r := Some(Found(key, currentPath, Semantic));
        assert IsAt(obj, basePath, r.value, [key]);
        return;
      }
      var nested := DetectForbiddenKeys(obj.fields[key], currentPath);
      if nested.Some? {
        ghost var q :| IsAt(obj.fields[key], currentPath, nested.value, q);
        ghost var p := [key] + q;
        assert p[1..] == q;
        assert IsAt(obj, basePath, nested.value, p);
        return nested;
      }
    }
    r := None;
  }

  predicate EndsWith(s: string, suffix: string) {
    |suffix| <= |s| && s[|s| - |suffix|..] == suffix
  }

  const DELTA := "_delta"
  const DIRECTION := "_direction"

  /** The suffixes of delta companions. */
  predicate IsCompanion(key: string) {
    EndsWith(key, DELTA) || EndsWith(key, DIRECTION)
  }

  /** What the last characters of a companion look like, told by two of them. */
  predicate LooksLikeCompanion(s: string) {
    var n := |s|;
    (n >= 6 && s[n - 1] == 'a' && s[n - 3] == 'l') || (n >= 10 && s[n - 1] == 'n' && s[n - 5] == 'c')
  }

  lemma NoPiiLooksLikeCompanion()
    ensures forall k | k in PII_KEYS :: !LooksLikeCompanion(k)
  {
    assert forall i | 0 <= i < |PII_KEYS| :: !LooksLikeCompanion(PII_KEYS[i]);
  }

  lemma NoSemanticLooksLikeCompanion()
    ensures forall k | k in SEMANTIC_KEYS :: !LooksLikeCompanion(k)
  {
    assert forall i | 0 <= i < |SEMANTIC_KEYS| :: !LooksLikeCompanion(SEMANTIC_KEYS[i]);
  }

  lemma CompanionLooksIt(key: string)
    requires IsCompanion(key)
    ensures LooksLikeCompanion(key)
  {
    var n := |key|;
    if EndsWith(key, DELTA) {
      assert key[n - 6..][5] == 'a' && key[n - 6..][3] == 'l';
    } else {
      assert key[n - 10..][9] == 'n' && key[n - 10..][5] == 'c';
    }
  }

  /** No delta companion is a forbidden key, so the engine may add companions to a clean state. */
  lemma CompanionsAreAllowed(key: string)
    requires IsCompanion(key)
    ensures !Forbidden(key)
  {
    CompanionLooksIt(key);
    NoPiiLooksLikeCompanion();
    NoSemanticLooksLikeCompanion();
  }
}
