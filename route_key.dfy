/**
  The route key normaliser `getKey(verb, path)`: it turns an HTTP method and a
  URL path into the one string under which a route without path variables is
  stored and looked up. Lower-casing is modelled on ASCII letters.
 */
module RouteKey {

  predicate IsUpperAscii(c: char) { 'A' <= c <= 'Z' }

  predicate IsLowerAscii(c: char) { 'a' <= c <= 'z' }

  function LowerChar(c: char): char
  {
    if IsUpperAscii(c) then (c as int - 'A' as int + 'a' as int) as char else c
  }

  function UpperChar(c: char): char
  {
    if IsLowerAscii(c) then (c as int - 'a' as int + 'A' as int) as char else c
  }

  /** `s.toLowerCase()`, on ASCII letters. */
  function Lower(s: string): (r: string)
    ensures |r| == |s|
    ensures forall i :: 0 <= i < |s| ==> r[i] == LowerChar(s[i])
  {
    if s == [] then [] else [LowerChar(s[0])] + Lower(s[1..])
  }

  /** `s.toUpperCase()`, on ASCII letters. */
  function Upper(s: string): (r: string)
    ensures |r| == |s|
    ensures forall i :: 0 <= i < |s| ==> r[i] == UpperChar(s[i])
  {
    if s == [] then [] else [UpperChar(s[0])] + Upper(s[1..])
  }

  /** The verb part of a key: `(verb && verb.toLowerCase()) || 'get'`. */
  function NormalizeVerb(verb: string): (r: string)
    ensures r != []
    ensures verb == [] ==> r == "get"
    ensures verb != [] ==> |r| == |verb| && forall i :: 0 <= i < |r| ==> r[i] == LowerChar(verb[i])
    ensures forall i :: 0 <= i < |r| ==> !IsUpperAscii(r[i])
  {
    if verb == [] then "get" else Lower(verb)
  }

  /** A path that normalisation leaves as it is: it starts with `/` and is
      either the root or does not end with `/`. */
  predicate IsNormalPath(p: string)
  {
    p != [] && p[0] == '/' && (p == "/" || p[|p| - 1] != '/')
  }

  /** The path part of a key: an empty path becomes `/`, a missing leading `/`
      is added, and one trailing `/` is removed unless the path is `/`. */
  function NormalizePath(path: string): (r: string)
    ensures r != [] && r[0] == '/'
    ensures |r| <= |path| + 1
    ensures IsNormalPath(path) ==> r == path
  {
    var p := if path == [] then "/" else path;
    var p := if p[0] == '/' then p else "/" + p;
    if p != "/" && p[|p| - 1] == '/' then p[..|p| - 1] else p
  }

  /** `getKey(verb, path)`: `"/" + verb + path` after normalising both. The
      key always starts with `/`, the lower-cased verb and then `/`; only for
      a verb without `/` is that second `/` the start of the path part. */
  function GetKey(verb: string, path: string): (key: string)
    ensures |key| > |NormalizeVerb(verb)| + 1
    ensures key[..|NormalizeVerb(verb)| + 2] == "/" + NormalizeVerb(verb) + "/"
    ensures key[0] == '/' && forall i :: 1 <= i <= |NormalizeVerb(verb)| ==> !IsUpperAscii(key[i])
  {
    "/" + NormalizeVerb(verb) + NormalizePath(path)
  }

  // ---------------------------------------------------------------------------
  // Verb normalisation

  /** The verb is case-insensitive: upper-casing it does not change the key. */
  lemma VerbCaseInsensitive(verb: string, path: string)
    ensures GetKey(Upper(verb), path) == GetKey(verb, path)
  {
    assert forall i :: 0 <= i < |verb| ==> LowerChar(UpperChar(verb[i])) == LowerChar(verb[i]);
    assert NormalizeVerb(Upper(verb)) == NormalizeVerb(verb);
  }

  /** A missing verb means GET. */
  lemma EmptyVerbIsGet(path: string)
    ensures GetKey("", path) == GetKey("GET", path) == GetKey("get", path)
  {
  }

  /** Keys of two verbs agree on the verb part exactly when the verbs agree
      letter by letter ignoring ASCII case (non-empty verbs). */
  lemma VerbPartIffSameIgnoringCase(v1: string, v2: string)
    requires v1 != [] && v2 != []
    ensures NormalizeVerb(v1) == NormalizeVerb(v2) <==>
            |v1| == |v2| && forall i :: 0 <= i < |v1| ==> LowerChar(v1[i]) == LowerChar(v2[i])
  {
  }

  // ---------------------------------------------------------------------------
  // Path normalisation

  /** A missing leading `/` does not change the key. */
  lemma LeadingSlashInsensitive(verb: string, path: string)
    requires path == [] || path[0] != '/'
    ensures GetKey(verb, "/" + path) == GetKey(verb, path)
  {
  }

  /** One trailing `/` does not change the key. */
  lemma TrailingSlashInsensitive(verb: string, path: string)
    requires path == [] || path[|path| - 1] != '/'
    ensures GetKey(verb, path + "/") == GetKey(verb, path)
  {
  }

  /** Exactly one trailing `/` is removed from a path that starts with `/`. */
  lemma StripsExactlyOne(p: string)
    requires p != [] && p[0] == '/'
    ensures NormalizePath(p + "/") == p
  {
    assert (p + "/")[..|p|] == p;
  }

  /** Only one trailing `/` is removed: `a//` keeps one of its slashes, so
      `a/` and `a//` have different keys. */
  lemma OnlyOneTrailingSlashRemoved()
    ensures GetKey("GET", "a//") == "/get/a/"
    ensures GetKey("GET", "a/") == "/get/a"
    ensures GetKey("GET", "a/") != GetKey("GET", "a//")
  {
    assert Lower("GET") == "get";
  }

  /** The path keeps its case: `/Items/` and `/items` have different keys. */
  lemma PathCaseSensitive()
    ensures GetKey("get", "/Items/") == GetKey("GET", "/Items") == "/get/Items"
    ensures GetKey("get", "/Items/") != GetKey("GET", "/items")
  {
    assert NormalizeVerb("GET") == NormalizeVerb("get") == "get";
    assert NormalizePath("/Items/") == NormalizePath("/Items") == "/Items" by {
      assert "/Items/"[..6] == "/Items";
    }
    assert NormalizePath("/items") == "/items";
    assert "/get/Items"[5] != "/get/items"[5];
  }

  // ---------------------------------------------------------------------------
  // No collision between the verb and the path

  lemma LowerKeepsSlashes(s: string)
    ensures '/' in Lower(s) <==> '/' in s
  {
  }

  /** The position of the first `/` in `s`, or `|s|` when there is none. */
  function IndexOfSlash(s: string): (i: nat)
    ensures i <= |s|
    ensures i < |s| ==> s[i] == '/'
    ensures forall j :: 0 <= j < i ==> s[j] != '/'
  {
    if s == [] then 0 else if s[0] == '/' then 0 else 1 + IndexOfSlash(s[1..])
  }

  /** Reads a key back into its verb part and its path part, splitting after
      the leading `/` at the next `/`. */
  function SplitKey(key: string): (parts: (string, string))
    requires key != []
  {
    var rest := key[1..];
    var i := IndexOfSlash(rest);
    (rest[..i], rest[i..])
  }

  lemma {:induction false} IndexOfSlashAfter(v: string, p: string)
    requires '/' !in v && p != [] && p[0] == '/'
    ensures IndexOfSlash(v + p) == |v|
  {
    if v != [] {
      assert (v + p)[1..] == v[1..] + p;
      IndexOfSlashAfter(v[1..], p);
    }
  }

  /** For a verb without `/` (every HTTP method token), the key can be read
      back into the normalised verb and the normalised path. */
  lemma SplitKeyOfGetKey(verb: string, path: string)
    requires '/' !in verb
    ensures SplitKey(GetKey(verb, path)) == (NormalizeVerb(verb), NormalizePath(path))
  {
    var v, p := NormalizeVerb(verb), NormalizePath(path);
    LowerKeepsSlashes(verb);
    assert GetKey(verb, path)[1..] == v + p;
    IndexOfSlashAfter(v, p);
    assert (v + p)[..|v|] == v;
    assert (v + p)[|v|..] == p;
  }

  /** For verbs without `/`, two keys are equal exactly when their verbs and
      their paths normalise to the same thing. */
  lemma GetKeyInjective(v1: string, p1: string, v2: string, p2: string)
    requires '/' !in v1 && '/' !in v2
    ensures GetKey(v1, p1) == GetKey(v2, p2) <==>
            NormalizeVerb(v1) == NormalizeVerb(v2) && NormalizePath(p1) == NormalizePath(p2)
  {
    SplitKeyOfGetKey(v1, p1);
    SplitKeyOfGetKey(v2, p2);
  }

  /** Without the restriction on `/` keys do collide. */
  lemma VerbWithSlashCollides()
    ensures GetKey("a/b", "c") == GetKey("a", "b/c") == "/a/b/c"
  {
  }
}
