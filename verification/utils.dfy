/**
 * The string helpers of lib/utils.js (duplicated for uniq, title and dbkey in
 * the root actionapi.js): random titles, DB keys and URL-path normalisation.
 */
module Utils {
  import opened Wrappers

  /** The characters `uniq` draws from. */
  const Alphabet: string := "ABCDEFGHIJKLMNOPQRSTUVWXYZabcdefghijklmnopqrstuvwxyz0123456789"

  /** The default length of `uniq()`. */
  const UniqLength := 10

  predicate AlphaNumeric(c: char) {
    ('A' <= c <= 'Z') || ('a' <= c <= 'z') || ('0' <= c <= '9')
  }

  /** The alphabet has 62 characters, all of them ASCII letters or digits. */
  lemma AlphabetIsAlphaNumeric()
    ensures |Alphabet| == 62
    ensures forall i :: 0 <= i < |Alphabet| ==> AlphaNumeric(Alphabet[i])
  {
    var upper, lower, digits := "ABCDEFGHIJKLMNOPQRSTUVWXYZ", "abcdefghijklmnopqrstuvwxyz", "0123456789";
    assert forall i :: 0 <= i < |upper| ==> AlphaNumeric(upper[i]);
    assert forall i :: 0 <= i < |lower| ==> AlphaNumeric(lower[i]);
    assert forall i :: 0 <= i < |digits| ==> AlphaNumeric(digits[i]);
    assert Alphabet == upper + lower + digits;
  }

  /**
   * `uniq(n)`: n characters, each drawn from the alphabet. The random draw
   * `Math.floor(Math.random() * 62)` is a nondeterministic index; a loop bound
   * of zero or less yields the empty string.
   */
  method Uniq(n: int) returns (r: string)
    ensures |r| == if n > 0 then n else 0
    ensures forall i :: 0 <= i < |r| ==> r[i] in Alphabet
  {
    r := "";
    var i := 0;
    while i < n
      invariant 0 <= i && (n > 0 ==> i <= n) && (n <= 0 ==> i == 0)
      invariant |r| == i
      invariant forall j :: 0 <= j < |r| ==> r[j] in Alphabet
    {
      var k :| 0 <= k < |Alphabet|;
      r := r + [Alphabet[k]];
      i := i + 1;
    }
  }

  /** `title(prefix)`: the prefix followed by `uniq()`, ten alphabet characters. */
  method Title(prefix: string) returns (r: string)
    ensures |r| == |prefix| + UniqLength
    ensures r[..|prefix|] == prefix
    ensures forall i :: |prefix| <= i < |r| ==> r[i] in Alphabet
  {
    var suffix := Uniq(UniqLength);
    r := prefix + suffix;
  }

  /** One character of `replace(/ /g, '_')`. */
  function DbKeyChar(c: char): char {
    if c == ' ' then '_' else c
  }

  /** `dbkey(title)`: every space becomes an underscore. */
  function DbKey(title: string): (r: string)
    ensures |r| == |title|
    ensures ' ' !in r
  {
    if title == [] then [] else [DbKeyChar(title[0])] + DbKey(title[1..])
  }

  /** Position by position, dbkey replaces spaces and keeps every other character. */
  lemma {:induction false} DbKeyAt(title: string, i: nat)
    requires i < |title|
    ensures title[i] == ' ' ==> DbKey(title)[i] == '_'
    ensures title[i] != ' ' ==> DbKey(title)[i] == title[i]
  {
    if i > 0 {
      DbKeyAt(title[1..], i - 1);
    }
  }

  /** A title without spaces is its own DB key. */
  lemma {:induction false} DbKeyFixesSpaceFree(title: string)
    requires ' ' !in title
    ensures DbKey(title) == title
  {
    if title != [] {
      DbKeyFixesSpaceFree(title[1..]);
    }
  }

  /** Applying dbkey twice is the same as applying it once. */
  lemma DbKeyIdempotent(title: string)
    ensures DbKey(DbKey(title)) == DbKey(title)
  {
    DbKeyFixesSpaceFree(DbKey(title));
  }

  /** `addLeadingSlash(path)`. */
  function AddLeadingSlash(path: string): (r: string)
    ensures |r| > 0 && r[0] == '/'
    ensures r == path || r == "/" + path
    ensures r == path <==> path != "" && path[0] == '/'
  {
    if path == "" then "/"
    else if path[0] != '/' then "/" + path
    else path
  }

  /** A second addLeadingSlash changes nothing. */
  lemma AddLeadingSlashIdempotent(path: string)
    ensures AddLeadingSlash(AddLeadingSlash(path)) == AddLeadingSlash(path)
  {
  }

  /** `trimTrailingSlash(path)`: removes at most one trailing slash. */
  function TrimTrailingSlash(path: string): (r: string)
    ensures r == path || r + "/" == path
    ensures r == path <==> path == "" || path[|path| - 1] != '/'
  {
    if path == "" then ""
    else if path[|path| - 1] == '/' then path[..|path| - 1]
    else path
  }

  /** `normalizePath(path, suffix)`. */
  function NormalizePath(path: string, suffix: Option<string>): (r: string)
    ensures r == "" <==> path == "/" && suffix.None?
    ensures r != "" ==> r[0] == '/'
  {
    if path == "" then "/"
    else
      var p := TrimTrailingSlash(AddLeadingSlash(path));
      if suffix.Some? then p + AddLeadingSlash(suffix.value) else p
  }

  /**
   * An empty path gives "/" whatever the suffix; otherwise the result starts
   * with '/' (or is empty, for the path "/" alone), and a given suffix is the
   * tail of the result, its own trailing slash kept.
   */
  lemma NormalizePathShape(path: string, suffix: Option<string>)
    ensures path == "" ==> NormalizePath(path, suffix) == "/"
    ensures var r := NormalizePath(path, suffix); path != "" && suffix.None? ==>
      |r| <= |path| + 1 && (r == "" || r[0] == '/')
    ensures var r := NormalizePath(path, suffix); path != "" && suffix.Some? ==>
      |r| > 0 && |r| >= |suffix.value| && r[0] == '/' && r[|r| - |suffix.value|..] == suffix.value
  {
    if path != "" {
      var a := AddLeadingSlash(path);
      TrimKeepsLeadingSlash(a);
      if suffix.Some? {
        AppendKeepsEnds(TrimTrailingSlash(a), AddLeadingSlash(suffix.value), suffix.value);
      }
    }
  }

  /** Trimming a path that starts with '/' leaves it empty or still starting with '/'. */
  lemma TrimKeepsLeadingSlash(a: string)
    requires |a| > 0 && a[0] == '/'
    ensures TrimTrailingSlash(a) == "" || TrimTrailingSlash(a)[0] == '/'
  {
    var p := TrimTrailingSlash(a);
    if p != "" && p != a {
      assert p[0] == (p + "/")[0];
    }
  }

  /** Appending s to a path that is empty or starts with '/' keeps the leading '/' of s and the tail t of s. */
  lemma AppendKeepsEnds(p: string, s: string, t: string)
    requires p == "" || p[0] == '/'
    requires |s| > 0 && |s| >= |t| && s[0] == '/' && s[|s| - |t|..] == t
    ensures |p + s| > 0 && |p + s| >= |t| && (p + s)[0] == '/' && (p + s)[|p + s| - |t|..] == t
  {
    assert (p + s)[|p + s| - |t|..] == s[|s| - |t|..];
  }

  /** A non-empty path with a suffix is the normalised path followed by the suffix with a leading slash. */
  lemma NormalizePathWithSuffix(path: string, suffix: string)
    requires path != ""
    ensures NormalizePath(path, Some(suffix)) == NormalizePath(path, None) + AddLeadingSlash(suffix)
    ensures NormalizePath(path, None) == TrimTrailingSlash(AddLeadingSlash(path))
  {
  }

  /**
   * For a path with no slash at either end, normalising wraps it in exactly one
   * leading slash, and a suffix without a leading slash is joined by one slash.
   */
  lemma NormalizePathJoin(path: string, suffix: string)
    requires path != "" && path[0] != '/' && path[|path| - 1] != '/'
    requires suffix == "" || suffix[0] != '/'
    ensures NormalizePath(path, None) == "/" + path
    ensures NormalizePath(path, Some(suffix)) == "/" + path + "/" + suffix
  {
    assert ("/" + path)[|"/" + path| - 1] == path[|path| - 1];
  }

  /** Edge cases: the root path normalises to the empty string, so normalising is not idempotent. */
  lemma NormalizePathRoot()
    ensures NormalizePath("/", None) == ""
    ensures NormalizePath(NormalizePath("/", None), None) == "/"
    ensures NormalizePath("", Some("page")) == "/"
  {
  }
}
