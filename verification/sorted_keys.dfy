/**
 * `Object.keys(o).sort()`: the default JavaScript sort compares strings
 * element by element, and a proper prefix sorts first. JavaScript compares
 * UTF-16 code units; here the elements are characters compared by code
 * point, which is the same order for every string within the Basic
 * Multilingual Plane. The keys of an object are distinct, so the sorted key
 * list is strictly ascending and is determined by the set of keys alone.
 */
module SortedKeys {

  /** The default sort order on strings, by code point. */
  predicate Less(a: string, b: string)
    decreases |a|
  {
    if a == [] then b != []
    else if b == [] then false
    else if a[0] != b[0] then a[0] < b[0]
    else Less(a[1..], b[1..])
  }

  lemma {:induction false} LessIrreflexive(a: string)
    ensures !Less(a, a)
    decreases |a|
  {
    if a != [] {
      LessIrreflexive(a[1..]);
    }
  }

  lemma {:induction false} LessAsymmetric(a: string, b: string)
    requires Less(a, b)
    ensures !Less(b, a)
    decreases |a|
  {
    if a != [] && b != [] && a[0] == b[0] {
      LessAsymmetric(a[1..], b[1..]);
    }
  }

  lemma {:induction false} LessTransitive(a: string, b: string, c: string)
    requires Less(a, b) && Less(b, c)
    ensures Less(a, c)
    decreases |a|
  {
    if a != [] && a[0] == b[0] && b[0] == c[0] {
      LessTransitive(a[1..], b[1..], c[1..]);
    }
  }

  /** Any two distinct strings are ordered one way or the other. */
  lemma {:induction false} LessTotal(a: string, b: string)
    ensures a == b || Less(a, b) || Less(b, a)
    decreases |a|
  {
    if a != [] && b != [] && a[0] == b[0] {
      LessTotal(a[1..], b[1..]);
      if a[1..] == b[1..] {
        assert a == [a[0]] + a[1..] && b == [b[0]] + b[1..];
      }
    }
  }

  /** Strictly ascending, hence without duplicates. */
  ghost predicate Ascending(s: seq<string>) {
    forall i, j :: 0 <= i < j < |s| ==> Less(s[i], s[j])
  }

  /** Inserts k into an ascending list (no change if k is already there). */
  function Insert(k: string, s: seq<string>): (r: seq<string>)
    requires Ascending(s)
    ensures Ascending(r)
    ensures forall x :: x in r <==> x == k || x in s
    decreases |s|
  {
    if s == [] then [k]
    else if Less(k, s[0]) then
      InsertFront(k, s);
      [k] + s
    else if k == s[0] then s
    else
      LessTotal(k, s[0]);
      var tail := Insert(k, s[1..]);
      assert forall x :: x in tail ==> Less(s[0], x);
      [s[0]] + tail
  }

  lemma InsertFront(k: string, s: seq<string>)
    requires Ascending(s) && s != [] && Less(k, s[0])
    ensures Ascending([k] + s)
  {
    forall j | 0 < j < |s| ensures Less(k, s[j]) {
      LessTransitive(k, s[0], s[j]);
    }
  }

  /**
   * `Object.keys(o).sort()`. The enumeration order of the keys does not
   * matter (see AscendingUnique), so each key is taken in an arbitrary order.
   */
  method SortKeys(keys: set<string>) returns (sorted: seq<string>)
    ensures Ascending(sorted)
    ensures forall k :: k in sorted <==> k in keys
  {
    sorted := [];
    var rest := keys;
    while rest != {}
      invariant Ascending(sorted)
      invariant rest <= keys
      invariant forall k :: k in keys ==> (k in sorted <==> k !in rest)
      invariant forall k :: k in sorted ==> k in keys
      decreases rest
    {
      var k :| k in rest;
      sorted := Insert(k, sorted);
      rest := rest - {k};
    }
  }

  /** The least element of an ascending list is its head. */
  lemma HeadIsLeast(s: seq<string>, x: string)
    requires Ascending(s) && x in s && x != s[0]
    ensures Less(s[0], x)
  {
  }

  /** Two ascending lists with the same elements are equal: sorting is deterministic. */
  lemma {:induction false} AscendingUnique(a: seq<string>, b: seq<string>)
    requires Ascending(a) && Ascending(b)
    requires forall x :: x in a <==> x in b
    ensures a == b
    decreases |a|
  {
    assert a != [] ==> a[0] in a;
    assert b != [] ==> b[0] in b;
    if a != [] && b != [] {
      if a[0] != b[0] {
        HeadIsLeast(a, b[0]);
        HeadIsLeast(b, a[0]);
        LessAsymmetric(a[0], b[0]);
        assert false;
      }
      forall x ensures x in a[1..] <==> x in b[1..] {
        if x in a[1..] {
          var i :| 1 <= i < |a| && a[i] == x;
          assert Less(a[0], a[i]);
          LessIrreflexive(x);
          assert x in b && x != b[0];
          assert b == [b[0]] + b[1..];
        }
        if x in b[1..] {
          var i :| 1 <= i < |b| && b[i] == x;
          assert Less(b[0], b[i]);
          LessIrreflexive(x);
          assert x in a && x != a[0];
          assert a == [a[0]] + a[1..];
        }
      }
      AscendingUnique(a[1..], b[1..]);
      assert a == [a[0]] + a[1..] && b == [b[0]] + b[1..];
    }
  }
}
