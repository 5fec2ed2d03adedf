/**
 * The pure half of the Client's `prop` query: joining multi-valued
 * parameters with '|', and keying the returned pages by the title the
 * caller asked for, undoing the server's title normalisation.
 */
module PageTitles {
  import opened Js
  import opened Assoc

  const Pipe := '|'

  /** `xs.join(sep)`. */
  function Join(xs: seq<string>, sep: char): (r: string)
    ensures xs == [] ==> r == ""
    ensures |xs| == 1 ==> r == xs[0]
    ensures |xs| > 1 ==> |r| > |xs[0]| && r[..|xs[0]| + 1] == xs[0] + [sep]
  {
    if xs == [] then ""
    else if |xs| == 1 then xs[0]
    else xs[0] + [sep] + Join(xs[1..], sep)
  }

  /** `s.split(sep)`: the pieces between separators (one piece when there is none). */
  function Split(s: string, sep: char): (r: seq<string>)
    ensures |r| > 0
    ensures forall i :: 0 <= i < |r| ==> sep !in r[i]
  {
    if s == [] then [""]
    else
      var rest := Split(s[1..], sep);
      if s[0] == sep then [""] + rest
      else [[s[0]] + rest[0]] + rest[1..]
  }

  /** Joining what was split gives the string back. */
  lemma {:induction false} JoinSplit(s: string, sep: char)
    ensures Join(Split(s, sep), sep) == s
  {
    if s != [] {
      var rest := Split(s[1..], sep);
      JoinSplit(s[1..], sep);
      if s[0] == sep {
        assert Split(s, sep) == [""] + rest;
        assert ([""] + rest)[1..] == rest;
      } else {
        JoinConsChar(s[0], rest, sep);
      }
      assert s == [s[0]] + s[1..];
    }
  }

  lemma JoinConsChar(c: char, rest: seq<string>, sep: char)
    requires |rest| > 0
    ensures Join([[c] + rest[0]] + rest[1..], sep) == [c] + Join(rest, sep)
  {
    var xs := [[c] + rest[0]] + rest[1..];
    assert xs[1..] == rest[1..];
  }

  /** Splitting what was joined gives the list back, when no element holds the separator. */
  lemma {:induction false} SplitJoin(xs: seq<string>, sep: char)
    requires xs != []
    requires forall i :: 0 <= i < |xs| ==> sep !in xs[i]
    ensures Split(Join(xs, sep), sep) == xs
    decreases |xs|
  {
    if |xs| == 1 {
      SplitNoSep(xs[0], sep);
    } else {
      SplitJoin(xs[1..], sep);
      SplitAfterPiece(xs[0], Join(xs[1..], sep), sep);
      assert xs == [xs[0]] + xs[1..];
    }
  }

  lemma {:induction false} SplitNoSep(x: string, sep: char)
    requires sep !in x
    ensures Split(x, sep) == [x]
  {
    if x != [] {
      SplitNoSep(x[1..], sep);
      assert x == [x[0]] + x[1..];
    }
  }

  lemma {:induction false} SplitAfterPiece(x: string, s: string, sep: char)
    requires sep !in x
    ensures Split(x + [sep] + s, sep) == [x] + Split(s, sep)
  {
    if x == [] {
      assert x + [sep] + s == [sep] + s;
      assert ([sep] + s)[1..] == s;
    } else {
      var t := x + [sep] + s;
      assert t[0] == x[0] && t[1..] == x[1..] + [sep] + s;
      SplitAfterPiece(x[1..], s, sep);
      assert [x[0]] + x[1..] == x;
    }
  }

  /** A `prop` or `titles` argument: a string, or a list joined with '|'. */
  datatype StrOrList = Text(s: string) | List(items: seq<string>)

  /** `typeof v === 'string' ? v : v.join('|')`. */
  function Joined(v: StrOrList): string {
    match v
    case Text(s) => s
    case List(items) => Join(items, Pipe)
  }

  /** The query parameters of `prop`: the joined prop and titles, overridden by the caller's params. */
  function PropParams(prop: StrOrList, titles: StrOrList, params: Object): (r: Object)
    ensures forall k :: k in r <==> k == "prop" || k == "titles" || k in params
    ensures forall k :: k in params ==> r[k] == params[k]
    ensures "prop" !in params ==> r["prop"] == Str(Joined(prop))
    ensures "titles" !in params ==> r["titles"] == Str(Joined(titles))
  {
    map["prop" := Str(Joined(prop)), "titles" := Str(Joined(titles))] + params
  }

  /** One entry of `query.normalized`: the title as asked and as the server normalised it. */
  datatype Normalization = Normalization(from: string, to: string)

  /** One entry of `query.pages` in enumeration order: the page's title and its whole record. */
  datatype PageEntry = PageEntry(title: string, record: Value)

  function NamePairs(normalized: seq<Normalization>): (ps: seq<(string, string)>)
    ensures |ps| == |normalized|
    ensures forall i :: 0 <= i < |ps| ==> ps[i] == (normalized[i].to, normalized[i].from)
  {
    seq(|normalized|, i requires 0 <= i < |normalized| => (normalized[i].to, normalized[i].from))
  }

  /** The `names` object: normalised title to the title as asked (a later entry wins). */
  function Names(normalized: seq<Normalization>): map<string, string> {
    FromPairs(NamePairs(normalized))
  }

  /**
   * The title as asked, if the server normalised it, otherwise the title
   * itself. `names` holds its own keys only: the names an object inherits
   * from Object.prototype are not modelled.
   */
  function Denormalize(names: map<string, string>, title: string): (r: string)
    ensures title !in names ==> r == title
    ensures r == title || r in names.Values
  {
    if title in names then names[title] else title
  }

  function PagePairs(names: map<string, string>, pages: seq<PageEntry>): (ps: seq<(string, Value)>)
    ensures |ps| == |pages|
    ensures forall i :: 0 <= i < |ps| ==> ps[i] == (Denormalize(names, pages[i].title), pages[i].record)
  {
    seq(|pages|, i requires 0 <= i < |pages| => (Denormalize(names, pages[i].title), pages[i].record))
  }

  /**
   * The two loops of `prop`: collect the normalisations into `names`, then
   * store every page under its de-normalised title.
   */
  method KeyPagesByTitle(normalized: seq<Normalization>, pages: seq<PageEntry>) returns (r: map<string, Value>)
    ensures r == FromPairs(PagePairs(Names(normalized), pages))
  {
    var names: map<string, string> := map[];
    for i := 0 to |normalized|
      invariant names == FromPairs(NamePairs(normalized)[..i])
    {
      FromPairsSnoc(NamePairs(normalized), i);
      names := names[normalized[i].to := normalized[i].from];
    }
    assert NamePairs(normalized)[..|normalized|] == NamePairs(normalized);
    r := map[];
    for i := 0 to |pages|
      invariant r == FromPairs(PagePairs(names, pages)[..i])
    {
      FromPairsSnoc(PagePairs(names, pages), i);
      var title := pages[i].title;
      if title in names {
        title := names[title];
      }
      r := r[title := pages[i].record];
    }
    assert PagePairs(names, pages)[..|pages|] == PagePairs(names, pages);
  }

  /** A title the server did not normalise is its own key; a normalised one maps back to its last `from`. */
  lemma DenormalizeSpec(normalized: seq<Normalization>, title: string)
    ensures (forall i :: 0 <= i < |normalized| ==> normalized[i].to != title) ==>
      Denormalize(Names(normalized), title) == title
    ensures forall i ::
      (0 <= i < |normalized| && normalized[i].to == title &&
       (forall j :: i < j < |normalized| ==> normalized[j].to != title)) ==>
      Denormalize(Names(normalized), title) == normalized[i].from
  {
    FromPairsKeys(NamePairs(normalized));
    forall i | 0 <= i < |normalized| && normalized[i].to == title &&
      (forall j :: i < j < |normalized| ==> normalized[j].to != title)
      ensures Denormalize(Names(normalized), title) == normalized[i].from
    {
      FromPairsLastWins(NamePairs(normalized), i);
    }
  }

  /**
   * The keys of prop's result are the de-normalised titles of the returned
   * pages, and each holds the record of the last page with that key.
   */
  lemma KeyPagesSpec(names: map<string, string>, pages: seq<PageEntry>)
    ensures forall t :: t in FromPairs(PagePairs(names, pages)) <==>
      exists i :: 0 <= i < |pages| && Denormalize(names, pages[i].title) == t
    ensures forall i ::
      (0 <= i < |pages| &&
       (forall j :: i < j < |pages| ==> Denormalize(names, pages[j].title) != Denormalize(names, pages[i].title))) ==>
      FromPairs(PagePairs(names, pages))[Denormalize(names, pages[i].title)] == pages[i].record
  {
    var ps := PagePairs(names, pages);
    FromPairsKeys(ps);
    forall t ensures t in FromPairs(ps) <==> exists i :: 0 <= i < |pages| && Denormalize(names, pages[i].title) == t {
      if t in FromPairs(ps) {
        var i :| 0 <= i < |ps| && ps[i].0 == t;
        assert Denormalize(names, pages[i].title) == t;
      }
      if exists i :: 0 <= i < |pages| && Denormalize(names, pages[i].title) == t {
        var i :| 0 <= i < |pages| && Denormalize(names, pages[i].title) == t;
        assert ps[i].0 == t;
      }
    }
    forall i | 0 <= i < |pages| &&
      (forall j :: i < j < |pages| ==> Denormalize(names, pages[j].title) != Denormalize(names, pages[i].title))
      ensures FromPairs(ps)[Denormalize(names, pages[i].title)] == pages[i].record
    {
      FromPairsLastWins(ps, i);
    }
  }
}
