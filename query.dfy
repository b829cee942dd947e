/**
  Paging links and their query parameters (the three helpers at the top of
  cofactr/cursor.py). A paging link is a URL whose query component (section 3.4
  of RFC 3986) carries the parameters of the next or previous page fetch.

  The query is split as `urllib.parse.urlparse` and `parse_qs` split it:
  the fragment goes at the first '#', the query starts after the first '?',
  fields are separated by '&', a field without '=' or with an empty value is
  dropped, and a name that repeats collects its values in order.
 */
module Query {
  import opened Json

  /** Index of the first `c` in `s`, or `|s|` when there is none. */
  function Find(s: string, c: char): (k: nat)
    ensures k <= |s|
  {
    if s == [] then 0
    else if s[0] == c then 0
    else Find(s[1..], c) + 1
  }

  /** `Find` stops at the first `c`, and only there. */
  lemma {:induction false} FindFirst(s: string, c: char)
    ensures c !in s[..Find(s, c)]
    ensures Find(s, c) < |s| <==> c in s
    ensures Find(s, c) < |s| ==> s[Find(s, c)] == c
  {
    if s != [] && s[0] != c {
      FindFirst(s[1..], c);
      assert s[..Find(s, c)] == [s[0]] + s[1..][..Find(s[1..], c)];
      assert s == [s[0]] + s[1..];
    }
  }

  /** `s.split(sep)`. */
  function Split(s: string, sep: char): (parts: seq<string>)
    ensures |parts| >= 1
    decreases |s|
  {
    if s == [] then [""]
    else
      var rest := Split(s[1..], sep);
      if s[0] == sep then [""] + rest
      else [[s[0]] + rest[0]] + rest[1..]
  }

  /** `sep.join(parts)`. */
  function Join(parts: seq<string>, sep: char): string
    requires |parts| >= 1
  {
    if |parts| == 1 then parts[0] else parts[0] + [sep] + Join(parts[1..], sep)
  }

  /** Splitting cuts at every separator and nowhere else: joining the parts gives `s` back. */
  lemma {:induction false} SplitJoin(s: string, sep: char)
    ensures forall k :: 0 <= k < |Split(s, sep)| ==> sep !in Split(s, sep)[k]
    ensures Join(Split(s, sep), sep) == s
    decreases |s|
  {
    if s != [] {
      var rest := Split(s[1..], sep);
      SplitJoin(s[1..], sep);
      var parts := Split(s, sep);
      if s[0] == sep {
        assert parts[1..] == rest;
      } else {
        assert parts[1..] == rest[1..];
      }
      assert s == [s[0]] + s[1..];
    }
  }

  /**
    The query component of a link. A missing link (`None`) is falsy, and
    `urlparse` coerces a falsy argument to the empty string.
   */
  function QueryOf(link: Option<string>): string
  {
    match link
    case None => ""
    case Some(url) =>
      var beforeFragment := url[..Find(url, '#')];
      var k := Find(beforeFragment, '?');
      if k < |beforeFragment| then beforeFragment[k + 1..] else ""
  }

  /** The query of a missing link, or of one without '?', is empty; a query never holds '#'. */
  lemma QueryOfSpec(link: Option<string>)
    ensures link.None? ==> QueryOf(link) == ""
    ensures link.Some? && '?' !in link.value ==> QueryOf(link) == ""
    ensures link.Some? ==> '#' !in QueryOf(link)
  {
    if link.Some? {
      var url := link.value;
      var beforeFragment := url[..Find(url, '#')];
      FindFirst(url, '#');
      FindFirst(beforeFragment, '?');
      var k := Find(beforeFragment, '?');
      if '?' !in url {
        assert '?' !in beforeFragment;
      }
      if k < |beforeFragment| {
        assert forall c | c in beforeFragment[k + 1..] :: c in beforeFragment;
      }
    }
  }

  /** One `name=value` field as `parse_qsl` keeps it (blank values dropped). */
  function Field(f: string): Option<(string, string)>
  {
    var k := Find(f, '=');
    if k == |f| || f[k + 1..] == "" then None
    else Some((f[..k], f[k + 1..]))
  }

  /** A field is dropped exactly when it has no '=' or nothing follows its first '='. */
  lemma FieldDropped(f: string)
    ensures Field(f).None? <==> '=' !in f || Find(f, '=') == |f| - 1
  {
    FindFirst(f, '=');
  }

  /** A kept field splits at its first '=' into a name and a non-empty value. */
  lemma FieldKept(f: string)
    requires Field(f).Some?
    ensures Field(f).value.1 != ""
    ensures f == Field(f).value.0 + "=" + Field(f).value.1
    ensures '=' !in Field(f).value.0
  {
    FindFirst(f, '=');
    var k := Find(f, '=');
    assert f[..k + 1] == f[..k] + "=";
    assert f == f[..k + 1] + f[k + 1..];
  }

  /** The fields that survive, in order. */
  function FieldsToPairs(fields: seq<string>): seq<(string, string)>
  {
    if fields == [] then []
    else
      match Field(fields[0])
      case Some(p) => [p] + FieldsToPairs(fields[1..])
      case None => FieldsToPairs(fields[1..])
  }

  /** `parse_qsl(query)`: the `(name, value)` pairs of a query, in order. */
  function Pairs(query: string): seq<(string, string)>
  {
    FieldsToPairs(Split(query, '&'))
  }

  /** The names that occur in `pairs`. */
  function Names(pairs: seq<(string, string)>): set<string>
  {
    set p | p in pairs :: p.0
  }

  /** The values given to `name`, in the order they occur. */
  function ValuesOf(pairs: seq<(string, string)>, name: string): seq<string>
  {
    if pairs == [] then []
    else
      var last := pairs[|pairs| - 1];
      ValuesOf(pairs[..|pairs| - 1], name) + (if last.0 == name then [last.1] else [])
  }

  /**
    `parse_qs`: every name that occurs, with the list of its values, built the
    way `parse_qs` builds it (one append per pair, in order).
   */
  function Group(pairs: seq<(string, string)>): (g: map<string, seq<string>>)
    ensures forall n :: n in g ==> g[n] != []
  {
    if pairs == [] then map[]
    else
      var g := Group(pairs[..|pairs| - 1]);
      var last := pairs[|pairs| - 1];
      g[last.0 := (if last.0 in g then g[last.0] else []) + [last.1]]
  }

  /** The groups are exactly the names of `pairs`, each with all its values in order. */
  lemma {:induction false} GroupSpec(pairs: seq<(string, string)>)
    ensures Group(pairs).Keys == Names(pairs)
    ensures forall n :: n in Group(pairs) ==> Group(pairs)[n] == ValuesOf(pairs, n)
  {
    if pairs != [] {
      var init := pairs[..|pairs| - 1];
      var last := pairs[|pairs| - 1];
      assert init + [last] == pairs;
      GroupSpec(init);
      NamesSnoc(init, last);
      var g := Group(init);
      forall n | n in Group(pairs) ensures Group(pairs)[n] == ValuesOf(pairs, n) {
        ValuesOfSnoc(init, last, n);
        if n == last.0 && n !in g {
          NoValuesBefore(init, n);
        }
      }
    }
  }

  lemma ValuesOfSnoc(init: seq<(string, string)>, last: (string, string), name: string)
    ensures ValuesOf(init + [last], name)
            == ValuesOf(init, name) + (if last.0 == name then [last.1] else [])
  {
    assert (init + [last])[..|init|] == init;
  }

  lemma NamesSnoc(init: seq<(string, string)>, last: (string, string))
    ensures Names(init + [last]) == Names(init) + {last.0}
  {
    var pairs := init + [last];
    forall n | n in Names(pairs) ensures n in Names(init) + {last.0} {
      var p :| p in pairs && p.0 == n;
      if p != last { assert p in init; }
    }
    forall n | n in Names(init) ensures n in Names(pairs) {
      var p :| p in init && p.0 == n;
      assert p in pairs;
    }
    assert last in pairs;
  }

  /** `pairs[j]` is the first pair with its name. */
  predicate FirstOccurrence(pairs: seq<(string, string)>, j: int)
  {
    0 <= j < |pairs| && pairs[j].0 !in Names(pairs[..j])
  }

  /** Pairs before the first occurrence of a name contribute no values for it. */
  lemma {:induction false} NoValuesBefore(pairs: seq<(string, string)>, name: string)
    requires name !in Names(pairs)
    ensures ValuesOf(pairs, name) == []
  {
    if pairs != [] {
      var init := pairs[..|pairs| - 1];
      assert Names(init) <= Names(pairs) by {
        forall p | p in init ensures p in pairs { }
      }
      assert pairs[|pairs| - 1] in pairs;
      NoValuesBefore(init, name);
    }
  }

  /** The values of a prefix are a prefix of the values. */
  lemma {:induction false} ValuesOfPrefix(pairs: seq<(string, string)>, m: nat, name: string)
    requires m <= |pairs|
    ensures ValuesOf(pairs[..m], name) <= ValuesOf(pairs, name)
    decreases |pairs| - m
  {
    if m < |pairs| {
      var init := pairs[..|pairs| - 1];
      assert init[..m] == pairs[..m];
      ValuesOfPrefix(init, m, name);
    } else {
      assert pairs[..m] == pairs;
    }
  }

  /** The first value given to a name is the value of its first occurrence. */
  lemma FirstValueWins(pairs: seq<(string, string)>, j: int)
    requires FirstOccurrence(pairs, j)
    ensures ValuesOf(pairs, pairs[j].0) != []
    ensures ValuesOf(pairs, pairs[j].0)[0] == pairs[j].1
  {
    var name := pairs[j].0;
    NoValuesBefore(pairs[..j], name);
    assert pairs[..j + 1][..j] == pairs[..j];
    assert ValuesOf(pairs[..j + 1], name) == [pairs[j].1];
    ValuesOfPrefix(pairs, j + 1, name);
  }

  /** `params` holds one value per name of `pairs`: that of the name's first occurrence. */
  ghost predicate FirstWins(params: map<string, string>, pairs: seq<(string, string)>)
  {
    && params.Keys == Names(pairs)
    && forall j {:trigger FirstOccurrence(pairs, j)} ::
         0 <= j < |pairs| && FirstOccurrence(pairs, j) ==> params[pairs[j].0] == pairs[j].1
  }

  /** The parameters of a link's query, in order, repeats included. */
  function LinkPairs(link: Option<string>): seq<(string, string)>
  {
    Pairs(QueryOf(link))
  }

  /**
    `parse_query_params`: one string per parameter name of the link's query; when
    a name repeats, its first occurrence wins.
   */
  function ParseQueryParams(link: Option<string>): (params: map<string, string>)
    ensures params.Keys == Names(LinkPairs(link))
  {
    var g := Group(LinkPairs(link));
    GroupSpec(LinkPairs(link));
    map n | n in g :: g[n][0]
  }

  /** Each parameter name of the link maps to the value of its first occurrence. */
  lemma ParseQueryParamsFirstWins(link: Option<string>)
    ensures FirstWins(ParseQueryParams(link), LinkPairs(link))
  {
    var pairs := LinkPairs(link);
    var params := ParseQueryParams(link);
    GroupSpec(pairs);
    forall j | FirstOccurrence(pairs, j) ensures params[pairs[j].0] == pairs[j].1 {
      FirstValueWins(pairs, j);
    }
  }

  /** A missing link, or one without a query, parses to no parameters. */
  lemma EmptyLinkHasNoParams(link: Option<string>)
    requires link.None? || '?' !in link.value
    ensures ParseQueryParams(link) == map[]
  {
    QueryOfSpec(link);
    assert Split("", '&') == [""];
    assert Field("") == None;
  }

  /** The parsed paging links of a page: exactly a `previous` and a `next` map. */
  datatype PagingParams = PagingParams(previous: map<string, string>, next: map<string, string>)

  /**
    `parse_paging_data`: both links are required (`KeyError` otherwise), and each
    is parsed on its own.
   */
  function ParsePagingData(paging: map<string, Option<string>>): (r: Result<PagingParams>)
    ensures r.Ok? <==> "previous" in paging && "next" in paging
    ensures r.Err? ==> r.error == KeyError
    ensures r.Ok? ==> (r.value.previous == ParseQueryParams(paging["previous"])
                       && r.value.next == ParseQueryParams(paging["next"]))
  {
    if "previous" in paging && "next" in paging then
      Ok(PagingParams(ParseQueryParams(paging["previous"]), ParseQueryParams(paging["next"])))
    else
      Err(KeyError)
  }

  /** `sys.maxsize` on a 64-bit interpreter: the largest stop `islice` accepts. */
  const MaxSize: int := 0x7FFF_FFFF_FFFF_FFFF

  /** `islice` refuses a stop that is negative or above `sys.maxsize`. */
  predicate BadStop(i: Option<int>)
  {
    i.Some? && (i.value < 0 || i.value > MaxSize)
  }

  /**
    `first(xs, i)`, that is `list(islice(xs, None, i))`: the prefix of length
    `min(i, |xs|)`, all of `xs` when `i` is `None`, and `ValueError` for a
    stop `islice` refuses.
   */
  function First<T>(xs: seq<T>, i: Option<int>): (r: Result<seq<T>>)
    ensures r.Err? <==> BadStop(i)
    ensures r.Err? ==> r.error == ValueError
    ensures r.Ok? ==> r.value <= xs
    ensures r.Ok? && i.Some? ==> |r.value| == if i.value < |xs| then i.value else |xs|
    ensures r.Ok? && i.None? ==> r.value == xs
  {
    match i
    case None => Ok(xs)
    case Some(n) =>
      if n < 0 || n > MaxSize then Err(ValueError)
      else if n < |xs| then Ok(xs[..n])
      else Ok(xs)
  }

  /** Taking `i` and then `j` items is taking `min(i, j)` items. */
  lemma FirstOfFirst<T>(xs: seq<T>, i: nat, j: nat)
    requires i <= MaxSize && j <= MaxSize
    ensures First(xs, Some(i)).Ok? && First(First(xs, Some(i)).value, Some(j))
            == First(xs, Some(if i < j then i else j))
  {
    if i < |xs| && j <= i {
      assert xs[..i][..j] == xs[..j];
    }
  }
}
