/** The parts of Python's `urllib.parse` the URL helpers rely on:
    `urlparse`/`geturl` for a URL and `parse_qs`/`urlencode(doseq=True)`
    for its query string.  Percent-encoding is the identity here: a key or
    value is kept as the characters it is written with. */
module QueryStrings {
  import opened Errors
  import opened Text

  type Pair = (string, string)

  /** What `parse_qs` returns: each key once, in order of first appearance,
      with every value it was given, in order. */
  type Query = seq<(string, seq<string>)>

  function Keys(d: Query): (r: seq<string>)
    ensures |r| == |d|
    ensures forall i :: 0 <= i < |d| ==> r[i] == d[i].0
  {
    if d == [] then [] else [d[0].0] + Keys(d[1..])
  }

  /** One `name=value` piece of a query: `None` when it has no `=` or its
      value is blank (`parse_qsl` skips those unless asked to keep them). */
  function ParsePiece(p: string): (r: Option<Pair>)
    ensures r.Some? ==> p == r.value.0 + "=" + r.value.1
    ensures r.Some? ==> '=' !in r.value.0 && r.value.1 != ""
    ensures r.None? <==> '=' !in p || Partition(p, '=').2 == ""
  {
    var (name, found, value) := Partition(p, '=');
    if found && value != "" then Some((name, value)) else None
  }

  function ParsePieces(ps: seq<string>): seq<Pair>
  {
    if ps == [] then []
    else
      var head := ParsePiece(ps[0]);
      (if head.Some? then [head.value] else []) + ParsePieces(ps[1..])
  }

  /** `parse_qsl(q)`: the `name=value` pieces between `&`s, in order. */
  function ParseQsl(q: string): seq<Pair>
  {
    ParsePieces(Split(q, '&'))
  }

  /** Appends `v` to the values of the entry for `k`. */
  function AppendValue(d: Query, k: string, v: string): (r: Query)
    ensures |r| == |d|
    ensures forall i :: 0 <= i < |d| ==> r[i] == (if d[i].0 == k then (k, d[i].1 + [v]) else d[i])
  {
    if d == [] then []
    else [if d[0].0 == k then (k, d[0].1 + [v]) else d[0]] + AppendValue(d[1..], k, v)
  }

  /** One step of `parse_qs`'s dictionary building: a known key gets one
      more value, a new key a new entry at the end. */
  function Add(d: Query, p: Pair): (r: Query)
  {
    if p.0 in Keys(d) then AppendValue(d, p.0, p.1) else d + [(p.0, [p.1])]
  }

  function Group(ps: seq<Pair>): Query
  {
    if ps == [] then [] else Add(Group(ps[..|ps| - 1]), ps[|ps| - 1])
  }

  /** `parse_qs(q)`: for a query without fragment, distinct keys, each
      with at least one value, none holding a separator. */
  function ParseQs(q: string): (r: Query)
    ensures '#' !in q ==> WellFormed(r)
  {
    if '#' !in q then
      SplitKeepsOut(q, '&', '#');
      ParsePiecesValid(Split(q, '&'));
      GroupWellFormed(ParseQsl(q));
      Group(ParseQsl(q))
    else Group(ParseQsl(q))
  }

  /** `d.get(k)`: the values of key `k`, if it is present. */
  function Get(d: Query, k: string): (r: Option<seq<string>>)
    ensures r.Some? <==> k in Keys(d)
    ensures r.Some? ==> exists i :: 0 <= i < |d| && d[i] == (k, r.value)
  {
    if d == [] then None
    else if d[0].0 == k then Some(d[0].1)
    else
      var t := Get(d[1..], k);
      assert t.Some? ==> exists i :: 0 <= i < |d[1..]| && d[1..][i] == (k, t.value);
      t
  }

  /** `d.pop(k, None)`: `d` without the entry for `k`. */
  function Pop(d: Query, k: string): (r: Query)
    ensures k !in Keys(r)
    ensures |r| <= |d|
  {
    if d == [] then []
    else (if d[0].0 == k then [] else [d[0]]) + Pop(d[1..], k)
  }

  /** `pop` keeps exactly the entries for other keys. */
  lemma {:induction false} PopMembers(d: Query, k: string)
    ensures forall e :: e in Pop(d, k) <==> e in d && e.0 != k
  {
    if d != [] {
      PopMembers(d[1..], k);
      assert d == [d[0]] + d[1..];
    }
  }

  /** The pieces `urlencode(d, doseq=True)` joins with `&`: one `key=value`
      per value, key by key. */
  function PieceStrings(k: string, vs: seq<string>): seq<string>
  {
    if vs == [] then [] else PieceStrings(k, vs[..|vs| - 1]) + [k + "=" + vs[|vs| - 1]]
  }

  function EncodePieces(d: Query): seq<string>
  {
    if d == [] then [] else EncodePieces(d[..|d| - 1]) + PieceStrings(d[|d| - 1].0, d[|d| - 1].1)
  }

  /** `urlencode(d, doseq=True)`: the empty query encodes to nothing, and
      valid entries encode without a `#`, so the result fits a URL's query. */
  function UrlEncode(d: Query): (r: string)
    ensures d == [] ==> r == ""
    ensures ValidEntries(d) ==> '#' !in r
  {
    if ValidEntries(d) then
      EncodePiecesFree(d);
      JoinKeepsOut(EncodePieces(d), '&', '#');
      Join(EncodePieces(d), '&')
    else Join(EncodePieces(d), '&')
  }

  /** The pairs a query stands for, key by key. */
  function Expand(k: string, vs: seq<string>): (r: seq<Pair>)
    ensures |r| == |vs|
  {
    if vs == [] then [] else Expand(k, vs[..|vs| - 1]) + [(k, vs[|vs| - 1])]
  }

  function Flatten(d: Query): seq<Pair>
  {
    if d == [] then [] else Flatten(d[..|d| - 1]) + Expand(d[|d| - 1].0, d[|d| - 1].1)
  }

  /** A key `parse_qs` can produce and `urlencode` writes back unchanged:
      no `=`, no `&`, and no `#` (which would start a fragment). */
  predicate ValidKey(k: string)
  {
    '=' !in k && '&' !in k && '#' !in k
  }

  predicate ValidValue(v: string)
  {
    v != "" && '&' !in v && '#' !in v
  }

  predicate ValidValues(vs: seq<string>)
  {
    vs != [] && forall j :: 0 <= j < |vs| ==> ValidValue(vs[j])
  }

  /** The shape of every `parse_qs` result: distinct valid keys, each with
      at least one valid value. */
  predicate WellFormed(d: Query)
  {
    ValidEntries(d) && DistinctKeys(d)
  }

  predicate ValidEntries(d: Query)
  {
    forall i :: 0 <= i < |d| ==> ValidKey(d[i].0) && ValidValues(d[i].1)
  }

  predicate DistinctKeys(d: Query)
  {
    forall i, j :: 0 <= i < j < |d| ==> d[i].0 != d[j].0
  }

  predicate ValidPairs(ps: seq<Pair>)
  {
    forall i :: 0 <= i < |ps| ==> ValidKey(ps[i].0) && ValidValue(ps[i].1)
  }

  // ---------------------------------------------------------------------
  // parse_qs always yields a well-formed query

  lemma {:induction false} ParsePiecesAppend(a: seq<string>, b: seq<string>)
    ensures ParsePieces(a + b) == ParsePieces(a) + ParsePieces(b)
  {
    if a != [] {
      var head := ParsePiece(a[0]);
      var h := if head.Some? then [head.value] else [];
      assert (a + b)[0] == a[0];
      assert (a + b)[1..] == a[1..] + b;
      assert ParsePieces(a + b) == h + ParsePieces(a[1..] + b);
      ParsePiecesAppend(a[1..], b);
      assert ParsePieces(a) == h + ParsePieces(a[1..]);
    } else {
      assert a + b == b;
    }
  }

  lemma {:induction false} ParsePiecesValid(ps: seq<string>)
    requires forall i :: 0 <= i < |ps| ==> '&' !in ps[i] && '#' !in ps[i]
    ensures ValidPairs(ParsePieces(ps))
  {
    if ps != [] {
      ParsePiecesValid(ps[1..]);
      var head := ParsePiece(ps[0]);
      if head.Some? {
        assert ps[0] == head.value.0 + "=" + head.value.1;
        assert forall c :: c in head.value.1 ==> c in ps[0];
        assert forall c :: c in head.value.0 ==> c in ps[0];
      }
    }
  }

  lemma {:induction false} AddWellFormed(d: Query, p: Pair)
    requires WellFormed(d) && ValidKey(p.0) && ValidValue(p.1)
    ensures WellFormed(Add(d, p))
  {
    var r := Add(d, p);
    if p.0 in Keys(d) {
      var r := AppendValue(d, p.0, p.1);
      forall i | 0 <= i < |r|
        ensures r[i].0 == d[i].0 && ValidKey(r[i].0) && ValidValues(r[i].1)
      {
        if d[i].0 == p.0 {
          var vs := d[i].1 + [p.1];
          assert forall j :: 0 <= j < |vs| ==> vs[j] == (if j < |d[i].1| then d[i].1[j] else p.1);
        }
      }
      assert ValidEntries(r);
    } else {
      assert forall i :: 0 <= i < |d| ==> d[i].0 == Keys(d)[i] != p.0;
      assert ValidEntries(r) by {
        assert forall i :: 0 <= i < |d| ==> r[i] == d[i];
        assert r[|d|] == (p.0, [p.1]);
      }
    }
  }

  lemma {:induction false} GroupWellFormed(ps: seq<Pair>)
    requires ValidPairs(ps)
    ensures WellFormed(Group(ps))
  {
    if ps != [] {
      var init := ps[..|ps| - 1];
      assert ValidPairs(init) by {
        assert forall i :: 0 <= i < |init| ==> init[i] == ps[i];
      }
      GroupWellFormed(init);
      AddWellFormed(Group(init), ps[|ps| - 1]);
    }
  }

  /** A valid entry whose key is new may lead a well-formed query. */
  lemma ConsWellFormed(e: (string, seq<string>), t: Query)
    requires WellFormed(t) && ValidKey(e.0) && ValidValues(e.1)
    requires forall j :: 0 <= j < |t| ==> e.0 != t[j].0
    ensures WellFormed([e] + t)
  {
    var r := [e] + t;
    assert forall i :: 1 <= i < |r| ==> r[i] == t[i - 1];
  }

  lemma {:induction false} PopWellFormed(d: Query, k: string)
    requires WellFormed(d)
    ensures WellFormed(Pop(d, k))
  {
    if d != [] {
      var rest := d[1..];
      assert WellFormed(rest) by {
        assert forall i :: 0 <= i < |rest| ==> rest[i] == d[i + 1];
      }
      PopWellFormed(rest, k);
      PopMembers(rest, k);
      var t := Pop(rest, k);
      if d[0].0 != k {
        forall j | 0 <= j < |t|
          ensures d[0].0 != t[j].0
        {
          assert t[j] in t;
          var m :| 0 <= m < |rest| && rest[m] == t[j];
          assert d[m + 1] == t[j];
        }
        ConsWellFormed(d[0], t);
        assert Pop(d, k) == [d[0]] + t;
      } else {
        assert Pop(d, k) == [] + t;
        assert [] + t == t;
      }
    }
  }

  // ---------------------------------------------------------------------
  // parse_qs(urlencode(d)) == d for a well-formed d

  lemma {:induction false} ParsePieceStrings(k: string, vs: seq<string>)
    requires ValidKey(k)
    requires forall j :: 0 <= j < |vs| ==> ValidValue(vs[j])
    ensures ParsePieces(PieceStrings(k, vs)) == Expand(k, vs)
  {
    if vs != [] {
      var init := vs[..|vs| - 1];
      var last := vs[|vs| - 1];
      assert forall j :: 0 <= j < |init| ==> init[j] == vs[j];
      ParsePieceStrings(k, init);
      ParsePiecesAppend(PieceStrings(k, init), [k + "=" + last]);
      PartitionOf(k, '=', last);
      assert k + "=" + last == k + ['='] + last;
      assert ParsePieces([k + "=" + last]) == [(k, last)];
    }
  }

  lemma {:induction false} ParseEncodePieces(d: Query)
    requires forall i :: 0 <= i < |d| ==> ValidKey(d[i].0) && ValidValues(d[i].1)
    ensures ParsePieces(EncodePieces(d)) == Flatten(d)
  {
    if d != [] {
      var init := d[..|d| - 1];
      var last := d[|d| - 1];
      assert forall i :: 0 <= i < |init| ==> init[i] == d[i];
      ParseEncodePieces(init);
      ParsePiecesAppend(EncodePieces(init), PieceStrings(last.0, last.1));
      ParsePieceStrings(last.0, last.1);
    }
  }

  lemma {:induction false} PieceStringsFree(k: string, vs: seq<string>)
    requires ValidKey(k)
    requires forall j :: 0 <= j < |vs| ==> ValidValue(vs[j])
    ensures |PieceStrings(k, vs)| == |vs|
    ensures forall i :: 0 <= i < |vs| ==> '&' !in PieceStrings(k, vs)[i] && '#' !in PieceStrings(k, vs)[i]
  {
    if vs != [] {
      var init := vs[..|vs| - 1];
      assert forall j :: 0 <= j < |init| ==> init[j] == vs[j];
      PieceStringsFree(k, init);
      var last := k + "=" + vs[|vs| - 1];
      assert forall c :: c in last ==> c in k || c == '=' || c in vs[|vs| - 1];
    }
  }

  lemma {:induction false} EncodePiecesFree(d: Query)
    requires forall i :: 0 <= i < |d| ==> ValidKey(d[i].0) && ValidValues(d[i].1)
    ensures |EncodePieces(d)| >= |d|
    ensures forall i :: 0 <= i < |EncodePieces(d)| ==> '&' !in EncodePieces(d)[i] && '#' !in EncodePieces(d)[i]
  {
    if d != [] {
      var init := d[..|d| - 1];
      assert forall i :: 0 <= i < |init| ==> init[i] == d[i];
      EncodePiecesFree(init);
      PieceStringsFree(d[|d| - 1].0, d[|d| - 1].1);
      var a := EncodePieces(init);
      var b := PieceStrings(d[|d| - 1].0, d[|d| - 1].1);
      assert forall i :: 0 <= i < |b| ==> (a + b)[|a| + i] == b[i];
    }
  }

  /** Appending one more value to the last entry of a query whose other
      keys differ from it. */
  lemma AppendToLast(d: Query, k: string, vs: seq<string>, v: string)
    requires k !in Keys(d)
    ensures Add(d + [(k, vs)], (k, v)) == d + [(k, vs + [v])]
  {
    var g := d + [(k, vs)];
    assert Keys(g)[|d|] == k;
    var r := AppendValue(g, k, v);
    forall i | 0 <= i < |d|
      ensures r[i] == d[i]
    {
      assert g[i] == d[i] && d[i].0 == Keys(d)[i];
    }
    assert r[|d|] == (k, vs + [v]);
  }

  lemma GroupSnoc(ps: seq<Pair>, p: Pair)
    ensures Group(ps + [p]) == Add(Group(ps), p)
  {
    assert (ps + [p])[..|ps|] == ps;
  }

  /** Grouping the values of one new key, one at a time, gives a single new
      entry holding all of them. */
  lemma {:induction false} GroupExpand(pre: seq<Pair>, d: Query, k: string, vs: seq<string>)
    requires Group(pre) == d
    requires k !in Keys(d)
    requires vs != []
    ensures Group(pre + Expand(k, vs)) == d + [(k, vs)]
  {
    var init := vs[..|vs| - 1];
    var last := vs[|vs| - 1];
    assert Expand(k, vs) == Expand(k, init) + [(k, last)];
    assert pre + Expand(k, vs) == (pre + Expand(k, init)) + [(k, last)];
    GroupSnoc(pre + Expand(k, init), (k, last));
    assert vs == init + [last];
    if init == [] {
      assert pre + Expand(k, init) == pre;
    } else {
      GroupExpand(pre, d, k, init);
      AppendToLast(d, k, init, last);
    }
  }

  lemma WellFormedInit(d: Query)
    requires WellFormed(d) && d != []
    ensures WellFormed(d[..|d| - 1])
    ensures d[|d| - 1].0 !in Keys(d[..|d| - 1])
    ensures d[|d| - 1].1 != []
  {
    var init := d[..|d| - 1];
    assert forall i :: 0 <= i < |init| ==> init[i] == d[i];
    assert forall i :: 0 <= i < |init| ==> Keys(init)[i] == d[i].0 != d[|d| - 1].0;
  }

  lemma FlattenSnoc(d: Query)
    requires d != []
    ensures Flatten(d) == Flatten(d[..|d| - 1]) + Expand(d[|d| - 1].0, d[|d| - 1].1)
  {
  }

  /** Grouping the flattened pairs gives the query back. */
  lemma {:induction false} GroupFlatten(d: Query)
    requires WellFormed(d)
    ensures Group(Flatten(d)) == d
  {
    if d != [] {
      var init := d[..|d| - 1];
      WellFormedInit(d);
      GroupFlatten(init);
      GroupFlattenStep(d, init, d[|d| - 1]);
    }
  }

  lemma GroupFlattenStep(d: Query, init: Query, last: (string, seq<string>))
    requires d != [] && init == d[..|d| - 1] && last == d[|d| - 1]
    requires Group(Flatten(init)) == init && last.0 !in Keys(init) && last.1 != []
    ensures Group(Flatten(d)) == d
  {
    FlattenSnoc(d);
    GroupExpand(Flatten(init), init, last.0, last.1);
    assert init + [last] == d;
  }

  lemma ParseQsEmpty()
    ensures ParseQs("") == []
  {
    assert Split("", '&') == [""];
    assert ParsePiece("").None?;
    assert ParsePieces([""]) == [];
  }

  /** Round trip: `parse_qs(urlencode(d, doseq=True)) == d` for every
      well-formed `d`, so writing a parsed query back loses nothing. */
  lemma ParseQsUrlEncode(d: Query)
    requires WellFormed(d)
    ensures ParseQs(UrlEncode(d)) == d
  {
    EncodePiecesFree(d);
    var pieces := EncodePieces(d);
    if d == [] {
      assert UrlEncode(d) == "";
      ParseQsEmpty();
    } else {
      SplitJoin(pieces, '&');
      ParseEncodePieces(d);
      GroupFlatten(d);
    }
  }

  /** `urlencode` writes an empty string only for an empty query. */
  lemma UrlEncodeShape(d: Query)
    requires WellFormed(d)
    ensures UrlEncode(d) == "" ==> d == []
  {
    ParseQsUrlEncode(d);
    ParseQsEmpty();
  }

  /** Extending a query by one more `key=value` piece adds that pair to
      what `parse_qs` reads from it. */
  lemma ParseQsSnoc(q: string, k: string, v: string)
    requires '=' !in k && '&' !in k && v != "" && '&' !in v
    ensures ParseQs(q + "&" + k + "=" + v) == Add(ParseQs(q), (k, v))
  {
    var piece := k + "=" + v;
    assert q + "&" + k + "=" + v == q + ['&'] + piece;
    assert '&' !in piece by {
      assert forall c :: c in piece ==> c in k || c == '=' || c in v;
    }
    SplitSnoc(q, piece, '&');
    ParsePiecesAppend(Split(q, '&'), [piece]);
    PartitionOf(k, '=', v);
    assert piece == k + ['='] + v;
    assert ParsePieces([piece]) == [(k, v)];
    GroupSnoc(ParseQsl(q), (k, v));
  }

  /** A query of one `key=value` piece parses to that one pair. */
  lemma ParseQsSingle(k: string, v: string)
    requires '=' !in k && '&' !in k && v != "" && '&' !in v
    ensures ParseQs(k + "=" + v) == [(k, [v])]
  {
    var piece := k + "=" + v;
    assert '&' !in piece by {
      assert forall c :: c in piece ==> c in k || c == '=' || c in v;
    }
    SplitOfPiece(piece, '&');
    PartitionOf(k, '=', v);
    assert piece == k + ['='] + v;
    assert ParsePieces([piece]) == [(k, v)];
    GroupSnoc([], (k, v));
    assert [] + [(k, v)] == [(k, v)];
  }

  lemma AddToSingle(k: string, vs: seq<string>, p: Pair)
    requires p.0 != k
    ensures Add([(k, vs)], p) == [(k, vs), (p.0, [p.1])]
  {
    assert Keys([(k, vs)]) == [k];
  }

  /** Popping an absent key changes nothing. */
  lemma {:induction false} PopAbsent(d: Query, k: string)
    requires k !in Keys(d)
    ensures Pop(d, k) == d
  {
    if d != [] {
      assert Keys(d)[0] == d[0].0;
      assert Keys(d[1..]) == Keys(d)[1..];
      PopAbsent(d[1..], k);
      assert [d[0]] + d[1..] == d;
    }
  }

  // ---------------------------------------------------------------------
  // urlparse / geturl

  /** `urlparse(s)` as the helpers use it: everything before the query
      (scheme, host, path and parameters, kept verbatim), the query, and
      the fragment. */
  datatype Url = Url(base: string, query: string, fragment: string)

  function UrlParse(s: string): (r: Url)
    ensures '#' !in r.base && '?' !in r.base && '#' !in r.query
  {
    var (rest, _, fragment) := Partition(s, '#');
    var (base, _, query) := Partition(rest, '?');
    assert forall c :: c in query ==> c in rest;
    Url(base, query, fragment)
  }

  /** `geturl()`: the separators `?` and `#` are written only before a
      non-empty query or fragment. */
  function GetUrl(u: Url): (r: string)
    ensures u.base <= r
    ensures u.query == "" && u.fragment == "" ==> r == u.base
    ensures u.fragment != "" ==> |r| > |u.fragment| && r[|r| - |u.fragment| - 1..] == "#" + u.fragment
  {
    u.base + (if u.query == "" then "" else "?" + u.query)
      + (if u.fragment == "" then "" else "#" + u.fragment)
  }

  /** A URL without fragment is its base, then `?` and the query when it
      has a `?`. */
  lemma UrlParseShape(s: string)
    requires '#' !in s
    ensures UrlParse(s).fragment == ""
    ensures '?' in s ==> s == UrlParse(s).base + ['?'] + UrlParse(s).query
    ensures '?' !in s ==> UrlParse(s) == Url(s, "", "")
  {
    assert Partition(s, '#') == (s, false, "");
  }

  lemma UrlParseOfQuery(base: string, q: string)
    requires '?' !in base && '#' !in base && '#' !in q
    ensures UrlParse(base + ['?'] + q) == Url(base, q, "")
  {
    var s := base + ['?'] + q;
    assert '#' !in s by {
      assert forall c :: c in s ==> c in base || c == '?' || c in q;
    }
    assert Partition(s, '#') == (s, false, "");
    PartitionOf(base, '?', q);
  }

  lemma GetUrlOfQuery(base: string, q: string)
    requires q != ""
    ensures GetUrl(Url(base, q, "")) == base + "?" + q
  {
    assert base + ("?" + q) + "" == base + "?" + q;
  }

  lemma GetUrlOfBase(base: string)
    ensures GetUrl(Url(base, "", "")) == base
  {
    assert base + "" + "" == base;
  }

  /** What `geturl` writes before the fragment. */
  function BeforeFragment(u: Url): string
  {
    u.base + (if u.query == "" then "" else "?" + u.query)
  }

  lemma FragmentSplit(u: Url)
    requires '#' !in u.base && '#' !in u.query
    ensures Partition(GetUrl(u), '#').0 == BeforeFragment(u)
    ensures Partition(GetUrl(u), '#').2 == u.fragment
  {
    var rest := BeforeFragment(u);
    assert '#' !in rest by {
      assert forall c :: c in rest ==> c in u.base || c == '?' || c in u.query;
    }
    if u.fragment == "" {
      assert GetUrl(u) == rest;
    } else {
      assert GetUrl(u) == rest + ['#'] + u.fragment;
      PartitionOf(rest, '#', u.fragment);
    }
  }

  lemma QuerySplit(u: Url)
    requires '?' !in u.base
    ensures Partition(BeforeFragment(u), '?').0 == u.base
    ensures Partition(BeforeFragment(u), '?').2 == u.query
  {
    if u.query != "" {
      assert BeforeFragment(u) == u.base + ['?'] + u.query;
      PartitionOf(u.base, '?', u.query);
    } else {
      assert BeforeFragment(u) == u.base;
    }
  }

  /** Parsing a URL written by `geturl` gives back its parts. */
  lemma UrlParseGetUrl(u: Url)
    requires '#' !in u.base && '?' !in u.base && '#' !in u.query
    ensures UrlParse(GetUrl(u)) == u
  {
    FragmentSplit(u);
    QuerySplit(u);
  }
}
