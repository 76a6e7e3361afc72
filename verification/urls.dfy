/** The URL helpers of `libs/url.py`: dropping the `next` parameter or the
    whole query string from a URL. */
module Urls {
  import opened Errors
  import opened Text
  import opened QueryStrings

  /** The query of `s` with its `next` parameter removed and the rest
      re-encoded. */
  function QueryWithoutNext(s: string): string
  {
    UrlEncode(Pop(ParseQs(UrlParse(s).query), "next"))
  }

  /** `remove_next_url(url)`: an empty or missing URL comes back as it is;
      otherwise the query is parsed, `next` is dropped and the URL is
      rebuilt (without `?` when nothing is left). */
  function RemoveNextUrl(url: Option<string>): (r: Option<string>)
    ensures !Truthy(url) ==> r == url
    ensures Truthy(url) ==> r.Some?
  {
    if !Truthy(url) then url
    else
      var u := UrlParse(url.value);
      Some(GetUrl(Url(u.base, QueryWithoutNext(url.value), u.fragment)))
  }

  /** `remove_query_string(url)`: the URL without its query; an empty or
      missing URL comes back as it is. */
  function RemoveQueryString(url: Option<string>): (r: Option<string>)
    ensures !Truthy(url) ==> r == url
    ensures Truthy(url) ==> r.Some?
  {
    if !Truthy(url) then url
    else
      var u := UrlParse(url.value);
      Some(GetUrl(Url(u.base, "", u.fragment)))
  }

  /** What `remove_next_url` writes back is the same URL with the same other
      parameters, and no `next` among them. */
  lemma RemoveNextUrlDropsNext(s: string)
    requires s != ""
    ensures var r := RemoveNextUrl(Some(s)).value;
      && UrlParse(r).base == UrlParse(s).base
      && UrlParse(r).fragment == UrlParse(s).fragment
      && ParseQs(UrlParse(r).query) == Pop(ParseQs(UrlParse(s).query), "next")
      && Get(ParseQs(UrlParse(r).query), "next") == None
  {
    var u := UrlParse(s);
    var d := Pop(ParseQs(u.query), "next");
    PopWellFormed(ParseQs(u.query), "next");
    UrlEncodeShape(d);
    UrlParseGetUrl(Url(u.base, UrlEncode(d), u.fragment));
    ParseQsUrlEncode(d);
  }

  /** Removing `next` twice is the same as removing it once. */
  lemma RemoveNextUrlIdempotent(url: Option<string>)
    ensures RemoveNextUrl(RemoveNextUrl(url)) == RemoveNextUrl(url)
  {
    if Truthy(url) {
      var s := url.value;
      var r := RemoveNextUrl(url).value;
      RemoveNextUrlDropsNext(s);
      var d := Pop(ParseQs(UrlParse(s).query), "next");
      PopAbsent(d, "next");
      assert QueryWithoutNext(r) == UrlEncode(d);
      var u := UrlParse(s);
      PopWellFormed(ParseQs(u.query), "next");
      UrlEncodeShape(d);
      UrlParseGetUrl(Url(u.base, UrlEncode(d), u.fragment));
    }
  }

  /** A URL with neither query nor fragment passes through unchanged. */
  lemma RemoveNextUrlWithoutQuery(s: string)
    requires s != "" && '?' !in s && '#' !in s
    ensures RemoveNextUrl(Some(s)) == Some(s)
  {
    assert UrlParse(s) == Url(s, "", "");
    ParseQsEmpty();
    assert Pop([], "next") == [];
    assert UrlEncode([]) == "";
    assert GetUrl(Url(s, "", "")) == s;
  }

  /** `remove_query_string` leaves no query behind and keeps the rest. */
  lemma RemoveQueryStringDropsQuery(s: string)
    requires s != ""
    ensures var r := RemoveQueryString(Some(s)).value;
      UrlParse(r) == Url(UrlParse(s).base, "", UrlParse(s).fragment)
  {
    var u := UrlParse(s);
    UrlParseGetUrl(Url(u.base, "", u.fragment));
  }

  /** For a URL with a query and no fragment, the result is the part
      before the query followed by the re-encoded query without `next`. */
  lemma RemoveNextUrlOfQuery(base: string, q: string)
    requires '?' !in base && '#' !in base && '#' !in q
    ensures RemoveNextUrl(Some(base + ['?'] + q))
         == Some(GetUrl(Url(base, UrlEncode(Pop(ParseQs(q), "next")), "")))
  {
    var s := base + ['?'] + q;
    assert '#' !in s by {
      assert forall c :: c in s ==> c in base || c == '?' || c in q;
    }
    PartitionOf(base, '?', q);
    assert UrlParse(s) == Url(base, q, "");
  }

  /** The library's test cases, for any path and values: a `next` alone
      leaves the bare path (`/path/to/?next=/next/url` gives `/path/to/`). */
  lemma RemoveNextUrlAlone(base: string, v: string)
    requires '?' !in base && '#' !in base && ValidValue(v)
    ensures RemoveNextUrl(Some(base + "?next=" + v)) == Some(base)
  {
    var q := "next" + "=" + v;
    assert base + "?next=" + v == base + ['?'] + q;
    RemoveNextUrlOfQuery(base, q);
    PopNextAlone(v);
    GetUrlOfBase(base);
  }

  lemma PopNextAlone(v: string)
    requires ValidValue(v)
    ensures Pop(ParseQs("next" + "=" + v), "next") == []
  {
    ParseQsSingle("next", v);
    assert Pop([("next", [v])], "next") == [];
  }

  /** A `next` before another parameter is dropped and the other kept
      (`/path/to/?next=/next/url&status=1` gives `/path/to/?status=1`). */
  lemma RemoveNextUrlFirst(base: string, v: string, k: string, w: string)
    requires '?' !in base && '#' !in base && ValidValue(v)
    requires ValidKey(k) && k != "next" && ValidValue(w)
    ensures RemoveNextUrl(Some(base + "?next=" + v + "&" + k + "=" + w)) == Some(base + "?" + k + "=" + w)
  {
    var q := "next" + "=" + v + "&" + k + "=" + w;
    assert base + "?next=" + v + "&" + k + "=" + w == base + ['?'] + q;
    PopNextFirst(v, k, w);
    RemoveNextUrlLeavesOne(base, q, k, w);
  }

  lemma PopNextFirst(v: string, k: string, w: string)
    requires ValidValue(v) && ValidKey(k) && k != "next" && ValidValue(w)
    ensures Pop(ParseQs("next" + "=" + v + "&" + k + "=" + w), "next") == [(k, [w])]
  {
    ParseQsSingle("next", v);
    ParseQsSnoc("next" + "=" + v, k, w);
    AddToSingle("next", [v], (k, w));
    assert Pop([("next", [v]), (k, [w])], "next") == [(k, [w])];
  }

  /** A `next` after another parameter is dropped and the other kept
      (`/path/to/?status=1&next=/next/url` gives `/path/to/?status=1`). */
  lemma RemoveNextUrlLast(base: string, v: string, k: string, w: string)
    requires '?' !in base && '#' !in base && ValidValue(v)
    requires ValidKey(k) && k != "next" && ValidValue(w)
    ensures RemoveNextUrl(Some(base + "?" + k + "=" + w + "&next=" + v)) == Some(base + "?" + k + "=" + w)
  {
    var q := k + "=" + w + "&" + "next" + "=" + v;
    assert base + "?" + k + "=" + w + "&next=" + v == base + ['?'] + q;
    PopNextLast(v, k, w);
    RemoveNextUrlLeavesOne(base, q, k, w);
  }

  lemma PopNextLast(v: string, k: string, w: string)
    requires ValidValue(v) && ValidKey(k) && k != "next" && ValidValue(w)
    ensures Pop(ParseQs(k + "=" + w + "&" + "next" + "=" + v), "next") == [(k, [w])]
  {
    ParseQsSingle(k, w);
    ParseQsSnoc(k + "=" + w, "next", v);
    AddToSingle(k, [w], ("next", v));
    assert Pop([(k, [w]), ("next", [v])], "next") == [(k, [w])];
  }

  lemma RemoveNextUrlLeavesOne(base: string, q: string, k: string, w: string)
    requires '?' !in base && '#' !in base && '#' !in q
    requires ValidKey(k) && ValidValue(w)
    requires Pop(ParseQs(q), "next") == [(k, [w])]
    ensures RemoveNextUrl(Some(base + ['?'] + q)) == Some(base + "?" + k + "=" + w)
  {
    RemoveNextUrlOfQuery(base, q);
    GetUrlOfSingle(base, k, w);
  }

  /** A URL whose query is one parameter with one value. */
  lemma GetUrlOfSingle(base: string, k: string, w: string)
    requires ValidKey(k) && ValidValue(w)
    ensures GetUrl(Url(base, UrlEncode([(k, [w])]), "")) == base + "?" + k + "=" + w
  {
    var e := k + "=" + w;
    SingleEncoding(k, w);
    GetUrlOfQuery(base, e);
    assert base + "?" + e == base + "?" + k + "=" + w;
  }

  lemma SingleEncoding(k: string, w: string)
    requires ValidKey(k) && ValidValue(w)
    ensures UrlEncode([(k, [w])]) == k + "=" + w
  {
    var d := [(k, [w])];
    assert d[..0] == [];
    assert [w][..0] == [];
    assert PieceStrings(k, [w]) == PieceStrings(k, []) + [k + "=" + w];
    assert EncodePieces(d) == EncodePieces([]) + PieceStrings(k, [w]);
  }
}
