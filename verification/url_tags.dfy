/** The template filters of `libs/templatetags/url.py` that thread a
    `next` parameter from page to page: `concat_next_url` attaches one to a
    URL, `inherit_next_url` passes on the one the current page carries. */
module UrlTags {
  import opened Errors
  import opened Text
  import opened QueryStrings

  /** `url|concat_next_url:next_url`: the quoted `next_url` appended as a
      `next` parameter, after `&` when `url` already has a query and after
      `?` otherwise.  `quote` stands for `urllib.parse.quote`. */
  function ConcatNextUrl(url: string, nextUrl: string, quote: string -> string): (r: string)
    ensures url <= r && '?' in r
    ensures |r| == |url| + 6 + |quote(nextUrl)|
    ensures r[|url|] == (if '?' in url then '&' else '?')
    ensures r[|url| + 1..] == "next=" + quote(nextUrl)
  {
    url + (if '?' in url then "&" else "?") + "next=" + quote(nextUrl)
  }

  /** `url|inherit_next_url:current_url`: `url` unchanged when the current
      URL carries no `next`; otherwise `url` with a `next` taken from it,
      unwrapping one level when that `next` itself carries a `next`. */
  function InheritNextUrl(url: string, currentUrl: string): (r: string)
    ensures var next := Get(ParseQs(UrlParse(currentUrl).query), "next");
      r == url <==> next.None? || next.value == []
    ensures r != url ==> |r| > |url| + 6 && r[..|url| + 6] == url + "?next="
  {
    var next := Get(ParseQs(UrlParse(currentUrl).query), "next");
    if next.None? || next.value == [] then url
    else
      var nextParam := next.value[0];
      var inner := Get(ParseQs(UrlParse(nextParam).query), "next");
      if inner.Some? && inner.value != [] then url + "?next=" + inner.value[0]
      else url + "?next=" + nextParam
  }

  /** `concat_next_url` keeps the URL before its query and adds exactly one
      `next` value to the parameters it already had. */
  lemma ConcatNextUrlAddsNext(url: string, nextUrl: string, quote: string -> string)
    requires '#' !in url && ValidValue(quote(nextUrl))
    ensures var r := ConcatNextUrl(url, nextUrl, quote);
      && UrlParse(r).base == UrlParse(url).base
      && UrlParse(r).fragment == ""
      && ParseQs(UrlParse(r).query) == Add(ParseQs(UrlParse(url).query), ("next", quote(nextUrl)))
  {
    UrlParseShape(url);
    if '?' in url {
      ConcatToQuery(url, quote(nextUrl));
    } else {
      ConcatToBare(url, quote(nextUrl));
    }
  }

  lemma ConcatToQuery(url: string, v: string)
    requires '#' !in url && '?' in url && ValidValue(v)
    ensures var r := url + "&" + "next=" + v;
      && UrlParse(r).base == UrlParse(url).base
      && UrlParse(r).fragment == ""
      && ParseQs(UrlParse(r).query) == Add(ParseQs(UrlParse(url).query), ("next", v))
  {
    UrlParseShape(url);
    var u := UrlParse(url);
    var q := u.query + "&" + "next" + "=" + v;
    assert url + "&" + "next=" + v == u.base + ['?'] + q;
    assert '#' !in q by {
      assert forall c :: c in q ==> c in u.query || c in "&next=" || c in v;
    }
    UrlParseOfQuery(u.base, q);
    ParseQsSnoc(u.query, "next", v);
  }

  lemma ConcatToBare(url: string, v: string)
    requires '#' !in url && '?' !in url && ValidValue(v)
    ensures var r := url + "?" + "next=" + v;
      && UrlParse(r).base == UrlParse(url).base
      && UrlParse(r).fragment == ""
      && ParseQs(UrlParse(r).query) == Add(ParseQs(UrlParse(url).query), ("next", v))
  {
    UrlParseShape(url);
    var q := "next" + "=" + v;
    assert url + "?" + "next=" + v == url + ['?'] + q;
    assert '#' !in q by {
      assert forall c :: c in q ==> c in "next=" || c in v;
    }
    UrlParseOfQuery(url, q);
    ParseQsSingle("next", v);
    ParseQsEmpty();
    assert Keys([]) == [];
  }

  lemma GetAfterAdd(d: Query, k: string, v: string)
    requires k !in Keys(d)
    ensures Get(Add(d, (k, v)), k) == Some([v])
  {
    GetLast(d, k, [v]);
  }

  lemma {:induction false} GetLast(d: Query, k: string, vs: seq<string>)
    requires k !in Keys(d)
    ensures Get(d + [(k, vs)], k) == Some(vs)
  {
    if d != [] {
      assert Keys(d)[0] == d[0].0;
      assert Keys(d[1..]) == Keys(d)[1..];
      GetLast(d[1..], k, vs);
      assert (d + [(k, vs)])[1..] == d[1..] + [(k, vs)];
    }
  }

  /** A current URL without `next` leaves the link as it is. */
  lemma InheritWithoutNext(url: string, currentUrl: string)
    requires "next" !in Keys(ParseQs(UrlParse(currentUrl).query))
    ensures InheritNextUrl(url, currentUrl) == url
  {
  }

  /** Round trip with `concat_next_url`: a page reached through a link made
      by `concat_next_url` passes its `next` on to the links it builds.
      Stated for targets that `quote` leaves as they are, since `parse_qs`
      percent-decoding is not part of this model. */
  lemma InheritAfterConcat(url: string, page: string, target: string, quote: string -> string)
    requires '#' !in page && "next" !in Keys(ParseQs(UrlParse(page).query))
    requires quote(target) == target
    requires ValidValue(target) && '?' !in target
    ensures InheritNextUrl(url, ConcatNextUrl(page, target, quote)) == url + "?next=" + target
  {
    var v := quote(target);
    var current := ConcatNextUrl(page, target, quote);
    ConcatNextUrlAddsNext(page, target, quote);
    GetAfterAdd(ParseQs(UrlParse(page).query), "next", v);
    assert Get(ParseQs(UrlParse(current).query), "next") == Some([v]);
    assert UrlParse(v) == Url(v, "", "");
    ParseQsEmpty();
    assert Get(ParseQs(UrlParse(v).query), "next") == None;
    InheritPlainNext(url, current, v);
  }

  /** A current URL whose `next` carries no `next` of its own hands that
      `next` on. */
  lemma InheritPlainNext(url: string, currentUrl: string, v: string)
    requires Get(ParseQs(UrlParse(currentUrl).query), "next") == Some([v])
    requires Get(ParseQs(UrlParse(v).query), "next") == None
    ensures InheritNextUrl(url, currentUrl) == url + "?next=" + v
  {
  }

  /** A `next` that itself carries a `next` is unwrapped once: when the
      current page's `next` is `mid?next=target`, links go straight on to
      `target`. */
  lemma InheritUnwrapsNestedNext(url: string, currentUrl: string, mid: string, target: string)
    requires '?' !in mid && '#' !in mid && ValidValue(target)
    requires var next := Get(ParseQs(UrlParse(currentUrl).query), "next");
      next.Some? && next.value != [] && next.value[0] == mid + "?" + "next=" + target
    ensures InheritNextUrl(url, currentUrl) == url + "?next=" + target
  {
    NextOfNext(mid, target);
  }

  lemma NextOfNext(mid: string, target: string)
    requires '?' !in mid && '#' !in mid && ValidValue(target)
    ensures Get(ParseQs(UrlParse(mid + "?" + "next=" + target).query), "next") == Some([target])
  {
    ConcatToBare(mid, target);
    UrlParseShape(mid);
    ParseQsEmpty();
    assert Keys([]) == [];
    GetAfterAdd([], "next", target);
  }
}
