/** The date pages of `libs/views/dates.py`: month and year archives,
    whose context links the neighbouring periods, and the redirects to the
    newest record's month or year.  "Today" is a parameter. */
module DateViews {
  import opened Errors
  import opened Fields
  import opened Menu

  datatype Date = Date(year: int, month: int, day: int)

  /** Chronological order of dates. */
  predicate DateLe(a: Date, b: Date)
  {
    a.year < b.year || (a.year == b.year && (a.month < b.month || (a.month == b.month && a.day <= b.day)))
  }

  /** A year and a month. */
  type Month = (int, int)

  /** Chronological order of months. */
  predicate MonthLe(a: Month, b: Month)
  {
    a.0 < b.0 || (a.0 == b.0 && a.1 <= b.1)
  }

  /** `order_by("-date").first()`: a record with the newest date, if any. */
  function Latest(dates: seq<Date>): (r: Option<Date>)
    ensures r.None? <==> dates == []
    ensures r.Some? ==> r.value in dates
    ensures r.Some? ==> forall i :: 0 <= i < |dates| ==> DateLe(dates[i], r.value)
  {
    if dates == [] then None
    else
      var rest := Latest(dates[1..]);
      if rest.None? || DateLe(rest.value, dates[0]) then
        assert forall i :: 1 <= i < |dates| ==> dates[i] == dates[1..][i - 1];
        Some(dates[0])
      else
        assert forall i :: 1 <= i < |dates| ==> dates[i] == dates[1..][i - 1];
        Some(rest.value)
  }

  /** `GenericLatestMonthRedirectView.get_redirect_url`'s year and month:
      the newest record's, or today's when there is no record. */
  function LatestMonthTarget(dates: seq<Date>, today: Date): (r: Month)
    ensures dates == [] ==> r == (today.year, today.month)
    ensures dates != [] ==> exists i :: 0 <= i < |dates| && (dates[i].year, dates[i].month) == r
    ensures forall i :: 0 <= i < |dates| ==> MonthLe((dates[i].year, dates[i].month), r)
  {
    var latest := Latest(dates);
    if latest.Some? then (latest.value.year, latest.value.month) else (today.year, today.month)
  }

  /** `GenericLatestYearRedirectView.get_redirect_url`'s year. */
  function LatestYearTarget(dates: seq<Date>, today: Date): (r: int)
    ensures dates == [] ==> r == today.year
    ensures dates != [] ==> exists i :: 0 <= i < |dates| && dates[i].year == r
    ensures forall i :: 0 <= i < |dates| ==> dates[i].year <= r
  {
    var latest := Latest(dates);
    if latest.Some? then latest.value.year else today.year
  }

  /** The two redirects agree: the latest month lies in the latest year. */
  lemma LatestMonthInLatestYear(dates: seq<Date>, today: Date)
    ensures LatestMonthTarget(dates, today).0 == LatestYearTarget(dates, today)
  {
  }

  /** The redirect itself: `get_month_url` must be supplied by a subclass,
      the base one raises `NotImplementedError`. */
  function LatestMonthRedirect(dates: seq<Date>, today: Date, monthUrl: Option<Month -> string>): (r: Result<string>)
    ensures monthUrl.None? ==> r == Err(NotImplemented)
    ensures monthUrl.Some? ==> r == Ok(monthUrl.value(LatestMonthTarget(dates, today)))
  {
    if monthUrl.None? then Err(NotImplemented) else Ok(monthUrl.value(LatestMonthTarget(dates, today)))
  }

  function LatestYearRedirect(dates: seq<Date>, today: Date, yearUrl: Option<int -> string>): (r: Result<string>)
    ensures yearUrl.None? ==> r == Err(NotImplemented)
    ensures yearUrl.Some? ==> r == Ok(yearUrl.value(LatestYearTarget(dates, today)))
  {
    if yearUrl.None? then Err(NotImplemented) else Ok(yearUrl.value(LatestYearTarget(dates, today)))
  }

  /** `__init__` of both redirect views: a `menu` attribute is refused. */
  function RedirectViewInit(hasMenuAttr: bool): (r: Result<()>)
    ensures r.Err? <==> hasMenuAttr
    ensures r.Err? ==> r.error == ImproperlyConfigured
  {
    if hasMenuAttr then Err(ImproperlyConfigured) else Ok(())
  }

  /** `__init__` of both archive views: `model` or `queryset` is needed. */
  function ArchiveViewInit(hasModel: bool, hasQueryset: bool): (r: Result<()>)
    ensures r.Err? <==> !hasModel && !hasQueryset
    ensures r.Err? ==> r.error == ImproperlyConfigured
  {
    if !hasModel && !hasQueryset then Err(ImproperlyConfigured) else Ok(())
  }

  // ---------------------------------------------------------------------
  // Archive context

  /** `GenericMonthArchiveView.get_context_data`'s links: the shown and the
      previous month always, the next month only when Django reports one.
      `monthUrl` is the subclass's `get_month_url`. */
  function MonthArchiveLinks(context: map<string, Value>, thisMonth: Date, previousMonth: Date, nextMonth: Option<Date>,
                             monthUrl: Option<Month -> string>): (r: Result<map<string, Value>>)
    ensures monthUrl.None? <==> r.Err?
    ensures r.Err? ==> r.error == NotImplemented
    ensures r.Ok? ==> r.value.Keys == context.Keys + {"this_month_url", "previous_month_url"}
                                      + (if nextMonth.Some? then {"next_month_url"} else {})
    ensures r.Ok? ==> r.value["this_month_url"] == StrValue(monthUrl.value((thisMonth.year, thisMonth.month)))
    ensures r.Ok? ==> r.value["previous_month_url"] == StrValue(monthUrl.value((previousMonth.year, previousMonth.month)))
    ensures r.Ok? && nextMonth.Some? ==> r.value["next_month_url"] == StrValue(monthUrl.value((nextMonth.value.year, nextMonth.value.month)))
    ensures r.Ok? ==> forall k :: k in context && k !in {"this_month_url", "previous_month_url", "next_month_url"} ==> r.value[k] == context[k]
  {
    if monthUrl.None? then Err(NotImplemented)
    else
      var url := monthUrl.value;
      var c := context["this_month_url" := StrValue(url((thisMonth.year, thisMonth.month)))]
                      ["previous_month_url" := StrValue(url((previousMonth.year, previousMonth.month)))];
      if nextMonth.Some? then Ok(c["next_month_url" := StrValue(url((nextMonth.value.year, nextMonth.value.month)))])
      else Ok(c)
  }

  /** `GenericYearArchiveView.get_context_data`'s links: the shown year's
      link is stored under `this_month_url`, the previous year's always,
      the next year's only when there is one. */
  function YearArchiveLinks(context: map<string, Value>, thisYear: Date, previousYear: Date, nextYear: Option<Date>,
                            yearUrl: Option<int -> string>): (r: Result<map<string, Value>>)
    ensures yearUrl.None? <==> r.Err?
    ensures r.Err? ==> r.error == NotImplemented
    ensures r.Ok? ==> r.value.Keys == context.Keys + {"this_month_url", "previous_year_url"}
                                      + (if nextYear.Some? then {"next_year_url"} else {})
    ensures r.Ok? ==> r.value["this_month_url"] == StrValue(yearUrl.value(thisYear.year))
    ensures r.Ok? ==> r.value["previous_year_url"] == StrValue(yearUrl.value(previousYear.year))
    ensures r.Ok? && nextYear.Some? ==> r.value["next_year_url"] == StrValue(yearUrl.value(nextYear.value.year))
    ensures r.Ok? ==> forall k :: k in context && k !in {"this_month_url", "previous_year_url", "next_year_url"} ==> r.value[k] == context[k]
  {
    if yearUrl.None? then Err(NotImplemented)
    else
      var url := yearUrl.value;
      var c := context["this_month_url" := StrValue(url(thisYear.year))]["previous_year_url" := StrValue(url(previousYear.year))];
      if nextYear.Some? then Ok(c["next_year_url" := StrValue(url(nextYear.value.year))]) else Ok(c)
  }

  /** A year archive never writes a `this_year_url` key: its own link sits
      where a month archive keeps the shown month's. */
  lemma YearArchiveUsesMonthKey(context: map<string, Value>, thisYear: Date, previousYear: Date, nextYear: Option<Date>,
                                yearUrl: int -> string)
    requires "this_year_url" !in context
    ensures var r := YearArchiveLinks(context, thisYear, previousYear, nextYear, Some(yearUrl));
      && r.Ok? && "this_year_url" !in r.value
      && r.value["this_month_url"] == StrValue(yearUrl(thisYear.year))
  {
  }

  // ---------------------------------------------------------------------
  // Navbar

  const MonthArchiveViewHook: MenuHook := Uses(MonthArchiveMenu)
  const YearArchiveViewHook: MenuHook := Uses(YearArchiveMenu)

  /** The archive pages always get their navbar: the archive menus cannot
      fail. */
  lemma ArchiveNavbars(menu: CRUDLMenu, extraMenu: seq<Entry>)
    ensures DefaultNavbarLinks(MonthArchiveViewHook, menu, extraMenu) == Ok(Sequence(menu.MonthArchiveNavbarLinks(extraMenu)))
    ensures DefaultNavbarLinks(YearArchiveViewHook, menu, extraMenu) == Ok(Sequence(menu.YearArchiveNavbarLinks(extraMenu)))
  {
  }
}
