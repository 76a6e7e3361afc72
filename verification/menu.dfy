/** Navigation-bar composition (apps/libs/menu.py).

    A model class is described by its name, its verbose name, the set of
    optional url methods it defines and, when it defines
    `get_model_top_link`, the action that method returns.  `CRUDLMenu`
    builds, per kind of page, the tuple the navigation bar shows; the
    `Navbar` class holds the resolved tuple of a view and flattens it for
    the template. */
module Menu {
  import opened Errors
  import opened Seqs
  import opened Actions

  datatype ModelClass = ModelClass(
    name: string,
    verboseName: string,
    capabilities: set<Capability>,
    modelTopLink: Option<Action>   // get_model_top_link(), when defined
  )

  /** `hasattr(model, <capability>)` as a function value, for `Filter`. */
  function Has(m: ModelClass): Capability -> bool
  {
    (c: Capability) => c in m.capabilities
  }

  /** `make_add_link`. */
  function MakeAddLink(m: ModelClass): (r: Result<Action>)
    ensures r.Ok? <==> AddUrl in m.capabilities
    ensures r.Err? ==> r.error == NotImplemented
    ensures r.Ok? ==> r.value.AddAction? && r.value.caption == m.verboseName + "を追加"
                      && r.value.ResolvedUrl() == Ok(Bound(m.name, AddUrl))
  {
    if AddUrl in m.capabilities then Ok(AddAction(Bound(m.name, AddUrl), AddIcon, m.verboseName + "を追加"))
    else Err(NotImplemented)
  }

  /** `make_bulk_add_link`. */
  function MakeBulkAddLink(m: ModelClass): (r: Result<Action>)
    ensures r.Ok? <==> BulkAddUrl in m.capabilities
    ensures r.Err? ==> r.error == NotImplemented
    ensures r.Ok? ==> r.value.BulkAddAction? && r.value.caption == m.verboseName + "を一括追加"
                      && r.value.ResolvedUrl() == Ok(Bound(m.name, BulkAddUrl))
  {
    if BulkAddUrl in m.capabilities then Ok(BulkAddAction(Bound(m.name, BulkAddUrl), m.verboseName + "を一括追加"))
    else Err(NotImplemented)
  }

  /** `make_list_link`: a truthy label wins over the default "<verbose>一覧". */
  function MakeListLink(m: ModelClass, caption: Option<string>): (r: Result<Action>)
    ensures r.Ok? <==> ListUrl in m.capabilities
    ensures r.Err? ==> r.error == NotImplemented
    ensures r.Ok? ==> r.value.LinkAction? && r.value.ResolvedUrl() == Ok(Bound(m.name, ListUrl))
    ensures r.Ok? && Truthy(caption) ==> r.value.caption == caption.value
    ensures r.Ok? && !Truthy(caption) ==> r.value.caption == m.verboseName + "一覧"
  {
    if ListUrl in m.capabilities then
      if Truthy(caption) then Ok(LinkAction(caption.value, Bound(m.name, ListUrl)))
      else Ok(LinkAction(m.verboseName + "一覧", Bound(m.name, ListUrl)))
    else Err(NotImplemented)
  }

  /** `make_sort_link`. */
  function MakeSortLink(m: ModelClass): (r: Result<Action>)
    ensures r.Ok? <==> SortUrl in m.capabilities
    ensures r.Err? ==> r.error == NotImplemented
    ensures r.Ok? ==> r.value.SortAction? && r.value.caption == m.verboseName + "をソート"
                      && r.value.ResolvedUrl() == Ok(Bound(m.name, SortUrl))
  {
    if SortUrl in m.capabilities then Ok(SortAction(Bound(m.name, SortUrl), m.verboseName + "をソート"))
    else Err(NotImplemented)
  }

  /** `make_filter_link`. */
  function MakeFilterLink(m: ModelClass): (r: Result<Action>)
    ensures r.Ok? <==> FilterUrl in m.capabilities
    ensures r.Err? ==> r.error == NotImplemented
    ensures r.Ok? ==> r.value.SearchAction? && r.value.caption == m.verboseName + "を検索"
                      && r.value.ResolvedUrl() == Ok(Bound(m.name, FilterUrl))
  {
    if FilterUrl in m.capabilities then Ok(SearchAction(Bound(m.name, FilterUrl), SearchIcon, m.verboseName + "を検索"))
    else Err(NotImplemented)
  }

  /** `make_latest_year_link`. */
  function MakeLatestYearLink(m: ModelClass): (r: Result<Action>)
    ensures r.Ok? <==> LatestYearUrl in m.capabilities
    ensures r.Err? ==> r.error == NotImplemented
    ensures r.Ok? ==> r.value.LinkAction? && r.value.caption == m.verboseName + "(今年)"
                      && r.value.ResolvedUrl() == Ok(Bound(m.name, LatestYearUrl))
  {
    if LatestYearUrl in m.capabilities then Ok(LinkAction(m.verboseName + "(今年)", Bound(m.name, LatestYearUrl)))
    else Err(NotImplemented)
  }

  /** `make_latest_month_link`. */
  function MakeLatestMonthLink(m: ModelClass): (r: Result<Action>)
    ensures r.Ok? <==> LatestMonthUrl in m.capabilities
    ensures r.Err? ==> r.error == NotImplemented
    ensures r.Ok? ==> r.value.LinkAction? && r.value.caption == m.verboseName + "(今月)"
                      && r.value.ResolvedUrl() == Ok(Bound(m.name, LatestMonthUrl))
  {
    if LatestMonthUrl in m.capabilities then Ok(LinkAction(m.verboseName + "(今月)", Bound(m.name, LatestMonthUrl)))
    else Err(NotImplemented)
  }

  /** The `make_*_link` builder for a capability. */
  function LinkFor(m: ModelClass, c: Capability): (r: Result<Action>)
    requires c != ModelTopUrl
    ensures r.Ok? <==> c in m.capabilities
    ensures r.Ok? ==> r.value.ResolvedUrl() == Ok(Bound(m.name, c)) && !r.value.IsDivider()
  {
    match c
    case ListUrl => MakeListLink(m, None)
    case AddUrl => MakeAddLink(m)
    case BulkAddUrl => MakeBulkAddLink(m)
    case SortUrl => MakeSortLink(m)
    case FilterUrl => MakeFilterLink(m)
    case LatestYearUrl => MakeLatestYearLink(m)
    case LatestMonthUrl => MakeLatestMonthLink(m)
  }

  /** The links of the capabilities in `cs` the model has, each guarded by
      its `hasattr` probe. */
  function CapabilityLinks(m: ModelClass, cs: seq<Capability>): (r: seq<Action>)
    requires ModelTopUrl !in cs
    ensures |r| <= |cs|
    ensures forall i :: 0 <= i < |r| ==> !r[i].IsDivider()
  {
    if cs == [] then []
    else (if cs[0] in m.capabilities then [LinkFor(m, cs[0]).value] else []) + CapabilityLinks(m, cs[1..])
  }

  /** `links` holds, position by position, the link of each capability in
      `caps`, all of which the model has. */
  predicate LinksFor(m: ModelClass, caps: seq<Capability>, links: seq<Action>)
  {
    && |links| == |caps|
    && forall i :: 0 <= i < |caps| ==>
         caps[i] != ModelTopUrl && caps[i] in m.capabilities && links[i] == LinkFor(m, caps[i]).value
  }

  lemma LinksForCons(m: ModelClass, c: Capability, caps: seq<Capability>, x: Action, links: seq<Action>)
    requires LinksFor(m, caps, links)
    requires c != ModelTopUrl && c in m.capabilities && x == LinkFor(m, c).value
    ensures LinksFor(m, [c] + caps, [x] + links)
  {
    assert forall i :: 1 <= i < |caps| + 1 ==> ([c] + caps)[i] == caps[i - 1] && ([x] + links)[i] == links[i - 1];
  }

  /** One link per capability the model has, in the order of `cs`, each
      built by that capability's `make_*_link`. */
  lemma {:induction false} CapabilityLinksOrder(m: ModelClass, cs: seq<Capability>)
    requires ModelTopUrl !in cs
    ensures LinksFor(m, Filter(cs, Has(m)), CapabilityLinks(m, cs))
  {
    if cs != [] {
      var f, l := Filter(cs[1..], Has(m)), CapabilityLinks(m, cs[1..]);
      CapabilityLinksOrder(m, cs[1..]);
      if cs[0] in m.capabilities {
        assert Filter(cs, Has(m)) == [cs[0]] + f;
        LinksForCons(m, cs[0], f, LinkFor(m, cs[0]).value, l);
      } else {
        assert Filter(cs, Has(m)) == f;
      }
    }
  }

  /** Probing one more capability appends at most its link. */
  lemma {:induction false} CapabilityLinksSnoc(m: ModelClass, cs: seq<Capability>, c: Capability)
    requires ModelTopUrl !in cs && c != ModelTopUrl
    ensures CapabilityLinks(m, cs + [c])
            == CapabilityLinks(m, cs) + (if c in m.capabilities then [LinkFor(m, c).value] else [])
  {
    if cs == [] {
      assert [c][1..] == [];
    } else {
      assert (cs + [c])[1..] == cs[1..] + [c];
      CapabilityLinksSnoc(m, cs[1..], c);
    }
  }

  /** The capabilities `_extend_list_common_links` probes, in its order. */
  const CommonCapabilities: seq<Capability> := [AddUrl, BulkAddUrl, SortUrl, FilterUrl]

  /** The capabilities the year archive menu probes, in its order. */
  const YearArchiveCapabilities: seq<Capability> := CommonCapabilities + [LatestMonthUrl]

  /** The capabilities the month archive menu probes, in its order. */
  const MonthArchiveCapabilities: seq<Capability> := CommonCapabilities + [LatestYearUrl]

  /** The archive tuple: `top_link`, the action links, `extra_menu`, and
      `all_menu` as it is. */
  function ArchiveShape(topLink: Action, links: seq<Entry>, extraMenu: seq<Entry>, allMenu: seq<Action>): (r: seq<Entry>)
    ensures |r| == 2 + |links| + |extraMenu|
    ensures r[0] == Single(topLink) && r[|r| - 1] == Nested(allMenu)
    ensures r[1..|r| - 1 - |extraMenu|] == links && r[|r| - 1 - |extraMenu|..|r| - 1] == extraMenu
  {
    var r := [Single(topLink)] + links + extraMenu + [Nested(allMenu)];
    assert r[1..|r| - 1 - |extraMenu|] == links;
    r
  }

  /** What `_extend_list_common_links` appends. */
  function CommonLinks(m: ModelClass): seq<Action>
  {
    CapabilityLinks(m, CommonCapabilities)
  }

  /** `CRUDLMenu._extend_list_common_links`: appends the add, bulk-add, sort
      and filter links, each only when the model has that url method. */
  method ExtendListCommonLinks(m: ModelClass, actionLinks: seq<Action>) returns (r: seq<Action>)
    ensures r == actionLinks + CommonLinks(m)
  {
    r := actionLinks;
    assert [] + [AddUrl] == [AddUrl];
    ProbeStep(m, actionLinks, [], AddUrl, r);
    if AddUrl in m.capabilities {
      r := r + [MakeAddLink(m).value];
    }
    assert [AddUrl] + [BulkAddUrl] == [AddUrl, BulkAddUrl];
    ProbeStep(m, actionLinks, [AddUrl], BulkAddUrl, r);
    if BulkAddUrl in m.capabilities {
      r := r + [MakeBulkAddLink(m).value];
    }
    assert [AddUrl, BulkAddUrl] + [SortUrl] == [AddUrl, BulkAddUrl, SortUrl];
    ProbeStep(m, actionLinks, [AddUrl, BulkAddUrl], SortUrl, r);
    if SortUrl in m.capabilities {
      r := r + [MakeSortLink(m).value];
    }
    ProbeStep(m, actionLinks, [AddUrl, BulkAddUrl, SortUrl], FilterUrl, r);
    if FilterUrl in m.capabilities {
      r := r + [MakeFilterLink(m).value];
    }
    assert [AddUrl, BulkAddUrl, SortUrl] + [FilterUrl] == CommonCapabilities;
  }

  /** One `hasattr` probe of `_extend_list_common_links`: the links so far
      plus the probed capability's link, when the model has it. */
  lemma ProbeStep(m: ModelClass, base: seq<Action>, probed: seq<Capability>, c: Capability, r: seq<Action>)
    requires ModelTopUrl !in probed && c != ModelTopUrl
    requires r == base + CapabilityLinks(m, probed)
    ensures c in m.capabilities ==> r + [LinkFor(m, c).value] == base + CapabilityLinks(m, probed + [c])
    ensures c !in m.capabilities ==> r == base + CapabilityLinks(m, probed + [c])
  {
    CapabilityLinksSnoc(m, probed, c);
  }

  /** One entry of a navbar tuple: an action, or a nested list of actions
      (an `ActionList`, or a list/tuple inside `extra_menu`). */
  datatype Entry = Single(action: Action) | Nested(items: seq<Action>)

  /** Each action as a tuple entry of its own. */
  function Singles(xs: seq<Action>): (r: seq<Entry>)
    ensures |r| == |xs|
    ensures forall i :: 0 <= i < |r| ==> r[i] == Single(xs[i])
  {
    if xs == [] then [] else [Single(xs[0])] + Singles(xs[1..])
  }

  datatype CRUDLMenu = CRUDLMenu(model: ModelClass, topLink: Action, allMenu: seq<Action>)
  {
    /** The link the add family shows second: `get_model_top_link()` when
        the model defines it, else the list link. */
    function ModelTopLink(): (r: Result<Action>)
      ensures model.modelTopLink.Some? ==> r == Ok(model.modelTopLink.value)
      ensures model.modelTopLink.None? ==> r == MakeListLink(model, None)
    {
      if model.modelTopLink.Some? then Ok(model.modelTopLink.value) else MakeListLink(model, None)
    }

    /** `add_navbar_links`, shared by the bulk-add, detail, edit, delete,
        sort, select and formset pages. */
    function AddNavbarLinks(extraMenu: seq<Entry>): (r: Result<seq<Entry>>)
      ensures r.Ok? <==> ModelTopLink().Ok? && Resolvable(allMenu, ModelTopLink().value)
      ensures r.Ok? ==> |r.value| == 3 + |extraMenu|
      ensures r.Ok? ==> r.value[0] == Single(topLink) && r.value[1] == Single(ModelTopLink().value)
      ensures r.Ok? ==> r.value[2..2 + |extraMenu|] == extraMenu
      ensures r.Ok? ==> r.value[|r.value| - 1] == Nested(Filter(allMenu, Keeper(ModelTopLink().value)))
    {
      match ModelTopLink()
      case Err(e) => Err(e)
      case Ok(top) =>
        match Subtract(allMenu, AnAction(top))
        case Err(e) => Err(e)
        case Ok(rest) => Ok([Single(topLink), Single(top)] + extraMenu + [Nested(rest)])
    }

    /** `filter_navbar_links`: the add link and the list link are required. */
    function FilterNavbarLinks(extraMenu: seq<Entry>): (r: Result<seq<Entry>>)
      ensures r.Ok? <==> AddUrl in model.capabilities && ListUrl in model.capabilities
                         && Resolvable(allMenu, MakeListLink(model, None).value)
      ensures r.Ok? ==> |r.value| == 4 + |extraMenu|
      ensures r.Ok? ==> r.value[..3] == [Single(topLink), Single(MakeAddLink(model).value),
                                         Single(MakeListLink(model, None).value)]
      ensures r.Ok? ==> r.value[3..3 + |extraMenu|] == extraMenu
      ensures r.Ok? ==> r.value[|r.value| - 1] == Nested(Filter(allMenu, Keeper(MakeListLink(model, None).value)))
    {
      match MakeAddLink(model)
      case Err(e) => Err(e)
      case Ok(add) =>
        match MakeListLink(model, None)
        case Err(e) => Err(e)
        case Ok(list) =>
          match Subtract(allMenu, AnAction(list))
          case Err(e) => Err(e)
          case Ok(rest) => Ok([Single(topLink), Single(add), Single(list)] + extraMenu + [Nested(rest)])
    }

    /** `list_navbar_links`: the collection operations the model offers,
        then `extra_menu`, then `all_menu` without the page's own list link. */
    function ListNavbarLinks(extraMenu: seq<Entry>): (r: Result<seq<Entry>>)
      ensures r.Ok? <==> ListUrl in model.capabilities && Resolvable(allMenu, MakeListLink(model, None).value)
      ensures r.Ok? ==> |r.value| == 2 + |CommonLinks(model)| + |extraMenu|
      ensures r.Ok? ==> r.value[0] == Single(topLink)
      ensures r.Ok? ==> r.value[|r.value| - 1] == Nested(Filter(allMenu, Keeper(MakeListLink(model, None).value)))
    {
      var actionLinks := CommonLinks(model);
      match MakeListLink(model, None)
      case Err(e) => Err(e)
      case Ok(list) =>
        match Subtract(allMenu, AnAction(list))
        case Err(e) => Err(e)
        case Ok(rest) => Ok([Single(topLink)] + Singles(actionLinks) + extraMenu + [Nested(rest)])
    }

    /** `year_archive_navbar_links`: the list links plus the latest-month
        link when the model has it, then `extra_menu`, then `all_menu`
        untouched. */
    function YearArchiveNavbarLinks(extraMenu: seq<Entry>): (r: seq<Entry>)
      ensures |r| == 2 + |CapabilityLinks(model, YearArchiveCapabilities)| + |extraMenu|
      ensures r[0] == Single(topLink)
      ensures r[|r| - 1] == Nested(allMenu)
      ensures r[1..|r| - 1 - |extraMenu|] == Singles(CapabilityLinks(model, YearArchiveCapabilities))
      ensures r[|r| - 1 - |extraMenu|..|r| - 1] == extraMenu
    {
      CapabilityLinksSnoc(model, CommonCapabilities, LatestMonthUrl);
      var actionLinks := CommonLinks(model)
        + (if LatestMonthUrl in model.capabilities then [MakeLatestMonthLink(model).value] else []);
      ArchiveShape(topLink, Singles(actionLinks), extraMenu, allMenu)
    }

    /** `month_archive_navbar_links`: as the year archive, with the
        latest-year link instead. */
    function MonthArchiveNavbarLinks(extraMenu: seq<Entry>): (r: seq<Entry>)
      ensures |r| == 2 + |CapabilityLinks(model, MonthArchiveCapabilities)| + |extraMenu|
      ensures r[0] == Single(topLink)
      ensures r[|r| - 1] == Nested(allMenu)
      ensures r[1..|r| - 1 - |extraMenu|] == Singles(CapabilityLinks(model, MonthArchiveCapabilities))
      ensures r[|r| - 1 - |extraMenu|..|r| - 1] == extraMenu
    {
      CapabilityLinksSnoc(model, CommonCapabilities, LatestYearUrl);
      var actionLinks := CommonLinks(model)
        + (if LatestYearUrl in model.capabilities then [MakeLatestYearLink(model).value] else []);
      ArchiveShape(topLink, Singles(actionLinks), extraMenu, allMenu)
    }

    /** The builder bound to each `*_navbar_links` name, aliases included. */
    function NavbarLinksFor(kind: MenuKind, extraMenu: seq<Entry>): (r: Result<seq<Entry>>)
      ensures kind.AddFamily() ==> r == AddNavbarLinks(extraMenu)
      ensures r.Ok? ==> |r.value| >= 2 && r.value[0] == Single(topLink)
    {
      match kind
      case ListMenu => ListNavbarLinks(extraMenu)
      case FilterMenu => FilterNavbarLinks(extraMenu)
      case YearArchiveMenu => Ok(YearArchiveNavbarLinks(extraMenu))
      case MonthArchiveMenu => Ok(MonthArchiveNavbarLinks(extraMenu))
      case _ => AddNavbarLinks(extraMenu)
    }
  }

  /** The names of the `CRUDLMenu` navbar methods. */
  datatype MenuKind =
    | AddMenu | BulkAddMenu | DetailMenu | EditMenu | DeleteMenu | SortMenu | SelectMenu | FormsetMenu
    | ListMenu | FilterMenu | YearArchiveMenu | MonthArchiveMenu
  {
    /** The names bound to `add_navbar_links`. */
    predicate AddFamily()
    {
      !(ListMenu? || FilterMenu? || YearArchiveMenu? || MonthArchiveMenu?)
    }
  }

  /** On a list page no entry of `all_menu` other than a divider points at
      the list url any more. */
  lemma ListNavbarOmitsOwnLink(menu: CRUDLMenu, extraMenu: seq<Entry>, i: nat)
    requires menu.ListNavbarLinks(extraMenu).Ok?
    requires i < |menu.ListNavbarLinks(extraMenu).value[|menu.ListNavbarLinks(extraMenu).value| - 1].items|
    ensures var e := menu.ListNavbarLinks(extraMenu).value[|menu.ListNavbarLinks(extraMenu).value| - 1].items[i];
            e.IsDivider() || e.ResolvedUrl() != Ok(Bound(menu.model.name, ListUrl))
  {
  }

  /** The list page's entries between `top_link` and `all_menu`: the
      common collection links, then `extra_menu`. */
  lemma ListNavbarShape(menu: CRUDLMenu, extraMenu: seq<Entry>)
    requires menu.ListNavbarLinks(extraMenu).Ok?
    ensures var r := menu.ListNavbarLinks(extraMenu).value;
            var k := |CommonLinks(menu.model)|;
            r[1..1 + k] == Singles(CommonLinks(menu.model)) && r[1 + k..|r| - 1] == extraMenu
  {
    var r := menu.ListNavbarLinks(extraMenu).value;
    var links := Singles(CommonLinks(menu.model));
    var k := |links|;
    assert r == [Single(menu.topLink)] + links + extraMenu + [r[|r| - 1]];
    assert r[1..1 + k] == links;
    assert r[1 + k..|r| - 1] == extraMenu;
  }

  /** Some action of `links` leads to the model's url method for `c`. */
  predicate LinksTo(links: seq<Action>, m: ModelClass, c: Capability)
  {
    exists i :: 0 <= i < |links| && links[i].ResolvedUrl() == Ok(Bound(m.name, c))
  }

  /** The link for a capability is among `CapabilityLinks(m, cs)` exactly
      when `cs` probes it and the model has it. */
  lemma CapabilityLinkPresent(m: ModelClass, cs: seq<Capability>, c: Capability)
    requires ModelTopUrl !in cs && c != ModelTopUrl
    ensures LinksTo(CapabilityLinks(m, cs), m, c) <==> c in cs && c in m.capabilities
  {
    var links := CapabilityLinks(m, cs);
    var present := Filter(cs, Has(m));
    CapabilityLinksOrder(m, cs);
    if c in cs && c in m.capabilities {
      var j :| 0 <= j < |cs| && cs[j] == c;
      assert Has(m)(cs[j]);
      var k :| 0 <= k < |present| && present[k] == c;
      assert links[k] == LinkFor(m, c).value;
      assert links[k].ResolvedUrl() == Ok(Bound(m.name, c));
    }
    if LinksTo(links, m, c) {
      var i :| 0 <= i < |links| && links[i].ResolvedUrl() == Ok(Bound(m.name, c));
      var p := present[i];
      assert links[i] == LinkFor(m, p).value;
      assert links[i].ResolvedUrl() == Ok(Bound(m.name, p));
      assert p in cs;
    }
  }

  /** `LINK_TO_ADMIN`. */
  const LinkToAdmin: Action := LinkAction("管理画面", Route("admin:index"))

  /** A view's `navbar_links` value. */
  datatype NavbarLinks =
    | Sequence(entries: seq<Entry>)   // a list or tuple
    | Bare(action: Action)            // a single Action
    | NoLinks                         // None
    | Malformed(truthy: bool)         // any other value

  {
    /** Python truthiness. */
    predicate Truthy()
    {
      match this
      case Sequence(es) => es != []
      case Bare(_) => true
      case NoLinks => false
      case Malformed(t) => t
    }
  }

  /** The `default_navbar_links` hook a view class defines: a `CRUDLMenu`
      method, or a body that raises. */
  datatype MenuHook = Uses(kind: MenuKind) | Raises(error: Error)

  /** Calling a view's `default_navbar_links(menu, extra_menu)`. */
  function DefaultNavbarLinks(hook: MenuHook, menu: CRUDLMenu, extraMenu: seq<Entry>): (r: Result<NavbarLinks>)
    ensures hook.Raises? ==> r == Err(hook.error)
    ensures hook.Uses? ==> (r.Ok? <==> menu.NavbarLinksFor(hook.kind, extraMenu).Ok?)
    ensures r.Ok? ==> r.value.Sequence? && r.value.entries == menu.NavbarLinksFor(hook.kind, extraMenu).value
  {
    match hook
    case Raises(e) => Err(e)
    case Uses(kind) =>
      match menu.NavbarLinksFor(kind, extraMenu)
      case Err(e) => Err(e)
      case Ok(es) => Ok(Sequence(es))
  }

  /** `NavbarMixin.__init__`: a configured menu decides; without one a
      truthy `get_navbar_links()` is used, and `LINK_TO_ADMIN` otherwise. */
  function InitialNavbarLinks(menu: Option<CRUDLMenu>, hook: MenuHook, extraMenu: seq<Entry>, own: NavbarLinks)
    : (r: Result<NavbarLinks>)
    ensures menu.Some? ==> r == DefaultNavbarLinks(hook, menu.value, extraMenu)
    ensures menu.None? ==> r.Ok? && r.value.Truthy()
    ensures menu.None? && own.Truthy() ==> r == Ok(own)
    ensures menu.None? && !own.Truthy() ==> r == Ok(Bare(LinkToAdmin))
  {
    if menu.Some? then DefaultNavbarLinks(hook, menu.value, extraMenu)
    else if own.Truthy() then Ok(own)
    else Ok(Bare(LinkToAdmin))
  }

  /** An entry of the rendered navigation bar. */
  datatype MenuItem = Link(action: Action) | Submenu(submenus: seq<Action>, hasSubmenu: bool)

  /** A view's navigation-bar state. */
  class Navbar {
    var navbarLinks: NavbarLinks

    /** `NavbarMixin.__init__`, with the failure of the hook kept as a value. */
    constructor (menu: Option<CRUDLMenu>, hook: MenuHook, extraMenu: seq<Entry>, own: NavbarLinks)
      requires InitialNavbarLinks(menu, hook, extraMenu, own).Ok?
      ensures navbarLinks == InitialNavbarLinks(menu, hook, extraMenu, own).value
    {
      navbarLinks := InitialNavbarLinks(menu, hook, extraMenu, own).value;
    }

    /** `extra_context`: list/tuple entries become submenus, other entries
        pass through in order, a bare action becomes a one-entry list, and
        anything else is a configuration error. */
    method ExtraContext() returns (r: Result<seq<MenuItem>>)
      ensures r.Ok? <==> navbarLinks.Sequence? || navbarLinks.Bare?
      ensures r.Err? ==> r.error == ImproperlyConfigured
      ensures navbarLinks.Bare? ==> r == Ok([Link(navbarLinks.action)])
      ensures navbarLinks.Sequence? ==> r.Ok? && |r.value| == |navbarLinks.entries|
      ensures navbarLinks.Sequence? ==> forall i :: 0 <= i < |r.value| ==>
                (navbarLinks.entries[i].Nested? ==> r.value[i] == Submenu(navbarLinks.entries[i].items, true))
                && (navbarLinks.entries[i].Single? ==> r.value[i] == Link(navbarLinks.entries[i].action))
    {
      var menus: seq<MenuItem> := [];
      match navbarLinks {
        case Sequence(entries) =>
          for k := 0 to |entries|
            invariant |menus| == k
            invariant forall i :: 0 <= i < k ==>
                        (entries[i].Nested? ==> menus[i] == Submenu(entries[i].items, true))
                        && (entries[i].Single? ==> menus[i] == Link(entries[i].action))
          {
            match entries[k] {
              case Nested(items) => menus := menus + [Submenu(items, true)];
              case Single(a) => menus := menus + [Link(a)];
            }
          }
          r := Ok(menus);
        case Bare(a) =>
          r := Ok([Link(a)]);
        case NoLinks =>
          r := Err(ImproperlyConfigured);
        case Malformed(_) =>
          r := Err(ImproperlyConfigured);
      }
    }
  }
}
