/** The generic list pages of `libs/views/list.py`: the model list, whose
    perspectives fall back to those derived from the model's fields, and
    the list of one parent object's children, which offers a button to add
    a child already pointing at the parent. */
module ListViews {
  import opened Errors
  import opened Text
  import opened Fields
  import opened Actions
  import opened Menu
  import opened Perspectives
  import QS = QueryStrings

  // ---------------------------------------------------------------------
  // GenericListView

  /** `GenericListView.get_perspectives`: the inherited perspectives when
      there are any, else those derived from the model's fields. */
  function GetPerspectives(inherited: Result<seq<Perspective>>, fs: seq<Field>): (r: Result<seq<Perspective>>)
    ensures inherited.Err? ==> r == inherited
    ensures inherited.Ok? && inherited.value != [] ==> r == inherited
    ensures inherited.Ok? && inherited.value == [] ==> r == ListPerspectives(fs)
  {
    match inherited
    case Err(e) => Err(e)
    case Ok(ps) => if ps != [] then Ok(ps) else ListPerspectives(fs)
  }

  /** The inherited `get_perspectives` is `ListViewPerspectiveMixin`'s,
      which already derives the perspectives from the same model, so the
      fallback never changes the result: a model list's perspectives are
      always its derived ones. */
  lemma GetPerspectivesIsDerived(fs: seq<Field>)
    ensures GetPerspectives(ListPerspectives(fs), fs) == ListPerspectives(fs)
  {
  }

  /** `default_navbar_links` of the model list. */
  const ListViewHook: MenuHook := Uses(ListMenu)

  lemma ListNavbar(menu: CRUDLMenu, extraMenu: seq<Entry>)
    ensures var r := DefaultNavbarLinks(ListViewHook, menu, extraMenu);
      && (r.Ok? <==> menu.ListNavbarLinks(extraMenu).Ok?)
      && (r.Ok? ==> r.value == Sequence(menu.ListNavbarLinks(extraMenu).value))
  {
  }

  // ---------------------------------------------------------------------
  // GenericChildListView

  /** The parent record of a child list, as far as the page uses it. */
  datatype Parent = Parent(id: nat, display: string)   // display: str(parent)

  /** `setup`: the parent is looked up by the `pk` URL argument; a missing
      argument is a `KeyError` and an unknown key a 404.  `lookup` stands
      for `get_object_or_404(parent_model, id=...)`. */
  function ParentObject(kwargs: map<string, string>, lookup: string -> Option<Parent>): (r: Result<Parent>)
    ensures "pk" !in kwargs ==> r == Err(KeyMissing)
    ensures "pk" in kwargs && lookup(kwargs["pk"]).None? ==> r == Err(NotFound)
    ensures "pk" in kwargs && lookup(kwargs["pk"]).Some? ==> r == Ok(lookup(kwargs["pk"]).value)
  {
    if "pk" !in kwargs then Err(KeyMissing)
    else
      var found := lookup(kwargs["pk"]);
      if found.Some? then Ok(found.value) else Err(NotFound)
  }

  /** The URL of the add-child button: the child's add URL with the parent
      key as its query. */
  function ChildAddUrl(addUrl: string, parentKey: string, parent: Parent): string
  {
    addUrl + "?" + parentKey + "=" + NatToDecimal(parent.id)
  }

  /** `get_extra_buttons`: one "<child verbose name>を追加" link when the
      child model has `get_add_url` (whose result is `addUrl`), none
      otherwise. */
  function ChildExtraButtons(childVerboseName: string, addUrl: Option<string>, parentKey: string, parent: Parent)
    : (r: seq<Action>)
    ensures addUrl.None? ==> r == []
    ensures addUrl.Some? ==> |r| == 1 && r[0].LinkAction? && r[0].caption == childVerboseName + "を追加"
    ensures addUrl.Some? ==> r[0].url == Literal(ChildAddUrl(addUrl.value, parentKey, parent))
  {
    if addUrl.Some? then [LinkAction(childVerboseName + "を追加", Literal(ChildAddUrl(addUrl.value, parentKey, parent)))]
    else []
  }

  /** `get_queryset`: the children are filtered on the single condition
      `parent_key = parent.id`. */
  function ChildFilter(parentKey: string, parent: Parent): (r: map<string, nat>)
    ensures r.Keys == {parentKey}
    ensures r[parentKey] == parent.id
  {
    map[parentKey := parent.id]
  }

  /** The add-child button's query carries exactly the filter of the child
      list: following it, the add page sees one parameter, the parent key,
      whose value is the parent's id in decimal, at the add URL. */
  lemma ChildAddUrlCarriesFilter(addUrl: string, parentKey: string, parent: Parent)
    requires '?' !in addUrl && '#' !in addUrl && QS.ValidKey(parentKey)
    ensures var u := QS.UrlParse(ChildAddUrl(addUrl, parentKey, parent));
      && u.base == addUrl && u.fragment == ""
      && QS.ParseQs(u.query) == [(parentKey, [NatToDecimal(ChildFilter(parentKey, parent)[parentKey])])]
  {
    var v := NatToDecimal(parent.id);
    assert '&' !in v && '#' !in v && '?' !in v by {
      forall c | c in v ensures '0' <= c <= '9' {
        var i :| 0 <= i < |v| && v[i] == c;
      }
    }
    var q := parentKey + "=" + v;
    assert ChildAddUrl(addUrl, parentKey, parent) == addUrl + ['?'] + q;
    assert '#' !in q by {
      assert forall c :: c in q ==> c in parentKey || c == '=' || c in v;
    }
    QS.UrlParseOfQuery(addUrl, q);
    QS.ParseQsSingle(parentKey, v);
  }

  /** What the child list's `get_context_data` writes. */
  datatype ChildListContext = ChildListContext(obj: Parent, objectName: string, extraButtons: seq<Action>)

  /** `GenericChildListView.get_context_data`: the parent is the page's
      object and its `str()` the page's title. */
  function ChildListContextData(parent: Parent, childVerboseName: string, addUrl: Option<string>, parentKey: string)
    : (r: ChildListContext)
    ensures r.obj == parent && r.objectName == parent.display
    ensures r.extraButtons == ChildExtraButtons(childVerboseName, addUrl, parentKey, parent)
  {
    ChildListContext(parent, parent.display, ChildExtraButtons(childVerboseName, addUrl, parentKey, parent))
  }

  /** `default_navbar_links` of the child list: the detail menu. */
  const ChildListViewHook: MenuHook := Uses(DetailMenu)

  lemma ChildListNavbar(menu: CRUDLMenu, extraMenu: seq<Entry>)
    ensures var r := DefaultNavbarLinks(ChildListViewHook, menu, extraMenu);
      && (r.Ok? <==> menu.AddNavbarLinks(extraMenu).Ok?)
      && (r.Ok? ==> r.value == Sequence(menu.AddNavbarLinks(extraMenu).value))
  {
  }

  // ---------------------------------------------------------------------
  // The `__init__` guard of both list views

  /** `get_queryset` is a bound method, and a bound method is always
      truthy. */
  const BoundMethodTruthy: bool := true

  /** The guard as written: `not self.model and not self.queryset and not
      self.get_queryset`; the last operand is a bound method. */
  function InitGuardAsWritten(hasModel: bool, hasQueryset: bool): (r: Result<()>)
    ensures r.Err? <==> !hasModel && !hasQueryset && !BoundMethodTruthy
    ensures r.Err? ==> r.error == ImproperlyConfigured
  {
    if !hasModel && !hasQueryset && !BoundMethodTruthy then Err(ImproperlyConfigured) else Ok(())
  }

  /** The guard never fires: a view with neither `model` nor `queryset` is
      accepted. */
  lemma InitGuardNeverFires(hasModel: bool, hasQueryset: bool)
    ensures InitGuardAsWritten(hasModel, hasQueryset) == Ok(())
    ensures InitGuardAsWritten(false, false).Ok?
  {
  }

  /** The guard as its message describes it: a view needs `model`,
      `queryset` or its own `get_queryset()`. */
  function InitGuard(hasModel: bool, hasQueryset: bool, overridesGetQueryset: bool): (r: Result<()>)
    ensures r.Err? <==> !hasModel && !hasQueryset && !overridesGetQueryset
    ensures r.Err? ==> r.error == ImproperlyConfigured
  {
    if !hasModel && !hasQueryset && !overridesGetQueryset then Err(ImproperlyConfigured) else Ok(())
  }

  /** The child list defines its own `get_queryset`, so it always passes
      the corrected guard; a model list without `model` and `queryset`
      does not. */
  lemma InitGuardCorrected(hasModel: bool, hasQueryset: bool)
    ensures InitGuard(hasModel, hasQueryset, true).Ok?
    ensures InitGuard(false, false, false) == Err(ImproperlyConfigured)
    ensures InitGuard(false, false, false) != InitGuardAsWritten(false, false)
  {
  }
}
