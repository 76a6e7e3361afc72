/** Menu entries ("actions") and lists of them (apps/libs/actions.py).

    An action is a value record with a label and a url.  Detail, delete,
    edit and copy actions do not store a url: they ask their model instance
    for it every time it is read.  Model classes expose their collection
    urls as optional methods; the menus store the bound method itself as
    the url, so two such urls are equal exactly when they are the same
    method of the same model class (`Bound`). */
module Actions {
  import opened Errors
  import opened Seqs

  /** `ActionIcon`. */
  datatype Icon = AddIcon | CopyIcon | SearchIcon
  {
    function Name(): string
    {
      match this
      case AddIcon => "plus-circle"
      case CopyIcon => "copy"
      case SearchIcon => "search"
    }
  }

  /** The optional url methods a model class may define (probed with `hasattr`). */
  datatype Capability =
    | ListUrl         // get_list_url
    | AddUrl          // get_add_url
    | BulkAddUrl      // get_bulk_add_url
    | SortUrl         // get_sort_url
    | FilterUrl       // get_filter_url
    | LatestYearUrl   // get_latest_year_url
    | LatestMonthUrl  // get_latest_month_url
    | ModelTopUrl     // get_model_top_url

  /** An action's url: a string, a lazily reversed route name, or the bound
      url method of a model class (identified by the class name), compared
      by identity.  Equality of two `Url`s is equality of these
      descriptions: a `Route` is never equal to the `Literal` of the path
      it would resolve to, where Django's lazy `reverse_lazy` proxy would
      compare by the resolved string. */
  datatype Url = Literal(text: string) | Route(name: string) | Bound(model: string, capability: Capability)

  /** What a model instance answers when an action asks it for a url;
      `None` means the instance has no such method of its own.  An
      instance of an `ActionMixin` class inherits a `get_edit_url` that
      raises `NotImplementedError`. */
  datatype Instance = Instance(
    absoluteUrl: Option<string>,  // get_absolute_url()
    deleteUrl: Option<string>,    // get_delete_url()
    editUrl: Option<string>,      // get_edit_url()
    copyUrl: Option<string>,      // get_copy_url()
    actionMixin: bool             // the class derives from ActionMixin
  )
  {
    /** The error reading `get_edit_url` gives when the class does not
        define it itself. */
    function MissingEditUrl(): (e: Error)
      ensures e == NotImplemented <==> actionMixin
      ensures e == MissingAttribute <==> !actionMixin
    {
      if actionMixin then NotImplemented else MissingAttribute
    }
  }

  /** The dataclasses deriving from `Action`, with their fields. */
  datatype Action =
    | PostAction(caption: string, url: Url)
    | LinkAction(caption: string, url: Url)
    | AddAction(url: Url, icon: Icon, caption: string)
    | BulkAddAction(url: Url, caption: string)
    | SortAction(url: Url, caption: string)
    | SearchAction(url: Url, icon: Icon, caption: string)
    | DetailAction(instance: Instance, caption: string)
    | DeleteAction(instance: Instance, caption: string)
    | EditAction(instance: Instance, caption: string)
    | CopyAction(instance: Instance, icon: Icon, caption: string)
    | DividerAction(divider: bool)
  {
    /** `is_divider`: false for every action except a `DividerAction`,
        whose `is_divider` field defaults to true. */
    predicate IsDivider()
    {
      DividerAction? && divider
    }

    /** Only `PostAction` defines `is_post`. */
    predicate IsPost()
    {
      PostAction?
    }

    /** Only `DeleteAction` is marked `is_danger`. */
    predicate IsDanger()
    {
      DeleteAction?
    }

    /** Reading `url`: stored for the plain actions, asked of the instance
        for detail/delete/edit/copy, missing on a divider. */
    function ResolvedUrl(): (r: Result<Url>)
      ensures DividerAction? ==> r == Err(MissingAttribute)
      ensures DetailAction? ==> r == InstanceUrl(instance.absoluteUrl, MissingAttribute)
      ensures DeleteAction? ==> r == InstanceUrl(instance.deleteUrl, MissingAttribute)
      ensures EditAction? ==> r == InstanceUrl(instance.editUrl, instance.MissingEditUrl())
      ensures CopyAction? ==> r == InstanceUrl(instance.copyUrl, MissingAttribute)
      ensures (PostAction? || LinkAction? || AddAction? || BulkAddAction? || SortAction? || SearchAction?)
                ==> r == Ok(url)
    {
      match this
      case PostAction(_, u) => Ok(u)
      case LinkAction(_, u) => Ok(u)
      case AddAction(u, _, _) => Ok(u)
      case BulkAddAction(u, _) => Ok(u)
      case SortAction(u, _) => Ok(u)
      case SearchAction(u, _, _) => Ok(u)
      case DetailAction(i, _) => InstanceUrl(i.absoluteUrl, MissingAttribute)
      case DeleteAction(i, _) => InstanceUrl(i.deleteUrl, MissingAttribute)
      case EditAction(i, _) => InstanceUrl(i.editUrl, i.MissingEditUrl())
      case CopyAction(i, _, _) => InstanceUrl(i.copyUrl, MissingAttribute)
      case DividerAction(_) => Err(MissingAttribute)
    }
  }

  /** Calling an instance's url method: its answer, or `missing` when the
      instance does not define it (an AttributeError, or the
      NotImplementedError of an inherited stub). */
  function InstanceUrl(answer: Option<string>, missing: Error): Result<Url>
  {
    if answer.Some? then Ok(Literal(answer.value)) else Err(missing)
  }

  // Constructors with the dataclass defaults: the label (and icon) a
  // caller may leave out, and where the url comes from.

  function NewAddAction(url: Url): (r: Action)
    ensures r.AddAction? && r.caption == "追加" && r.icon == AddIcon && r.ResolvedUrl() == Ok(url) && !r.IsDivider()
  {
    AddAction(url, AddIcon, "追加")
  }

  function NewBulkAddAction(url: Url): (r: Action)
    ensures r.BulkAddAction? && r.caption == "一括追加" && r.ResolvedUrl() == Ok(url) && !r.IsDivider()
  {
    BulkAddAction(url, "一括追加")
  }

  function NewSortAction(url: Url): (r: Action)
    ensures r.SortAction? && r.caption == "ソート" && r.ResolvedUrl() == Ok(url) && !r.IsDivider()
  {
    SortAction(url, "ソート")
  }

  function NewSearchAction(url: Url): (r: Action)
    ensures r.SearchAction? && r.caption == "検索" && r.icon == SearchIcon && r.ResolvedUrl() == Ok(url) && !r.IsDivider()
  {
    SearchAction(url, SearchIcon, "検索")
  }

  function NewDetailAction(i: Instance): (r: Action)
    ensures r.DetailAction? && r.caption == "詳細" && r.ResolvedUrl() == InstanceUrl(i.absoluteUrl, MissingAttribute) && !r.IsDanger()
  {
    DetailAction(i, "詳細")
  }

  function NewDeleteAction(i: Instance): (r: Action)
    ensures r.DeleteAction? && r.caption == "削除" && r.ResolvedUrl() == InstanceUrl(i.deleteUrl, MissingAttribute) && r.IsDanger()
  {
    DeleteAction(i, "削除")
  }

  function NewEditAction(i: Instance): (r: Action)
    ensures r.EditAction? && r.caption == "編集" && r.ResolvedUrl() == InstanceUrl(i.editUrl, i.MissingEditUrl()) && !r.IsDanger()
  {
    EditAction(i, "編集")
  }

  function NewCopyAction(i: Instance): (r: Action)
    ensures r.CopyAction? && r.caption == "複製" && r.icon == CopyIcon && r.ResolvedUrl() == InstanceUrl(i.copyUrl, MissingAttribute)
  {
    CopyAction(i, CopyIcon, "複製")
  }

  const Divider: Action := DividerAction(true)

  /** `ActionMixin.get_edit_action`. */
  function GetEditAction(self: Instance): (r: Action)
    ensures r.ResolvedUrl() == InstanceUrl(self.editUrl, self.MissingEditUrl())
    ensures self.actionMixin && self.editUrl.None? ==> r.ResolvedUrl() == Err(NotImplemented)
    ensures !r.IsDivider()
  {
    NewEditAction(self)
  }

  /** `ActionMixin.get_actions`: a copy action exactly when the instance
      defines `get_copy_url`, and nothing otherwise. */
  function GetActions(self: Instance): (r: seq<Action>)
    ensures self.copyUrl.Some? <==> r != []
    ensures |r| <= 1
    ensures forall i :: 0 <= i < |r| ==> r[i].CopyAction? && r[i].ResolvedUrl() == Ok(Literal(self.copyUrl.value))
  {
    if self.copyUrl.Some? then [NewCopyAction(self)] else []
  }

  /** The right operand of `ActionList.__sub__`: an `Action`, or any other value. */
  datatype Operand = AnAction(action: Action) | NotAnAction

  /** The filter condition of `__sub__`: dividers stay, and so does every
      entry whose url differs from the operand's. */
  predicate Kept(a: Action, other: Action)
  {
    a.IsDivider() || a.ResolvedUrl() != other.ResolvedUrl()
  }

  /** `Kept` as a function value, for `Filter`. */
  function Keeper(other: Action): Action -> bool
  {
    (a: Action) => Kept(a, other)
  }

  /** `a.is_divider` as a function value, for `Filter`. */
  function IsDividerFn(): Action -> bool
  {
    (a: Action) => a.IsDivider()
  }

  /** Every url `__sub__` reads can be read: each non-divider entry's url
      and, if there is any such entry, the operand's. */
  predicate Resolvable(xs: seq<Action>, other: Action)
  {
    forall i :: 0 <= i < |xs| && !xs[i].IsDivider() ==> xs[i].ResolvedUrl().Ok? && other.ResolvedUrl().Ok?
  }

  /** `__sub__` for an action operand, scanning the list left to right;
      the first url that cannot be read raises. */
  function SubtractAction(xs: seq<Action>, other: Action): (r: Result<seq<Action>>)
    ensures r.Ok? <==> Resolvable(xs, other)
    ensures r.Ok? ==> r.value == Filter(xs, Keeper(other))
  {
    if xs == [] then Ok([])
    else
      var head := xs[0];
      assert forall i :: 1 <= i < |xs| ==> xs[i] == xs[1..][i - 1];
      if head.IsDivider() then
        var rest := SubtractAction(xs[1..], other);
        if rest.Err? then rest else Ok([head] + rest.value)
      else
        match head.ResolvedUrl()
        case Err(e) => Err(e)
        case Ok(u) =>
          match other.ResolvedUrl()
          case Err(e) => Err(e)
          case Ok(v) =>
            var rest := SubtractAction(xs[1..], other);
            if rest.Err? then rest
            else if u != v then Ok([head] + rest.value)
            else rest
  }

  /** `ActionList.__sub__`: anything but an `Action` on the right is a
      configuration error; otherwise the list keeps exactly the entries
      `Kept` by the operand, in their order. */
  function Subtract(xs: seq<Action>, other: Operand): (r: Result<seq<Action>>)
    ensures other.NotAnAction? ==> r == Err(ImproperlyConfigured)
    ensures other.AnAction? ==> (r.Ok? <==> Resolvable(xs, other.action))
    ensures r.Ok? ==> r.value == Filter(xs, Keeper(other.action))
  {
    match other
    case NotAnAction => Err(ImproperlyConfigured)
    case AnAction(a) => SubtractAction(xs, a)
  }

  /** The result of a subtraction is a subsequence of the list: same
      relative order, no longer. */
  lemma SubtractIsSubsequence(xs: seq<Action>, other: Action)
    requires Subtract(xs, AnAction(other)).Ok?
    ensures IsSubsequence(Subtract(xs, AnAction(other)).value, xs)
    ensures |Subtract(xs, AnAction(other)).value| <= |xs|
  {
    FilterIsSubsequence(xs, Keeper(other));
  }

  /** Dividers are never removed: the dividers of the result are those of
      the list, in the same order. */
  lemma SubtractKeepsDividers(xs: seq<Action>, other: Action)
    requires Subtract(xs, AnAction(other)).Ok?
    ensures Filter(Subtract(xs, AnAction(other)).value, IsDividerFn()) == Filter(xs, IsDividerFn())
  {
    FilterNarrower(xs, Keeper(other), IsDividerFn());
  }

  /** No entry other than a divider with the operand's url survives. */
  lemma SubtractRemovesUrl(xs: seq<Action>, other: Action, i: nat)
    requires Subtract(xs, AnAction(other)).Ok?
    requires i < |Subtract(xs, AnAction(other)).value|
    ensures var e := Subtract(xs, AnAction(other)).value[i];
            e.IsDivider() || e.ResolvedUrl() != other.ResolvedUrl()
  {
  }

  /** Subtracting the same action twice is the same as once. */
  lemma SubtractIdempotent(xs: seq<Action>, other: Action)
    requires Subtract(xs, AnAction(other)).Ok?
    ensures Subtract(Subtract(xs, AnAction(other)).value, AnAction(other)) == Subtract(xs, AnAction(other))
  {
    var once := Subtract(xs, AnAction(other)).value;
    assert Resolvable(once, other) by {
      forall i | 0 <= i < |once| && !once[i].IsDivider()
        ensures once[i].ResolvedUrl().Ok? && other.ResolvedUrl().Ok?
      {
        var k :| 0 <= k < |xs| && xs[k] == once[i];
      }
    }
    FilterIdempotent(xs, Keeper(other));
  }

  /** A divider survives any subtraction, even one whose operand has no url. */
  lemma DividerAlwaysKept(other: Action)
    ensures Subtract([Divider], AnAction(other)) == Ok([Divider])
  {
    var xs := [Divider];
    assert xs[0].IsDivider() && xs[1..] == [];
    assert SubtractAction(xs[1..], other) == Ok([]);
    assert [Divider] + [] == [Divider];
    assert SubtractAction(xs, other) == Ok([Divider]);
    assert Subtract(xs, AnAction(other)) == SubtractAction(xs, other);
  }

  /** Two non-divider actions with the same url cancel. */
  lemma SameUrlCancels(a: Action, b: Action)
    requires !a.IsDivider() && !b.IsDivider()
    requires a.ResolvedUrl().Ok? && a.ResolvedUrl() == b.ResolvedUrl()
    ensures Subtract([a], AnAction(b)) == Ok([])
  {
  }

  /** `[AddAction(url="/add"), DividerAction()] - AddAction(url="/add")` is `[DividerAction()]`. */
  lemma AddThenDividerExample()
    ensures Subtract([NewAddAction(Literal("/add")), Divider], AnAction(NewAddAction(Literal("/add"))))
            == Ok([Divider])
  {
    var add := NewAddAction(Literal("/add"));
    var xs := [add, Divider];
    assert xs[1..] == [Divider];
    DividerAlwaysKept(add);
    assert SubtractAction(xs, add) == SubtractAction([Divider], add);
  }

  /** Subtracting a divider from a list holding an ordinary action fails:
      the divider has no url to compare against. */
  lemma SubtractDividerFails(a: Action)
    requires !a.IsDivider() && a.ResolvedUrl().Ok?
    ensures Subtract([a], AnAction(Divider)) == Err(MissingAttribute)
  {
  }
}
