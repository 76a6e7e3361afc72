/** Perspectives (apps/libs/perspective.py): alternative ways of showing a
    list or a detail page, derived from a model's fields and chosen per
    request by the `perspective` query parameter. */
module Perspectives {
  import opened Errors
  import opened Seqs
  import opened Fields

  /** The dataclass a perspective is an instance of, with the field that
      only that class has. */
  datatype Variant =
    | Plain                     // Perspective
    | ListVariant               // ListPerspective
    | Sort(orderBy: string)     // SortPerspective
    | Grouping(groupBy: string) // GroupingPerspective
    | Related(accessor: string) // RelatedPerspective

  /** A perspective; two are equal when they are of the same class and all
      fields agree, as for dataclasses.  `manager` names the manager a
      `ListPerspective` reads from. */
  datatype Perspective = Perspective(
    key: string,
    objectName: string,
    ptype: string,
    manager: Option<string>,
    variant: Variant
  )

  /** The synthetic perspective of the model's natural ordering. */
  function DefaultPerspective(objectName: string): Perspective
  {
    Perspective("_default", objectName, "list", None, Plain)
  }

  /** The grouping perspective of a field. */
  function GroupingFor(f: Field): Perspective
  {
    Perspective(f.name, f.verboseName + "別一覧", "grouping", None, Grouping(f.name))
  }

  /** The sorting perspective of a field. */
  function SortFor(f: Field): Perspective
  {
    Perspective(f.name, f.verboseName + "でソート", "list", None, Sort(f.name))
  }

  /** What one field contributes to the list perspectives.  Comparing an
      unset `max_length` with 100 raises. */
  function ListPerspectiveOf(f: Field): (r: Result<Option<Perspective>>)
    ensures r.Err? <==> f.kind.CharField? && f.kind.maxLength.None?
    ensures r.Err? ==> r.error == UnorderableValue
    ensures r == Ok(Some(GroupingFor(f))) <==>
              (f.kind.ForeignKey? && !f.kind.parentLink) || (f.kind.IntegerField? && f.choices != []) || f.kind.BooleanField?
    ensures r == Ok(Some(SortFor(f))) <==>
              f.kind.CharField? && f.kind.maxLength.Some? && f.kind.maxLength.value <= 100
    ensures r.Ok? && r.value.Some? ==> r.value.value.key == f.name
    ensures r == Ok(None) <==>
              (f.kind.ForeignKey? && f.kind.parentLink) || (f.kind.IntegerField? && f.choices == [])
              || (f.kind.CharField? && f.kind.maxLength.Some? && f.kind.maxLength.value > 100)
              || !(f.kind.ForeignKey? || f.kind.IntegerField? || f.kind.BooleanField? || f.kind.CharField?)
  {
    match f.kind
    case ForeignKey(parentLink) => if !parentLink then Ok(Some(GroupingFor(f))) else Ok(None)
    case IntegerField => if f.choices != [] then Ok(Some(GroupingFor(f))) else Ok(None)
    case BooleanField => Ok(Some(GroupingFor(f)))
    case CharField(maxLength, _) =>
      if maxLength.None? then Err(UnorderableValue)
      else if maxLength.value <= 100 then Ok(Some(SortFor(f)))
      else Ok(None)
    case _ => Ok(None)
  }

  /** The list perspectives of a field list: each field's contribution, in
      declaration order; the first failing field fails the whole. */
  function ListPerspectives(fs: seq<Field>): (r: Result<seq<Perspective>>)
    ensures r.Ok? ==> |r.value| <= |fs|
  {
    if fs == [] then Ok([])
    else
      match ListPerspectives(fs[..|fs| - 1])
      case Err(e) => Err(e)
      case Ok(ps) =>
        match ListPerspectiveOf(fs[|fs| - 1])
        case Err(e) => Err(e)
        case Ok(None) => Ok(ps)
        case Ok(Some(p)) => Ok(ps + [p])
  }

  /** Once a prefix fails, every longer field list fails the same way. */
  lemma {:induction false} ListPerspectivesErrPersists(fs: seq<Field>, n: nat)
    requires n <= |fs|
    requires ListPerspectives(fs[..n]).Err?
    ensures ListPerspectives(fs) == ListPerspectives(fs[..n])
    decreases |fs| - n
  {
    if n < |fs| {
      assert fs[..n + 1][..n] == fs[..n];
      ListPerspectivesErrPersists(fs, n + 1);
    } else {
      assert fs[..n] == fs;
    }
  }

  /** `ListViewPerspectiveMixin.get_list_perspectives`. */
  method GetListPerspectives(fs: seq<Field>) returns (r: Result<seq<Perspective>>)
    ensures r == ListPerspectives(fs)
  {
    var perspectives: seq<Perspective> := [];
    for i := 0 to |fs|
      invariant ListPerspectives(fs[..i]) == Ok(perspectives)
    {
      assert fs[..i + 1][..i] == fs[..i];
      var f := fs[i];
      match f.kind {
        case ForeignKey(parentLink) =>
          if !parentLink {
            perspectives := perspectives + [GroupingFor(f)];
          }
        case IntegerField =>
          if f.choices != [] {
            perspectives := perspectives + [GroupingFor(f)];
          }
        case BooleanField =>
          perspectives := perspectives + [GroupingFor(f)];
        case CharField(maxLength, _) =>
          if maxLength.None? {
            ListPerspectivesErrPersists(fs, i + 1);
            return Err(UnorderableValue);
          }
          if maxLength.value <= 100 {
            perspectives := perspectives + [SortFor(f)];
          }
        case _ =>
      }
    }
    assert fs[..|fs|] == fs;
    r := Ok(perspectives);
  }

  /** The keys of a list of perspectives. */
  function Keys(ps: seq<Perspective>): (r: seq<string>)
    ensures |r| == |ps|
    ensures forall i :: 0 <= i < |ps| ==> r[i] == ps[i].key
  {
    if ps == [] then [] else [ps[0].key] + Keys(ps[1..])
  }

  /** List perspectives follow the field declaration order, at most one per
      field: their keys form a subsequence of the field names. */
  lemma {:induction false} ListPerspectivesFollowFields(fs: seq<Field>)
    requires ListPerspectives(fs).Ok?
    ensures IsSubsequence(Keys(ListPerspectives(fs).value), Names(fs))
  {
    if fs == [] {
    } else {
      var init := fs[..|fs| - 1];
      var last := fs[|fs| - 1];
      var ps := ListPerspectives(init).value;
      ListPerspectivesFollowFields(init);
      assert Names(fs) == Names(init) + [last.name];
      SubsequenceSnoc(Keys(ps), Names(init), last.name);
      match ListPerspectiveOf(last) {
        case Ok(None) =>
        case Ok(Some(p)) =>
          assert Keys(ps + [p]) == Keys(ps) + [last.name];
      }
    }
  }

  /** The key a request looks up: the `perspective` parameter, else the
      view's `default_perspective_key`, else "_default" (empty strings
      count as unset). */
  function LookupKey(requested: Option<string>, defaultKey: Option<string>): (r: string)
    ensures Truthy(requested) ==> r == requested.value
    ensures !Truthy(requested) && Truthy(defaultKey) ==> r == defaultKey.value
    ensures !Truthy(requested) && !Truthy(defaultKey) ==> r == "_default"
  {
    if Truthy(requested) then requested.value
    else if Truthy(defaultKey) then defaultKey.value
    else "_default"
  }

  /** The first perspective with the key, if any. */
  function FirstWithKey(ps: seq<Perspective>, key: string): (r: Option<Perspective>)
    ensures r.Some? ==> r.value in ps && r.value.key == key
    ensures r.None? <==> forall i :: 0 <= i < |ps| ==> ps[i].key != key
  {
    if ps == [] then None
    else if ps[0].key == key then Some(ps[0])
    else
      assert forall i :: 1 <= i < |ps| ==> ps[i] == ps[1..][i - 1];
      FirstWithKey(ps[1..], key)
  }

  /** The perspective found is the one at the first position holding the key. */
  lemma {:induction false} FirstWithKeyIsFirst(ps: seq<Perspective>, key: string, i: nat)
    requires i < |ps| && ps[i].key == key
    requires forall j :: 0 <= j < i ==> ps[j].key != key
    ensures FirstWithKey(ps, key) == Some(ps[i])
  {
    if i > 0 {
      FirstWithKeyIsFirst(ps[1..], key, i - 1);
    }
  }

  /** `ListViewPerspectiveMixin.get_perspective`: none without perspectives,
      else the first one whose key is the lookup key. */
  function ListActivePerspective(ps: seq<Perspective>, requested: Option<string>, defaultKey: Option<string>)
    : (r: Option<Perspective>)
    ensures ps == [] ==> r.None?
    ensures ps != [] ==> r == FirstWithKey(ps, LookupKey(requested, defaultKey))
  {
    if ps == [] then None else FirstWithKey(ps, LookupKey(requested, defaultKey))
  }

  /** `DetailViewPerspectiveMixin.get_perspective`: the same lookup without
      the empty-list shortcut, which it does not need. */
  function DetailActivePerspective(ps: seq<Perspective>, requested: Option<string>, defaultKey: Option<string>)
    : (r: Option<Perspective>)
    ensures r == FirstWithKey(ps, LookupKey(requested, defaultKey))
  {
    FirstWithKey(ps, LookupKey(requested, defaultKey))
  }

  /** Both lookups agree on every input. */
  lemma ActivePerspectiveAgrees(ps: seq<Perspective>, requested: Option<string>, defaultKey: Option<string>)
    ensures ListActivePerspective(ps, requested, defaultKey) == DetailActivePerspective(ps, requested, defaultKey)
  {
  }

  /** `list.remove(x)`: drops the first occurrence, raises when there is none. */
  function RemoveFirst<T(==)>(xs: seq<T>, x: T): (r: Result<seq<T>>)
    ensures r.Ok? <==> x in xs
    ensures r.Err? ==> r.error == InvalidValue
    ensures r.Ok? ==> |r.value| == |xs| - 1
  {
    if xs == [] then Err(InvalidValue)
    else if xs[0] == x then Ok(xs[1..])
    else
      match RemoveFirst(xs[1..], x)
      case Err(e) => Err(e)
      case Ok(rest) => Ok([xs[0]] + rest)
  }

  /** The occurrence removed is the first one: everything before it and
      everything after it stays, in order. */
  lemma {:induction false} RemoveFirstAt<T>(xs: seq<T>, x: T, i: nat)
    requires i < |xs| && xs[i] == x && x !in xs[..i]
    ensures RemoveFirst(xs, x) == Ok(xs[..i] + xs[i + 1..])
  {
    if i > 0 {
      assert xs[0] in xs[..i];
      assert xs[1..][..i - 1] == xs[1..i];
      assert x !in xs[1..][..i - 1];
      RemoveFirstAt(xs[1..], x, i - 1);
      assert xs[..i] == [xs[0]] + xs[1..][..i - 1];
      assert xs[1..][i - 1 + 1..] == xs[i + 1..];
      assert xs[0] != x;
      var rest := xs[1..][..i - 1] + xs[1..][i - 1 + 1..];
      assert RemoveFirst(xs, x) == Ok([xs[0]] + rest);
      assert [xs[0]] + rest == xs[..i] + xs[i + 1..];
    } else {
      assert xs[..i] + xs[i + 1..] == xs[1..];
    }
  }

  /** The `other_perspectives` both mixins put in the context: the default
      perspective followed by the perspectives, without the first
      occurrence of the active one (or of the default when none is active). */
  method OtherPerspectives(ps: seq<Perspective>, active: Option<Perspective>, objectName: string)
    returns (r: Result<seq<Perspective>>)
    ensures active.None? ==> r == Ok(ps)
    ensures active.Some? ==> r == RemoveFirst([DefaultPerspective(objectName)] + ps, active.value)
    ensures active.Some? && active.value in ps ==> r.Ok? && |r.value| == |ps|
  {
    var others := ps;
    others := [DefaultPerspective(objectName)] + others;
    var removed := RemoveFirst(others, if active.Some? then active.value else DefaultPerspective(objectName));
    if active.None? {
      assert others[1..] == ps;
    }
    r := removed;
  }

  /** What `get_context_data` adds: the title and the other perspectives. */
  datatype ListContext = ListContext(objectName: string, otherPerspectives: seq<Perspective>)

  /** `ListViewPerspectiveMixin.get_context_data`: the active perspective's
      label is the title when one is active. */
  method ListContextData(ps: seq<Perspective>, requested: Option<string>, defaultKey: Option<string>, viewObjectName: string)
    returns (r: Result<ListContext>)
    ensures var active := ListActivePerspective(ps, requested, defaultKey);
            && r.Ok?
            && r.value.objectName == (if active.Some? then active.value.objectName else viewObjectName)
            && |r.value.otherPerspectives| == |ps|
            && (active.None? ==> r.value.otherPerspectives == ps)
            && (active.Some? ==> Ok(r.value.otherPerspectives) == RemoveFirst([DefaultPerspective(viewObjectName)] + ps, active.value))
  {
    var active := ListActivePerspective(ps, requested, defaultKey);
    var objectName := if active.Some? then active.value.objectName else viewObjectName;
    if active.Some? {
      FirstWithKeyMember(ps, LookupKey(requested, defaultKey));
    }
    var others := OtherPerspectives(ps, active, viewObjectName);
    r := Ok(ListContext(objectName, others.value));
  }

  /** A perspective found by key is a member of the list. */
  lemma FirstWithKeyMember(ps: seq<Perspective>, key: string)
    requires FirstWithKey(ps, key).Some?
    ensures FirstWithKey(ps, key).value in ps
  {
  }

  /** `display_as`: the active perspective's type, else "list". */
  function DisplayAs(active: Option<Perspective>): (r: string)
    ensures active.Some? ==> r == active.value.ptype
    ensures active.None? ==> r == "list"
  {
    if active.Some? then active.value.ptype else "list"
  }

  /** `group_by`: the grouping field of an active grouping perspective;
      anything else is a configuration error. */
  function GroupBy(active: Option<Perspective>): (r: Result<string>)
    ensures r.Ok? <==> active.Some? && active.value.variant.Grouping?
    ensures r.Ok? ==> r.value == active.value.variant.groupBy
    ensures r.Err? ==> r.error == ImproperlyConfigured
  {
    if active.Some? && active.value.variant.Grouping? then Ok(active.value.variant.groupBy)
    else Err(ImproperlyConfigured)
  }

  /** The queryset a list view reads after `setup`. */
  datatype Queryset = Unchanged | AllOf(manager: string) | OrderedBy(field: string)

  /** `ListViewPerspectiveMixin.setup`: a `ListPerspective` reads all of its
      manager, a `SortPerspective` orders the model's objects, and any
      other leaves the queryset alone. */
  function SetupQueryset(active: Option<Perspective>): (r: Result<Queryset>)
    ensures active.None? ==> r == Ok(Unchanged)
    ensures active.Some? && active.value.variant.ListVariant? ==>
              (if active.value.manager.Some? then r == Ok(AllOf(active.value.manager.value)) else r == Err(MissingAttribute))
    ensures active.Some? && active.value.variant.Sort? ==> r == Ok(OrderedBy(active.value.variant.orderBy))
    ensures active.Some? && !active.value.variant.ListVariant? && !active.value.variant.Sort? ==> r == Ok(Unchanged)
  {
    if active.None? then Ok(Unchanged)
    else
      match active.value.variant
      case ListVariant =>
        if active.value.manager.Some? then Ok(AllOf(active.value.manager.value)) else Err(MissingAttribute)
      case Sort(orderBy) => Ok(OrderedBy(orderBy))
      case _ => Ok(Unchanged)
  }

  /** The examples of the library's list pages: a foreign key gives a
      grouping, a short char field a sort, a long one nothing. */
  lemma ListPerspectivesExample()
    ensures var owner := Field("owner", "所有者", ForeignKey(false), [], false);
            var title := Field("title", "題名", CharField(Some(100), false), [], false);
            var note := Field("note", "備考", CharField(Some(200), false), [], false);
            ListPerspectives([owner, title, note])
              == Ok([Perspective("owner", "所有者別一覧", "grouping", None, Grouping("owner")),
                     Perspective("title", "題名でソート", "list", None, Sort("title"))])
  {
    var owner := Field("owner", "所有者", ForeignKey(false), [], false);
    var title := Field("title", "題名", CharField(Some(100), false), [], false);
    var note := Field("note", "備考", CharField(Some(200), false), [], false);
    var fs := [owner, title, note];
    assert fs[..0] == [] && fs[..1][..0] == [] && fs[..2][..1] == fs[..1] && fs[..3] == fs;
    assert ListPerspectives(fs[..1][..0]) == Ok([]);
    assert fs[..1][0] == owner && fs[..2][1] == title;
    assert ListPerspectiveOf(owner) == Ok(Some(GroupingFor(owner)));
    assert ListPerspectiveOf(title) == Ok(Some(SortFor(title)));
    assert ListPerspectives(fs[..1]) == Ok([] + [GroupingFor(owner)]);
    assert [] + [GroupingFor(owner)] == [GroupingFor(owner)];
    assert ListPerspectives(fs[..2]) == Ok([GroupingFor(owner)] + [SortFor(title)]);
    assert fs[2] == note;
    assert [GroupingFor(owner)] + [SortFor(title)] == [GroupingFor(owner), SortFor(title)];
    assert ListPerspectives(fs) == Ok([GroupingFor(owner), SortFor(title)]);
    assert "所有者" + "別一覧" == "所有者別一覧" && "題名" + "でソート" == "題名でソート";
    assert ListPerspectiveOf(note) == Ok(None);
  }
}
