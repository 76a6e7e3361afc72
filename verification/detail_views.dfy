/** The generic detail page of `libs/views/detail.py`: its perspectives are
    the model's child relations, and the active one decides the title and
    the related list shown under the object. */
module DetailViews {
  import opened Errors
  import opened Seqs
  import opened Fields
  import opened Menu
  import opened Perspectives
  import opened ViewsMixin

  /** A reverse relation (`ManyToOneRel`/`ManyToManyRel`) that is not a
      multi-table parent link. */
  predicate IsChildRelation(f: Field)
  {
    f.kind.ReverseRelation? && !f.kind.parentLink
  }

  function ChildRelations(fs: seq<Field>): seq<Field>
  {
    Filter(fs, (f: Field) => IsChildRelation(f))
  }

  /** Every field is a reverse relation. */
  predicate AllReverse(rels: seq<Field>)
  {
    forall i :: 0 <= i < |rels| ==> rels[i].kind.ReverseRelation?
  }

  /** The `RelatedPerspective` of a reverse relation. */
  function RelatedFor(f: Field): (r: Perspective)
    requires f.kind.ReverseRelation?
  {
    Perspective(f.name, f.kind.relatedVerboseName + "一覧", "grouping", None, Related(f.kind.accessor))
  }

  /** `get_detail_perspectives(cls)`: one related perspective per child
      relation, in `get_fields()` order; every other field is ignored. */
  method GetDetailPerspectives(fs: seq<Field>) returns (r: seq<Perspective>)
    ensures |r| == |ChildRelations(fs)|
    ensures forall i :: 0 <= i < |r| ==> IsChildRelation(ChildRelations(fs)[i]) && r[i] == RelatedFor(ChildRelations(fs)[i])
  {
    var isChild := (f: Field) => IsChildRelation(f);
    r := [];
    for k := 0 to |fs|
      invariant |r| == |ChildRelations(fs[..k])|
      invariant forall i :: 0 <= i < |r| ==> IsChildRelation(ChildRelations(fs[..k])[i]) && r[i] == RelatedFor(ChildRelations(fs[..k])[i])
    {
      assert fs[..k + 1] == fs[..k] + [fs[k]];
      FilterAppend(fs[..k], [fs[k]], isChild);
      assert Filter([fs[k]], isChild) == (if IsChildRelation(fs[k]) then [fs[k]] else []) + Filter([fs[k]][1..], isChild);
      assert [fs[k]][1..] == [];
      if IsChildRelation(fs[k]) {
        r := r + [RelatedFor(fs[k])];
      }
    }
    assert fs[..|fs|] == fs;
  }

  /** The perspectives `GetDetailPerspectives` builds, as a function of the
      child relations, for reasoning about the page. */
  function RelatedPerspectives(rels: seq<Field>): (r: seq<Perspective>)
    requires AllReverse(rels)
    ensures |r| == |rels|
    ensures forall i :: 0 <= i < |r| ==> r[i].key == rels[i].name && r[i].variant == Related(rels[i].kind.accessor)
  {
    if rels == [] then [] else [RelatedFor(rels[0])] + RelatedPerspectives(rels[1..])
  }

  /** The perspective a detail request selects is the related perspective of
      the first child relation named by the lookup key, and there is one
      exactly when some child relation has that name. */
  lemma {:induction false} ActiveDetailPerspective(rels: seq<Field>, requested: Option<string>, defaultKey: Option<string>)
    requires AllReverse(rels)
    ensures var active := DetailActivePerspective(RelatedPerspectives(rels), requested, defaultKey);
      && (active.Some? <==> exists i :: 0 <= i < |rels| && rels[i].name == LookupKey(requested, defaultKey))
      && (active.Some? ==> (active.value.variant.Related? && active.value.ptype == "grouping"
                           && active.value.key == LookupKey(requested, defaultKey)))
  {
    var ps := RelatedPerspectives(rels);
    var key := LookupKey(requested, defaultKey);
    var active := DetailActivePerspective(ps, requested, defaultKey);
    if active.Some? {
      var j :| 0 <= j < |ps| && ps[j] == active.value;
      assert rels[j].name == key;
      assert ps[j] == RelatedFor(rels[j]) by {
        RelatedPerspectivesAt(rels, j);
      }
    } else {
      assert forall i :: 0 <= i < |rels| ==> rels[i].name != key by {
        forall i | 0 <= i < |rels| ensures rels[i].name != key {
          assert ps[i].key != key;
        }
      }
    }
  }

  lemma {:induction false} RelatedPerspectivesAt(rels: seq<Field>, j: nat)
    requires AllReverse(rels)
    requires j < |rels|
    ensures RelatedPerspectives(rels)[j] == RelatedFor(rels[j])
  {
    if j > 0 {
      RelatedPerspectivesAt(rels[1..], j - 1);
    }
  }

  /** The entries `get_context_data` writes: the title, and with an active
      perspective the related list and its title. */
  datatype DetailContext = DetailContext(
    objectName: string,
    objectListName: Option<string>,
    objectList: Option<string>,   // the accessor whose `.all()` is listed
    extraButtons: seq<string>     // `get_extra_buttons()`, empty here
  )

  /** `GenericDetailView.get_context_data`: the active perspective's label
      titles both the page and the list, which reads the perspective's
      accessor; without one the page is titled by `ObjectNameMixin`.  A
      perspective without an accessor cannot be listed. */
  function DetailContextData(active: Option<Perspective>, objectLabel: Option<string>, model: Option<ModelClass>)
    : (r: Result<DetailContext>)
    ensures r.Err? <==> active.Some? && !active.value.variant.Related?
    ensures r.Err? ==> r.error == MissingAttribute
    ensures r.Ok? ==> r.value.extraButtons == []
    ensures r.Ok? && active.Some? ==>
      && r.value.objectName == active.value.objectName
      && r.value.objectListName == Some(active.value.objectName)
      && r.value.objectList == Some(active.value.variant.accessor)
    ensures r.Ok? && active.None? ==>
      && r.value.objectName == ObjectName(objectLabel, model)
      && r.value.objectListName.None? && r.value.objectList.None?
  {
    if active.None? then Ok(DetailContext(ObjectName(objectLabel, model), None, None, []))
    else if active.value.variant.Related? then
      Ok(DetailContext(active.value.objectName, Some(active.value.objectName), Some(active.value.variant.accessor), []))
    else Err(MissingAttribute)
  }

  /** On a page whose perspectives come from `get_detail_perspectives`, the
      context never fails and a selected perspective lists the related
      objects under the label "<related verbose name>一覧". */
  lemma DetailContextOfRelations(rels: seq<Field>, requested: Option<string>, defaultKey: Option<string>,
                                  objectLabel: Option<string>, model: Option<ModelClass>)
    requires AllReverse(rels)
    ensures var active := DetailActivePerspective(RelatedPerspectives(rels), requested, defaultKey);
      var r := DetailContextData(active, objectLabel, model);
      && r.Ok?
      && (active.Some? ==> exists i :: (0 <= i < |rels|
            && r.value.objectList == Some(rels[i].kind.accessor)
            && r.value.objectName == rels[i].kind.relatedVerboseName + "一覧"))
  {
    var ps := RelatedPerspectives(rels);
    var active := DetailActivePerspective(ps, requested, defaultKey);
    if active.Some? {
      var j :| 0 <= j < |ps| && ps[j] == active.value;
      RelatedPerspectivesAt(rels, j);
      RelatedContext(rels[j], objectLabel, model);
    }
  }

  /** The context of one related perspective lists its accessor under its
      label. */
  lemma RelatedContext(f: Field, objectLabel: Option<string>, model: Option<ModelClass>)
    requires f.kind.ReverseRelation?
    ensures var r := DetailContextData(Some(RelatedFor(f)), objectLabel, model);
      && r.Ok?
      && r.value.objectList == Some(f.kind.accessor)
      && r.value.objectName == f.kind.relatedVerboseName + "一覧"
  {
  }

  /** `default_navbar_links`: the detail page uses `detail_navbar_links`,
      an alias of the add-family menu. */
  const DetailViewHook: MenuHook := Uses(DetailMenu)

  lemma DetailNavbar(menu: CRUDLMenu, extraMenu: seq<Entry>)
    ensures var r := DefaultNavbarLinks(DetailViewHook, menu, extraMenu);
      && (r.Ok? <==> menu.AddNavbarLinks(extraMenu).Ok?)
      && (r.Ok? ==> r.value == Sequence(menu.AddNavbarLinks(extraMenu).value))
  {
  }
}
