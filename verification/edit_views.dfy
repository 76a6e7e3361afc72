/** The generic editing pages of `libs/views/edit.py`: the add page that
    pre-fills its form from the query string, the model form every add and
    edit page falls back to, the delete page that explains which records
    block a deletion, the inline formset page, the status update and the
    navbar each page uses. */
module EditViews {
  import opened Errors
  import opened Seqs
  import opened Text
  import opened Fields
  import opened Actions
  import opened Menu
  import opened DbModels
  import opened ListViews
  import opened MultipleViews
  import QS = QueryStrings

  // ---------------------------------------------------------------------
  // GenericAddView.get_initial

  /** Every key of `request.GET` holds at least one value. */
  predicate HasValues(get: QS.Query)
  {
    forall i :: 0 <= i < |get| ==> get[i].1 != []
  }

  /** The initial data after the GET parameters have been written over it,
      one `QueryDict.items()` pair — a key and its last value — at a time;
      the parameter `id` is never copied. */
  function Overlay(initial: map<string, Value>, get: QS.Query): map<string, Value>
    requires HasValues(get)
  {
    if get == [] then initial
    else
      var m := Overlay(initial, get[..|get| - 1]);
      var key := get[|get| - 1].0;
      var values := get[|get| - 1].1;
      if key == "id" then m else m[key := StrValue(values[|values| - 1])]
  }

  /** `GenericAddView.get_initial`: the loop over the GET parameters. */
  method GetAddInitial(initial: map<string, Value>, get: QS.Query) returns (r: map<string, Value>)
    requires HasValues(get)
    ensures r == Overlay(initial, get)
  {
    r := initial;
    for k := 0 to |get|
      invariant r == Overlay(initial, get[..k])
    {
      assert get[..k + 1][..k] == get[..k];
      var key := get[k].0;
      var values := get[k].1;
      if key == "id" {
        continue;
      }
      r := r[key := StrValue(values[|values| - 1])];
    }
    assert get[..|get|] == get;
  }

  /** A key that is not a GET parameter, or is `id`, keeps its initial
      value, or stays absent. */
  lemma {:induction false} OverlayUntouched(initial: map<string, Value>, get: QS.Query, key: string)
    requires HasValues(get)
    requires key !in QS.Keys(get) || key == "id"
    ensures key in Overlay(initial, get) <==> key in initial
    ensures key in initial ==> Overlay(initial, get)[key] == initial[key]
  {
    if get != [] {
      var init := get[..|get| - 1];
      assert QS.Keys(init) == QS.Keys(get)[..|get| - 1];
      assert QS.Keys(get)[|get| - 1] == get[|get| - 1].0;
      OverlayUntouched(initial, init, key);
    }
  }

  /** Every GET parameter other than `id` ends up in the initial data with
      its last value, whatever the initial data held. */
  lemma {:induction false} OverlayCopies(initial: map<string, Value>, get: QS.Query, i: nat)
    requires HasValues(get) && QS.DistinctKeys(get)
    requires i < |get| && get[i].0 != "id"
    ensures get[i].0 in Overlay(initial, get)
    ensures Overlay(initial, get)[get[i].0] == StrValue(get[i].1[|get[i].1| - 1])
  {
    if i < |get| - 1 {
      var init := get[..|get| - 1];
      assert init[i] == get[i];
      OverlayCopies(initial, init, i);
      assert get[|get| - 1].0 != get[i].0;
    }
  }

  /** The keys of the result: the initial keys and the GET keys but `id`. */
  lemma {:induction false} OverlayKeys(initial: map<string, Value>, get: QS.Query)
    requires HasValues(get)
    ensures Overlay(initial, get).Keys == initial.Keys + (KeySet(QS.Keys(get)) - {"id"})
  {
    if get != [] {
      var init := get[..|get| - 1];
      var last := get[|get| - 1].0;
      OverlayKeys(initial, init);
      assert QS.Keys(get)[..|get| - 1] == QS.Keys(init);
      assert KeySet(QS.Keys(get)) == KeySet(QS.Keys(init)) + {last};
      var m := Overlay(initial, init);
      if last == "id" {
        assert Overlay(initial, get) == m;
      } else {
        assert Overlay(initial, get).Keys == m.Keys + {last};
      }
    }
  }

  /** The add-child button of a child list leads to an add page whose form
      is pre-filled with the parent: the parent key holds the parent's id. */
  lemma AddPageFromChildList(initial: map<string, Value>, addUrl: string, parentKey: string, parent: Parent)
    requires '?' !in addUrl && '#' !in addUrl && QS.ValidKey(parentKey) && parentKey != "id"
    ensures var get := QS.ParseQs(QS.UrlParse(ChildAddUrl(addUrl, parentKey, parent)).query);
      && HasValues(get)
      && parentKey in Overlay(initial, get)
      && Overlay(initial, get)[parentKey] == StrValue(NatToDecimal(parent.id))
      && (forall k :: k != parentKey ==> (k in Overlay(initial, get) <==> k in initial))
  {
    ChildAddUrlCarriesFilter(addUrl, parentKey, parent);
    var get := QS.ParseQs(QS.UrlParse(ChildAddUrl(addUrl, parentKey, parent)).query);
    assert get == [(parentKey, [NatToDecimal(parent.id)])];
    OverlayCopies(initial, get, 0);
    assert QS.Keys(get) == [parentKey];
    forall k | k != parentKey
      ensures k in Overlay(initial, get) <==> k in initial
    {
      OverlayUntouched(initial, get, k);
    }
  }

  // ---------------------------------------------------------------------
  // get_form_class of the add and edit pages

  /** The form class a model form page ends up with. */
  datatype FormChoice = GivenFormClass | ModelFormFor(fields: seq<string>)

  /** Django's `ModelFormMixin.get_form_class`: `fields` and `form_class`
      exclude each other, and one of them is needed. */
  function ModelFormClass(fields: Option<seq<string>>, hasFormClass: bool): (r: Result<FormChoice>)
    ensures r.Err? <==> fields.Some? == hasFormClass
    ensures r.Err? ==> r.error == ImproperlyConfigured
    ensures r.Ok? && hasFormClass ==> r.value == GivenFormClass
    ensures r.Ok? && !hasFormClass ==> r.value == ModelFormFor(fields.value)
  {
    if fields.Some? && hasFormClass then Err(ImproperlyConfigured)
    else if hasFormClass then Ok(GivenFormClass)
    else if fields.Some? then Ok(ModelFormFor(fields.value))
    else Err(ImproperlyConfigured)
  }

  /** An add or edit page's form configuration. */
  class ModelFormView {
    var fields: Option<seq<string>>
    const hasFormClass: bool
    const modelFields: seq<Field>

    constructor (fields: Option<seq<string>>, hasFormClass: bool, modelFields: seq<Field>)
      ensures this.fields == fields && this.hasFormClass == hasFormClass && this.modelFields == modelFields
    {
      this.fields := fields;
      this.hasFormClass := hasFormClass;
      this.modelFields := modelFields;
    }

    /** Python truthiness of the configured `fields`. */
    predicate FieldsGiven()
      reads this
    {
      fields.Some? && fields.value != []
    }

    /** `get_form_class`: explicit `fields` or `form_class` are kept;
        otherwise `fields` becomes the model's declared fields, so a page
        without `form_class` always gets a model form. */
    method GetFormClass() returns (r: Result<FormChoice>)
      modifies this
      ensures old(FieldsGiven()) || hasFormClass ==> fields == old(fields)
      ensures !old(FieldsGiven()) && !hasFormClass ==> fields == Some(DeclaredNames(modelFields))
      ensures r == ModelFormClass(fields, hasFormClass)
      ensures !hasFormClass ==> r.Ok? && r.value == ModelFormFor(fields.value)
      ensures hasFormClass ==> (r == Ok(GivenFormClass) <==> old(fields).None?)
    {
      if FieldsGiven() || hasFormClass {
        r := ModelFormClass(fields, hasFormClass);
        return;
      }
      var names := GetModelFields(modelFields);
      fields := Some(names);
      r := ModelFormClass(fields, hasFormClass);
    }
  }

  /** The fields of a form derived from the model are all declared,
      editable model fields, in declaration order. */
  lemma DerivedFormFields(fs: seq<Field>, n: string)
    ensures n in DeclaredNames(fs) <==> exists i :: 0 <= i < |fs| && fs[i].name == n && !fs[i].autoCreated
    ensures Seqs.IsSubsequence(DeclaredNames(fs), Names(fs))
  {
    DeclaredNamesMembers(fs, n);
    DeclaredNamesSubsequence(fs);
  }

  // ---------------------------------------------------------------------
  // GenericDeleteView.delete

  /** `collect_model_names`: the verbose names of the protecting objects,
      as a set. */
  method CollectModelNames(protectedObjects: seq<string>) returns (names: set<string>)
    ensures forall n :: n in names <==> n in protectedObjects
  {
    names := {};
    for i := 0 to |protectedObjects|
      invariant forall n :: n in names <==> n in protectedObjects[..i]
    {
      assert protectedObjects[..i + 1] == protectedObjects[..i] + [protectedObjects[i]];
      names := names + {protectedObjects[i]};
    }
    assert protectedObjects[..|protectedObjects|] == protectedObjects;
  }

  /** The error message of a refused deletion. */
  function ProtectedMessage(listed: seq<string>, objectName: string): (r: string)
    ensures "削除できませんでした。『" + Join(listed, '、') <= r
    ensures EndsWith(r, "』にこの" + objectName + "に依存するレコードがあります。")
  {
    "削除できませんでした。『" + Join(listed, '、') + "』にこの" + objectName + "に依存するレコードがあります。"
  }

  /** What the page does after a deletion attempt: a success message and
      the redirect, or an error message and the page rendered again. */
  datatype DeleteResponse = Deleted(success: string) | Refused(error: string)

  /** `GenericDeleteView.delete`; `protectedBy` holds the verbose names of
      the records a `ProtectedError` names, when the deletion raises one. */
  method Delete(objectName: string, protectedBy: Option<seq<string>>) returns (r: DeleteResponse, listed: seq<string>)
    ensures protectedBy.None? ==> r == Deleted(objectName + "を削除しました。")
    ensures protectedBy.Some? ==> r == Refused(ProtectedMessage(listed, objectName))
    ensures protectedBy.Some? ==> Distinct(listed) && forall n :: n in listed <==> n in protectedBy.value
  {
    listed := [];
    if protectedBy.None? {
      r := Deleted(objectName + "を削除しました。");
      return;
    }
    var names := CollectModelNames(protectedBy.value);
    listed := Enumerate(names);
    r := Refused(ProtectedMessage(listed, objectName));
  }

  /** No verbose name contains the separator `、`. */
  predicate NoSeparator(names: seq<string>)
  {
    forall i :: 0 <= i < |names| ==> '、' !in names[i]
  }

  /** The names in the refusal message, read back by splitting at `、`, are
      the blocking models, each exactly once. */
  lemma ProtectedMessageNames(listed: seq<string>, protectedBy: seq<string>)
    requires protectedBy != [] && NoSeparator(protectedBy)
    requires Distinct(listed) && forall n :: n in listed <==> n in protectedBy
    ensures var parts := Split(Join(listed, '、'), '、');
      && parts == listed
      && Distinct(parts)
      && (forall n :: n in parts <==> n in protectedBy)
  {
    assert protectedBy[0] in listed;
    forall i | 0 <= i < |listed|
      ensures '、' !in listed[i]
    {
      assert listed[i] in protectedBy;
      var j :| 0 <= j < |protectedBy| && protectedBy[j] == listed[i];
    }
    SplitJoin(listed, '、');
  }

  // ---------------------------------------------------------------------
  // GenericInlineFormsetView.post

  /** Whether the inline formset page saved its data. */
  datatype FormsetResponse = Saved(success: string) | Rerendered

  /** `str()` of an optional attribute: `None` prints as "None". */
  function Display(s: Option<string>): string
  {
    if s.Some? then s.value else "None"
  }

  /** `GenericInlineFormsetView.post`: both `is_valid()` calls run before
      the branch, and the data is saved only when both pass.  The success
      message uses the `object_name` attribute, not `get_object_name()`. */
  method InlineFormsetPost(form: BoundForm, formset: BoundForm, objectNameAttr: Option<string>) returns (r: FormsetResponse)
    requires form != formset
    modifies form, formset
    ensures form.validated && formset.validated
    ensures r.Saved? <==> form.Acceptable() && formset.Acceptable()
    ensures r.Saved? ==> r.success == Display(objectNameAttr) + "を追加しました。"
  {
    var isFormValid := form.IsValid();
    var isFormsetValid := formset.IsValid();
    if isFormValid && isFormsetValid {
      r := Saved(Display(objectNameAttr) + "を追加しました。");
    } else {
      r := Rerendered;
    }
  }

  // ---------------------------------------------------------------------
  // GenericStatusUpdateView

  /** A record whose status the page changes. */
  class Record {
    var status: int
    var attrs: map<string, Value>   // every other column
    var saves: nat                  // how often it was written back

    constructor (status: int, attrs: map<string, Value>)
      ensures this.status == status && this.attrs == attrs && saves == 0
    {
      this.status := status;
      this.attrs := attrs;
      saves := 0;
    }
  }

  /** `__init__`: a `status_class` and then a `model` are required. */
  function StatusViewInit(hasStatusClass: bool, hasModel: bool): (r: Result<()>)
    ensures r.Ok? <==> hasStatusClass && hasModel
    ensures r.Err? ==> r.error == ImproperlyConfigured
  {
    if !hasStatusClass then Err(ImproperlyConfigured)
    else if !hasModel then Err(ImproperlyConfigured)
    else Ok(())
  }

  /** `update_status`: sets the status and saves the record. */
  method UpdateStatus(item: Record, status: int)
    modifies item
    ensures item.status == status
    ensures item.attrs == old(item.attrs)
    ensures item.saves == old(item.saves) + 1
  {
    item.status := status;
    item.saves := item.saves + 1;
  }

  /** What a status update answers: a message and the redirect target. */
  datatype StatusResponse = StatusResponse(message: string, redirect: Url)

  /** `post(pk, status_id)`: the status id must be a member of the status
      class (`ValueError` otherwise), the record must exist (404), then the
      status is written and the page redirects to `get_success_url()`,
      whose own failure comes after the record was saved. */
  method StatusPost(labels: map<int, string>, statusId: int, item: Option<Record>, successUrl: Result<Url>)
    returns (r: Result<StatusResponse>)
    modifies if item.Some? then {item.value} else {}
    ensures statusId !in labels ==> r == Err(InvalidValue)
    ensures statusId in labels && item.None? ==> r == Err(NotFound)
    ensures statusId in labels && item.Some? ==>
      && item.value.status == statusId
      && item.value.attrs == old(item.value.attrs)
      && item.value.saves == old(item.value.saves) + 1
      && (successUrl.Err? ==> r == Err(successUrl.error))
      && (successUrl.Ok? ==> r == Ok(StatusResponse(labels[statusId] + "に変更しました。", successUrl.value)))
    ensures statusId !in labels || item.None? ==> item.Some? ==> unchanged(item.value)
  {
    if statusId !in labels {
      return Err(InvalidValue);
    }
    if item.None? {
      return Err(NotFound);
    }
    UpdateStatus(item.value, statusId);
    var message := labels[statusId] + "に変更しました。";
    if successUrl.Err? {
      return Err(successUrl.error);
    }
    r := Ok(StatusResponse(message, successUrl.value));
  }

  // ---------------------------------------------------------------------
  // GenericDeleteListView

  /** `__init__`: a truthy `success_url` is required. */
  function DeleteListInit(successUrl: Option<string>): (r: Result<()>)
    ensures r.Ok? <==> Truthy(successUrl)
    ensures r.Err? ==> r.error == ImproperlyConfigured
  {
    if Truthy(successUrl) then Ok(()) else Err(ImproperlyConfigured)
  }

  // ---------------------------------------------------------------------
  // default_navbar_links of each page

  const FormViewHook: MenuHook := Raises(ImproperlyConfigured)
  const BulkFormViewHook: MenuHook := Uses(BulkAddMenu)
  const BulkAddWithCommonViewHook: MenuHook := Uses(AddMenu)
  const AddViewHook: MenuHook := Uses(AddMenu)
  const EditViewHook: MenuHook := Uses(EditMenu)
  const DeleteListViewHook: MenuHook := Uses(DeleteMenu)
  const DeleteViewHook: MenuHook := Uses(DeleteMenu)
  const SortViewHook: MenuHook := Uses(SortMenu)
  const InlineFormsetViewHook: MenuHook := Uses(FormsetMenu)

  const EditingHooks: seq<MenuHook> :=
    [BulkFormViewHook, BulkAddWithCommonViewHook, AddViewHook, EditViewHook,
     DeleteListViewHook, DeleteViewHook, SortViewHook, InlineFormsetViewHook]

  /** A plain form page refuses a menu; every other editing page shows the
      add-family navbar: the top link, the model's top link, the extra
      menu, then the shared menu. */
  lemma EditingNavbars(menu: CRUDLMenu, extraMenu: seq<Entry>)
    ensures DefaultNavbarLinks(FormViewHook, menu, extraMenu) == Err(ImproperlyConfigured)
    ensures forall i :: 0 <= i < |EditingHooks| ==>
      && EditingHooks[i].Uses?
      && EditingHooks[i].kind.AddFamily()
      && (DefaultNavbarLinks(EditingHooks[i], menu, extraMenu).Ok? <==> menu.AddNavbarLinks(extraMenu).Ok?)
      && (menu.AddNavbarLinks(extraMenu).Ok? ==>
            DefaultNavbarLinks(EditingHooks[i], menu, extraMenu) == Ok(Sequence(menu.AddNavbarLinks(extraMenu).value)))
  {
  }
}
