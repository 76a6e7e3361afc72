/** The `list_fields` template filter (`libs/templatetags/model.py`): one
    `{name, value}` entry per concrete field of a record, for the generic
    detail table. */
module ModelTags {
  import opened Errors
  import opened Seqs
  import opened Text
  import opened Fields

  /** A record as the filter sees it: each field's attribute value (the
      related record for a foreign key, `value_from_object` otherwise) and
      the labels its `get_<name>_display()` methods return. */
  datatype Instance = Instance(attrs: map<string, Value>, displays: map<string, string>)

  /** One entry of the table: the verbose name and the value shown. */
  datatype Entry = Entry(name: string, value: Value)

  /** The record has a value for each of its model's fields. */
  predicate HasFieldValues(obj: Instance, fields: seq<Field>)
  {
    forall i :: 0 <= i < |fields| ==> fields[i].name in obj.attrs
  }

  /** A link to a parent model (multi-table inheritance), which the
      filter skips. */
  predicate IsParentLink(f: Field)
  {
    EndsWith(f.name, "_ptr")
  }

  /** The entry for one field: the related record for a foreign key, the
      display label when the record has one, else the raw value. */
  function EntryFor(obj: Instance, f: Field): (e: Entry)
    requires f.name in obj.attrs
    ensures e.name == f.verboseName
  {
    if f.kind.ForeignKey? then Entry(f.verboseName, obj.attrs[f.name])
    else if f.name in obj.displays then Entry(f.verboseName, StrValue(obj.displays[f.name]))
    else Entry(f.verboseName, obj.attrs[f.name])
  }

  /** The fields the table shows, in declaration order. */
  function Shown(fields: seq<Field>): (r: seq<Field>)
  {
    Filter(fields, (f: Field) => !IsParentLink(f))
  }

  /** `values` holds, position by position, the entry of each field in
      `shown`. */
  predicate Table(obj: Instance, shown: seq<Field>, values: seq<Entry>)
  {
    && |values| == |shown|
    && forall i :: 0 <= i < |values| ==> shown[i].name in obj.attrs && values[i] == EntryFor(obj, shown[i])
  }

  lemma TableSnoc(obj: Instance, shown: seq<Field>, values: seq<Entry>, f: Field, e: Entry)
    requires Table(obj, shown, values) && f.name in obj.attrs && e == EntryFor(obj, f)
    ensures Table(obj, shown + [f], values + [e])
  {
  }

  /** `list_fields(obj)`, over `obj._meta.fields`. */
  method ListFields(obj: Instance, fields: seq<Field>) returns (values: seq<Entry>)
    requires HasFieldValues(obj, fields)
    ensures Table(obj, Shown(fields), values)
  {
    values := [];
    for k := 0 to |fields|
      invariant Table(obj, Shown(fields[..k]), values)
    {
      ghost var before := Shown(fields[..k]);
      var field := fields[k];
      assert fields[..k + 1] == fields[..k] + [field];
      FilterAppend(fields[..k], [field], (f: Field) => !IsParentLink(f));
      if EndsWith(field.name, "_ptr") {
        assert Shown(fields[..k + 1]) == before;
        continue;
      }
      assert Shown(fields[..k + 1]) == before + [field];
      var value;
      if field.kind.ForeignKey? {
        value := Entry(field.verboseName, obj.attrs[field.name]);
      } else if field.name in obj.displays {
        value := Entry(field.verboseName, StrValue(obj.displays[field.name]));
      } else {
        value := Entry(field.verboseName, obj.attrs[field.name]);
      }
      TableSnoc(obj, before, values, field, value);
      values := values + [value];
    }
    assert fields[..|fields|] == fields;
  }

  /** The table has a row for every field that is not a parent link,
      and only for those, titled with the field's verbose name in
      declaration order. */
  lemma ShownFields(fields: seq<Field>)
    ensures IsSubsequence(Shown(fields), fields)
    ensures forall f :: f in Shown(fields) <==> f in fields && !IsParentLink(f)
  {
    FilterIsSubsequence(fields, (f: Field) => !IsParentLink(f));
  }

  /** A model without parent links shows all of its fields. */
  lemma NoParentLinkShowsAll(fields: seq<Field>)
    requires forall i :: 0 <= i < |fields| ==> !IsParentLink(fields[i])
    ensures Shown(fields) == fields
  {
    FilterAll(fields, (f: Field) => !IsParentLink(f));
  }
}
