/** The `has_multipart` template filter (`libs/templatetags/form.py`):
    whether a form needs a multipart encoding because one of its fields
    edits a file field of its model. */
module FormTags {
  import opened Errors
  import opened Fields

  /** A class attribute of the model, as `getattr(model, name)` finds it: a
      field descriptor, whose `.field` is the model field, or anything
      else (a method, a property), which has no `.field`. */
  datatype ModelAttribute = Descriptor(kind: FieldKind) | PlainAttribute

  /** A form: a plain `Form`, or a `ModelForm` with its model's class
      attributes; `fieldNames` are the keys of `form.fields`, in order. */
  datatype Form =
    | PlainForm(fieldNames: seq<string>)
    | ModelForm(fieldNames: seq<string>, model: map<string, ModelAttribute>)

  /** The `name` edits a file field of the model. */
  predicate IsFileField(model: map<string, ModelAttribute>, name: string)
  {
    name in model && model[name] == Descriptor(FileField)
  }

  /** The `name` is a model attribute without a `.field`. */
  predicate LacksField(model: map<string, ModelAttribute>, name: string)
  {
    name in model && model[name] == PlainAttribute
  }

  /** The loop over `form.fields`: stops with `True` at a file field, and
      with `AttributeError` at an attribute that has no `.field`. */
  function SearchFileField(names: seq<string>, model: map<string, ModelAttribute>): (r: Result<bool>)
    ensures r == Ok(true) ==> exists i :: 0 <= i < |names| && IsFileField(model, names[i])
    ensures r == Ok(false) ==> forall i :: 0 <= i < |names| ==> !IsFileField(model, names[i])
    ensures r.Err? ==> r.error == MissingAttribute && exists i :: 0 <= i < |names| && LacksField(model, names[i])
  {
    if names == [] then Ok(false)
    else
      var rest := SearchFileField(names[1..], model);
      assert forall i :: 1 <= i < |names| ==> names[i] == names[1..][i - 1];
      if names[0] !in model then rest
      else match model[names[0]]
        case PlainAttribute => Err(MissingAttribute)
        case Descriptor(kind) => if kind == FileField then Ok(true) else rest
  }

  /** `has_multipart(form)`. */
  function HasMultipart(form: Form): (r: Result<bool>)
    ensures form.PlainForm? ==> r == Ok(false)
    ensures form.ModelForm? ==> r == SearchFileField(form.fieldNames, form.model)
  {
    match form
    case PlainForm(_) => Ok(false)
    case ModelForm(names, model) => SearchFileField(names, model)
  }

  /** When every model attribute the form's fields name is a field, the
      answer is exactly whether one of them is a file field; names that are
      not model attributes are ignored, and a form without fields never
      needs a multipart encoding. */
  lemma {:induction false} MultipartIff(names: seq<string>, model: map<string, ModelAttribute>)
    requires forall i :: 0 <= i < |names| ==> !LacksField(model, names[i])
    ensures SearchFileField(names, model).Ok?
    ensures SearchFileField(names, model).value <==> exists i :: 0 <= i < |names| && IsFileField(model, names[i])
  {
    if names != [] {
      assert forall i :: 1 <= i < |names| ==> names[i] == names[1..][i - 1];
      MultipartIff(names[1..], model);
    }
  }

  /** Names that are not model attributes can be dropped without changing
      the answer. */
  lemma {:induction false} NonAttributesIgnored(before: seq<string>, name: string, after: seq<string>,
                                                model: map<string, ModelAttribute>)
    requires name !in model
    ensures SearchFileField(before + [name] + after, model) == SearchFileField(before + after, model)
  {
    if before == [] {
      assert before + [name] + after == [name] + after;
      assert ([name] + after)[1..] == after;
      assert before + after == after;
    } else {
      NonAttributesIgnored(before[1..], name, after, model);
      assert (before + [name] + after)[1..] == before[1..] + [name] + after;
      assert (before + after)[1..] == before[1..] + after;
    }
  }
}
