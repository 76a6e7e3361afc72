/** Model helpers of `libs/db/models.py`: the editable field names of a
    model, and `NoteField`, a remark column whose settings are fixed by the
    class and therefore left out of migrations. */
module DbModels {
  import opened Errors
  import opened Seqs
  import opened Fields

  /** The names of the fields not created automatically, in order. */
  function DeclaredNames(fs: seq<Field>): (r: seq<string>)
    ensures |r| <= |fs|
  {
    if fs == [] then []
    else
      var init := fs[..|fs| - 1];
      var last := fs[|fs| - 1];
      DeclaredNames(init) + (if last.autoCreated then [] else [last.name])
  }

  /** `get_model_fields(cls)`: the loop over `_meta.get_fields()` skipping
      auto-created fields. */
  method GetModelFields(fs: seq<Field>) returns (r: seq<string>)
    ensures r == DeclaredNames(fs)
  {
    r := [];
    for k := 0 to |fs|
      invariant r == DeclaredNames(fs[..k])
    {
      assert fs[..k + 1][..k] == fs[..k];
      if fs[k].autoCreated {
        continue;
      }
      r := r + [fs[k].name];
    }
    assert fs[..|fs|] == fs;
  }

  /** The declared names are a subsequence of all field names: the order
      of the fields is kept. */
  lemma {:induction false} DeclaredNamesSubsequence(fs: seq<Field>)
    ensures IsSubsequence(DeclaredNames(fs), Names(fs))
  {
    if fs != [] {
      var init := fs[..|fs| - 1];
      var last := fs[|fs| - 1];
      var d, n := DeclaredNames(init), Names(init);
      DeclaredNamesSubsequence(init);
      assert Names(fs) == n + [last.name] by {
        assert forall i :: 0 <= i < |init| ==> init[i] == fs[i];
      }
      SubsequenceSnoc(d, n, last.name);
      if last.autoCreated {
        assert DeclaredNames(fs) == d;
      } else {
        assert DeclaredNames(fs) == d + [last.name];
      }
    }
  }

  /** A model without auto-created fields lists every field name. */
  lemma {:induction false} DeclaredNamesAll(fs: seq<Field>)
    requires forall i :: 0 <= i < |fs| ==> !fs[i].autoCreated
    ensures DeclaredNames(fs) == Names(fs)
  {
    if fs != [] {
      var init := fs[..|fs| - 1];
      DeclaredNamesAll(init);
      assert Names(fs) == Names(init) + [fs[|fs| - 1].name];
    }
  }

  /** A name is listed exactly when some field of that name is not
      auto-created. */
  lemma {:induction false} DeclaredNamesMembers(fs: seq<Field>, n: string)
    ensures n in DeclaredNames(fs) <==> exists i :: 0 <= i < |fs| && fs[i].name == n && !fs[i].autoCreated
  {
    if fs != [] {
      var init := fs[..|fs| - 1];
      DeclaredNamesMembers(init, n);
      assert forall i :: 0 <= i < |init| ==> init[i] == fs[i];
      if exists i :: 0 <= i < |fs| && fs[i].name == n && !fs[i].autoCreated {
        var i :| 0 <= i < |fs| && fs[i].name == n && !fs[i].autoCreated;
        if i < |init| {
          assert init[i].name == n;
        }
      }
    }
  }

  // ---------------------------------------------------------------------
  // NoteField

  /** The keyword arguments `NoteField.__init__` passes to `CharField`. */
  const NoteFieldSettings: map<string, Value> :=
    map["max_length" := IntValue(200), "verbose_name" := StrValue("備考"),
        "blank" := BoolValue(true), "null" := BoolValue(false), "default" := StrValue("")]

  /** The keys `NoteField.deconstruct` deletes, in order. */
  const FixedKeys: seq<string> := ["max_length", "verbose_name", "blank", "default"]

  /** The settings `Field.deconstruct` reports: those that differ from
      Django's own defaults.  Of the keys `NoteField` sets only `null` has
      Django's default value (`False`), so only it is dropped. */
  function ReportedSettings(settings: map<string, Value>): (r: map<string, Value>)
    ensures r.Keys <= settings.Keys
    ensures "null" in r <==> "null" in settings && settings["null"] != BoolValue(false)
    ensures forall k :: k in r ==> r[k] == settings[k]
  {
    map k | k in settings && !(k == "null" && settings[k] == BoolValue(false)) :: settings[k]
  }

  /** The keys of a list, as a set. */
  function KeySet(keys: seq<string>): (r: set<string>)
    ensures forall k :: k in r <==> k in keys
  {
    if keys == [] then {} else KeySet(keys[..|keys| - 1]) + {keys[|keys| - 1]}
  }

  /** `del kwargs[k]` for each key in order: a missing key is a `KeyError`. */
  method DeleteKeys(kwargs: map<string, Value>, keys: seq<string>) returns (r: Result<map<string, Value>>)
    ensures r.Ok? <==> forall i :: 0 <= i < |keys| ==> keys[i] in kwargs && keys[i] !in keys[..i]
    ensures r.Err? ==> r.error == KeyMissing
    ensures r.Ok? ==> r.value == kwargs - KeySet(keys)
  {
    var rest := kwargs;
    for i := 0 to |keys|
      invariant forall j :: 0 <= j < i ==> keys[j] in kwargs && keys[j] !in keys[..j]
      invariant rest == kwargs - KeySet(keys[..i])
    {
      if keys[i] !in rest {
        return Err(KeyMissing);
      }
      assert keys[..i + 1][..i] == keys[..i];
      rest := rest - {keys[i]};
    }
    assert keys[..|keys|] == keys;
    return Ok(rest);
  }

  /** `NoteField.deconstruct`'s keyword arguments: what `CharField`
      reports, without the four settings the class fixes. */
  method Deconstruct(reported: map<string, Value>) returns (r: Result<map<string, Value>>)
    ensures r.Ok? <==> forall i :: 0 <= i < |FixedKeys| ==> FixedKeys[i] in reported
    ensures r.Ok? ==> r.value == reported - {"max_length", "verbose_name", "blank", "default"}
  {
    r := DeleteKeys(reported, FixedKeys);
    assert FixedKeys[..0] == [] && FixedKeys[..1] == ["max_length"] && FixedKeys[..2] == ["max_length", "verbose_name"]
      && FixedKeys[..3] == ["max_length", "verbose_name", "blank"];
    assert KeySet(FixedKeys) == {"max_length", "verbose_name", "blank", "default"};
  }

  /** A `NoteField` deconstructs to no keyword arguments at all, matching
      its argument-less constructor: migrations write `NoteField()`. */
  lemma NoteFieldDeconstructsEmpty()
    ensures var reported := ReportedSettings(NoteFieldSettings);
      && (forall i :: 0 <= i < |FixedKeys| ==> FixedKeys[i] in reported)
      && reported - {"max_length", "verbose_name", "blank", "default"} == map[]
  {
    var reported := ReportedSettings(NoteFieldSettings);
    assert NoteFieldSettings.Keys == {"max_length", "verbose_name", "blank", "null", "default"};
    assert "max_length" in reported && "verbose_name" in reported && "blank" in reported && "default" in reported;
    assert reported.Keys == {"max_length", "verbose_name", "blank", "default"};
  }

  /** `NoteField.formfield`: a textarea unless the caller picks a widget. */
  function NoteFormfieldKwargs(kwargs: map<string, Value>): (r: map<string, Value>)
    ensures "widget" in r
    ensures "widget" in kwargs ==> r == kwargs
    ensures "widget" !in kwargs ==> r == kwargs["widget" := StrValue("Textarea")]
  {
    if "widget" in kwargs then kwargs else kwargs["widget" := StrValue("Textarea")]
  }
}
