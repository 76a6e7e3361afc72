/** The number fields of `libs/forms/fields.py`: `PositiveIntegerField`
    refuses a negative lower bound and defaults it to 0, and `PriceField`
    adds a default label. */
module FormFields {
  import opened Errors
  import opened Fields

  /** What `IntegerField.__init__` receives: the bounds and the remaining
      keyword arguments (`label`, `required`, ...). */
  datatype IntegerFieldArgs = IntegerFieldArgs(maxValue: Option<int>, minValue: Option<int>, kwargs: map<string, Value>)

  const PriceLabel: string := "価格(税込)"

  /** `PositiveIntegerField.__init__`: the arguments it hands to
      `IntegerField.__init__`, or the configuration error it raises. */
  function PositiveIntegerField(maxValue: Option<int>, minValue: Option<int>, kwargs: map<string, Value>): (r: Result<IntegerFieldArgs>)
    ensures r.Err? <==> minValue.Some? && minValue.value < 0
    ensures r.Err? ==> r.error == ImproperlyConfigured
    ensures r.Ok? ==> r.value.minValue.Some? && r.value.minValue.value >= 0
  {
    if minValue.None? then Ok(IntegerFieldArgs(maxValue, Some(0), kwargs))
    else if minValue.value < 0 then Err(ImproperlyConfigured)
    else Ok(IntegerFieldArgs(maxValue, minValue, kwargs))
  }

  /** `PriceField.__init__`: a `label` keyword is added when none is
      given, then the positive-integer checks apply. */
  function PriceField(maxValue: Option<int>, minValue: Option<int>, kwargs: map<string, Value>): (r: Result<IntegerFieldArgs>)
    ensures r.Ok? ==> "label" in r.value.kwargs
  {
    var labelled := if "label" !in kwargs then kwargs["label" := StrValue(PriceLabel)] else kwargs;
    PositiveIntegerField(maxValue, minValue, labelled)
  }

  /** Without a lower bound the field starts at 0; a non-negative bound is
      kept; every other argument passes through untouched. */
  lemma PositiveIntegerBounds(maxValue: Option<int>, minValue: Option<int>, kwargs: map<string, Value>)
    ensures minValue.None? ==> PositiveIntegerField(maxValue, minValue, kwargs) == Ok(IntegerFieldArgs(maxValue, Some(0), kwargs))
    ensures minValue.Some? && minValue.value >= 0 ==>
      PositiveIntegerField(maxValue, minValue, kwargs) == Ok(IntegerFieldArgs(maxValue, minValue, kwargs))
  {
  }

  /** The price label is the default only: a given label wins, and the
      bounds are checked exactly as for a positive integer field. */
  lemma PriceFieldLabel(maxValue: Option<int>, minValue: Option<int>, kwargs: map<string, Value>)
    ensures var r := PriceField(maxValue, minValue, kwargs);
      && (r.Err? <==> PositiveIntegerField(maxValue, minValue, kwargs).Err?)
      && (r.Ok? && "label" !in kwargs ==> r.value.kwargs["label"] == StrValue(PriceLabel))
      && (r.Ok? && "label" in kwargs ==> r.value.kwargs == kwargs)
      && (r.Ok? ==> r.value.kwargs.Keys == kwargs.Keys + {"label"})
      && (r.Ok? ==> r.value.minValue == PositiveIntegerField(maxValue, minValue, kwargs).value.minValue)
  {
  }
}
