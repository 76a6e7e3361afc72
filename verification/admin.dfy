/** `MyAdmin` (`libs/admin.py`): the admin site's form fields are sized to
    their model field's `max_length`.  Short fields get a text input whose
    width follows the length, long ones become a text area. */
module Admin {
  import opened Errors
  import opened Text
  import opened StrUtils

  /** A widget attribute: one Django writes from a number (such as
      `maxlength`, which holds `str(max_length)`), or any other text. */
  datatype Attr = Decimal(n: int) | Text(s: string)

  datatype WidgetKind = TextInput | Textarea

  datatype Widget = Widget(kind: WidgetKind, attrs: map<string, Attr>)

  /** The text widths below this length stay on one line. */
  const LongText: int := 200

  /** `ceil(n / 20)` for the lengths that reach it. */
  function Rows(n: int): (r: int)
    requires n >= LongText
    ensures 20 * (r - 1) < n <= 20 * r
  {
    (n + 19) / 20
  }

  /** `int(maxlength_attr)`: a number as it is, text when `int()`
      accepts it, a `ValueError` otherwise. */
  function MaxLength(a: Attr): (r: Result<int>)
    ensures a.Decimal? ==> r == Ok(a.n)
    ensures a.Text? ==> (r.Ok? <==> IsInt(a.s))
    ensures a.Text? && r.Ok? ==> r.value == IntValue(a.s)
    ensures r.Err? ==> r.error == InvalidValue
  {
    match a
    case Decimal(n) => Ok(n)
    case Text(s) => if IsInt(s) then Ok(IntValue(s)) else Err(InvalidValue)
  }

  /** The widget sized for a `maxlength` of `n`. */
  function SizedFor(w: Widget, n: int): Widget
  {
    if n < LongText then
      Widget(w.kind, w.attrs["size" := Decimal(if n > 20 then n else 20)]["style" := Text("width: auto")])
    else
      Widget(Textarea, map["cols" := Decimal(80), "rows" := Decimal(Rows(n))])
  }

  /** The widget `formfield_for_dbfield` leaves on a field that Django
      built for a model field; `InvalidValue` when `maxlength` is text that
      `int()` refuses.  An empty `maxlength` is falsy and skipped. */
  function Resized(w: Widget, isUrlField: bool): (r: Result<Widget>)
    ensures r.Err? <==> !isUrlField && "maxlength" in w.attrs && w.attrs["maxlength"] != Text("")
                        && MaxLength(w.attrs["maxlength"]).Err?
    ensures r.Err? ==> r.error == InvalidValue
    ensures isUrlField || "maxlength" !in w.attrs || w.attrs["maxlength"] == Text("") ==> r == Ok(w)
    ensures r.Ok? && !isUrlField && "maxlength" in w.attrs && w.attrs["maxlength"] != Text("") ==>
              r.value == SizedFor(w, MaxLength(w.attrs["maxlength"]).value)
  {
    if isUrlField || "maxlength" !in w.attrs || w.attrs["maxlength"] == Text("") then Ok(w)
    else
      var n := MaxLength(w.attrs["maxlength"]);
      if n.Err? then Err(InvalidValue) else Ok(SizedFor(w, n.value))
  }

  /** A form field: its widget is what the admin adjusts. */
  class FormField {
    var widget: Widget

    constructor (widget: Widget)
      ensures this.widget == widget
    {
      this.widget := widget;
    }
  }

  /** `formfield_for_dbfield`: `field` is what the base class built (`null`
      when it built none); the field is returned after its widget has been
      adjusted in place. */
  method FormfieldForDbfield(field: FormField?, isUrlField: bool) returns (r: Result<FormField?>)
    modifies field
    ensures field == null ==> r == Ok(null)
    ensures field != null ==> (r.Ok? <==> Resized(old(field.widget), isUrlField).Ok?)
    ensures field != null && r.Ok? ==> r.value == field && field.widget == Resized(old(field.widget), isUrlField).value
    ensures field != null && r.Err? ==> r.error == InvalidValue && field.widget == old(field.widget)
  {
    if field == null {
      return Ok(null);
    }
    if !isUrlField {
      var attrs := field.widget.attrs;
      if "maxlength" in attrs && attrs["maxlength"] != Text("") {
        var parsed := MaxLength(attrs["maxlength"]);
        if parsed.Err? {
          return Err(InvalidValue);
        }
        var maxlength := parsed.value;
        if maxlength < LongText {
          field.widget := field.widget.(attrs := field.widget.attrs["size" := Decimal(if maxlength > 20 then maxlength else 20)]);
          field.widget := field.widget.(attrs := field.widget.attrs["style" := Text("width: auto")]);
        } else {
          var rows := Rows(maxlength);
          field.widget := Widget(Textarea, map["cols" := Decimal(80), "rows" := Decimal(rows)]);
        }
      }
    }
    return Ok(field);
  }

  /** URL fields and fields without a `maxlength` keep their widget. */
  lemma Unchanged(w: Widget, isUrlField: bool)
    requires isUrlField || "maxlength" !in w.attrs
    ensures Resized(w, isUrlField) == Ok(w)
  {
  }

  /** Below 200 characters the input stays, at least 20 wide and as wide
      as the length, with every other attribute kept. */
  lemma ShortField(w: Widget, isUrlField: bool, n: int)
    requires !isUrlField && "maxlength" in w.attrs && w.attrs["maxlength"] != Text("")
    requires MaxLength(w.attrs["maxlength"]) == Ok(n) && n < LongText
    ensures var r := Resized(w, isUrlField);
      && r.Ok? && r.value.kind == w.kind
      && r.value.attrs.Keys == w.attrs.Keys + {"size", "style"}
      && r.value.attrs["size"].Decimal? && r.value.attrs["size"].n >= 20 && r.value.attrs["size"].n >= n
      && (r.value.attrs["size"].n == 20 || r.value.attrs["size"].n == n)
      && r.value.attrs["style"] == Text("width: auto")
      && forall k :: k in w.attrs && k != "size" && k != "style" ==> r.value.attrs[k] == w.attrs[k]
  {
  }

  /** From 200 characters on the field becomes an 80-column text area with
      one row per 20 characters, rounded up; 200 characters give 10 rows. */
  lemma LongField(w: Widget, isUrlField: bool, n: int)
    requires !isUrlField && "maxlength" in w.attrs && w.attrs["maxlength"] != Text("")
    requires MaxLength(w.attrs["maxlength"]) == Ok(n) && n >= LongText
    ensures var r := Resized(w, isUrlField);
      && r.Ok? && r.value.kind == Textarea
      && r.value.attrs.Keys == {"cols", "rows"}
      && r.value.attrs["cols"] == Decimal(80)
      && r.value.attrs["rows"].Decimal?
      && 20 * (r.value.attrs["rows"].n - 1) < n <= 20 * r.value.attrs["rows"].n
      && (n == 200 ==> r.value.attrs["rows"] == Decimal(10))
  {
  }

  /** Resizing is settled after one pass: a resized widget is not resized
      differently again. */
  lemma ResizedIdempotent(w: Widget, isUrlField: bool)
    requires Resized(w, isUrlField).Ok?
    ensures var w' := Resized(w, isUrlField).value;
      Resized(w', isUrlField) == Ok(w')
  {
    var w' := Resized(w, isUrlField).value;
    if !isUrlField && "maxlength" in w.attrs && w.attrs["maxlength"] != Text("") {
      var n := MaxLength(w.attrs["maxlength"]).value;
      if n < LongText {
        assert w'.attrs["maxlength"] == w.attrs["maxlength"];
        assert w'.attrs["size" := Decimal(if n > 20 then n else 20)]["style" := Text("width: auto")] == w'.attrs;
      } else {
        assert "maxlength" !in w'.attrs;
      }
    }
  }

  /** `maxlength` as the text `str(n)` Django writes sizes the widget for
      `n`, as the number `n` does. */
  lemma TextMaxLengthAsNumber(w: Widget, n: nat)
    requires "maxlength" in w.attrs && w.attrs["maxlength"] == Text(NatToDecimal(n))
    ensures Resized(w, false) == Ok(SizedFor(w, n))
    ensures Resized(w.(attrs := w.attrs["maxlength" := Decimal(n)]), false)
         == Ok(SizedFor(w.(attrs := w.attrs["maxlength" := Decimal(n)]), n))
  {
    IntValueOfDecimal(n);
    assert Text(NatToDecimal(n)) != Text("");
  }

  /** Padded text that `int()` accepts sizes the widget for its value:
      `" +1_2\n"` counts as 12. */
  lemma PaddedMaxLength(w: Widget)
    requires "maxlength" in w.attrs && w.attrs["maxlength"] == Text(" +1_2\n")
    ensures Resized(w, false) == Ok(SizedFor(w, 12))
  {
    IntValuePadded();
  }

  /** Text `int()` refuses, such as `"12px"`, raises `ValueError`. */
  lemma RefusedMaxLength(w: Widget, s: string)
    requires "maxlength" in w.attrs && w.attrs["maxlength"] == Text(s) && s != "" && !IsInt(s)
    ensures Resized(w, false) == Err(InvalidValue)
  {
  }
}
