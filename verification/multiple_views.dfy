/** Several forms, or several filter sets, on one page (`libs/views/multiple.py`).

    A form class is represented by the validation it applies to submitted
    data; a bound form remembers whether `is_valid()` has run on it, which
    is how Django computes and stores a form's errors. */
module MultipleViews {
  import opened Errors
  import opened Fields

  /** Submitted form data (`request.POST` / `request.FILES`). */
  type FormData = map<string, string>

  /** A form class: what its `full_clean()` accepts. */
  datatype FormClass = FormClass(accepts: FormData -> bool)

  /** A form instance. */
  class BoundForm {
    const prefix: string
    const initial: map<string, Value>
    const data: Option<FormData>   // None for an unbound form
    const formClass: FormClass
    var validated: bool            // errors have been computed

    constructor (prefix: string, initial: map<string, Value>, data: Option<FormData>, formClass: FormClass)
      ensures this.prefix == prefix && this.initial == initial && this.data == data && this.formClass == formClass
      ensures !validated
    {
      this.prefix := prefix;
      this.initial := initial;
      this.data := data;
      this.formClass := formClass;
      validated := false;
    }

    /** Whether the form, as bound, passes validation. */
    predicate Acceptable()
    {
      data.Some? && formClass.accepts(data.value)
    }

    /** `is_valid()`: bound and free of errors; computes the errors. */
    method IsValid() returns (b: bool)
      modifies this
      ensures validated
      ensures b == Acceptable()
    {
      validated := true;
      b := Acceptable();
    }
  }

  /** One keyword argument of a form constructor. */
  datatype FormArg = InitialArg(initial: map<string, Value>) | PrefixArg(prefix: string) | DataArg(data: FormData)

  /** The outcome of a POST. */
  datatype Outcome = Redirect(url: Option<string>) | RenderInvalid

  /** A `MultipleFormView` as configured, with the request it serves. */
  class MultipleFormView {
    const initial: map<string, Value>
    const formClasses: seq<(string, FormClass)>
    const successUrl: Option<string>
    const isPost: bool
    const post: FormData
    const files: FormData

    constructor (initial: map<string, Value>, formClasses: seq<(string, FormClass)>, successUrl: Option<string>,
                 isPost: bool, post: FormData, files: FormData)
      ensures this.initial == initial && this.formClasses == formClasses && this.successUrl == successUrl
      ensures this.isPost == isPost && this.post == post && this.files == files
    {
      this.initial := initial;
      this.formClasses := formClasses;
      this.successUrl := successUrl;
      this.isPost := isPost;
      this.post := post;
      this.files := files;
    }

    /** `get_initial(prefix)`: a copy of the class-level `initial`, so the
        view's own mapping is never handed out. */
    method GetInitial(prefix: string) returns (r: map<string, Value>)
      ensures r == initial
    {
      r := initial;
    }

    /** `get_form_kwargs(prefix)`: `initial` and `prefix` always, and the
        submitted `data` and `files` added only for a POST. */
    method GetFormKwargs(prefix: string) returns (kwargs: map<string, FormArg>)
      ensures "initial" in kwargs && kwargs["initial"] == InitialArg(initial)
      ensures "prefix" in kwargs && kwargs["prefix"] == PrefixArg(prefix)
      ensures ("data" in kwargs) == isPost && ("files" in kwargs) == isPost
      ensures isPost ==> kwargs["data"] == DataArg(post) && kwargs["files"] == DataArg(files)
      ensures kwargs.Keys <= {"initial", "prefix", "data", "files"}
    {
      var init := GetInitial(prefix);
      kwargs := map["initial" := InitialArg(init), "prefix" := PrefixArg(prefix)];
      if isPost {
        kwargs := kwargs + map["data" := DataArg(post), "files" := DataArg(files)];
      }
    }

    /** `get_forms()`: one new form per `(prefix, class)` pair, in the
        configured order, bound to the submitted data on a POST. */
    method GetForms() returns (forms: seq<BoundForm>)
      ensures |forms| == |formClasses|
      ensures forall i :: 0 <= i < |forms| ==> fresh(forms[i]) && !forms[i].validated
      ensures forall i :: 0 <= i < |forms| ==> forms[i].prefix == formClasses[i].0 && forms[i].formClass == formClasses[i].1
      ensures forall i :: 0 <= i < |forms| ==> forms[i].initial == initial
      ensures forall i :: 0 <= i < |forms| ==> forms[i].data == (if isPost then Some(post) else None)
      ensures forall i, j :: 0 <= i < j < |forms| ==> forms[i] != forms[j]
    {
      forms := [];
      for k := 0 to |formClasses|
        invariant |forms| == k
        invariant forall i :: 0 <= i < k ==> fresh(forms[i]) && !forms[i].validated
        invariant forall i :: 0 <= i < k ==> forms[i].prefix == formClasses[i].0 && forms[i].formClass == formClasses[i].1
        invariant forall i :: 0 <= i < k ==> forms[i].initial == initial
        invariant forall i :: 0 <= i < k ==> forms[i].data == (if isPost then Some(post) else None)
        invariant forall i, j :: 0 <= i < j < k ==> forms[i] != forms[j]
      {
        var kwargs := GetFormKwargs(formClasses[k].0);
        var form := new BoundForm(formClasses[k].0, kwargs["initial"].initial,
                                  if isPost then Some(kwargs["data"].data) else None, formClasses[k].1);
        forms := forms + [form];
      }
    }

    /** `ProcessMultipleFormView.post`: every form is validated, with no
        short cut at the first invalid one; the view redirects to its
        `success_url` exactly when all of them are valid. */
    method Post() returns (forms: seq<BoundForm>, outcome: Outcome)
      requires isPost
      ensures |forms| == |formClasses|
      ensures forall i :: 0 <= i < |forms| ==> forms[i].validated
      ensures outcome.Redirect? <==> forall i :: 0 <= i < |formClasses| ==> formClasses[i].1.accepts(post)
      ensures outcome.Redirect? ==> outcome.url == successUrl
    {
      forms := GetForms();
      var validList: seq<bool> := [];
      for k := 0 to |forms|
        invariant |validList| == k
        invariant forall i :: 0 <= i < k ==> forms[i].validated
        invariant forall i :: 0 <= i < k ==> validList[i] == formClasses[i].1.accepts(post)
        invariant forall i :: 0 <= i < |forms| ==> forms[i].prefix == formClasses[i].0 && forms[i].formClass == formClasses[i].1
        invariant forall i :: 0 <= i < |forms| ==> forms[i].data == Some(post)
        modifies set i | 0 <= i < |forms| :: forms[i]
      {
        var b := forms[k].IsValid();
        validList := validList + [b];
      }
      if forall i :: 0 <= i < |validList| ==> validList[i] {
        outcome := Redirect(successUrl);
      } else {
        outcome := RenderInvalid;
      }
    }
  }

  // ---------------------------------------------------------------------
  // BaseMultipleFilterView

  /** A filter set, labelled with its model's verbose name. */
  class FilterSet {
    const modelName: string
    const acceptable: bool   // whether its form validates the GET data
    const count: nat         // `qs.count()` when it does
    var validated: bool

    constructor (modelName: string, acceptable: bool, count: nat)
      ensures this.modelName == modelName && this.acceptable == acceptable && this.count == count && !validated
    {
      this.modelName := modelName;
      this.acceptable := acceptable;
      this.count := count;
      validated := false;
    }

    method IsValid() returns (b: bool)
      modifies this
      ensures validated && b == acceptable
    {
      validated := true;
      b := acceptable;
    }
  }

  /** The total of the filter sets' counts. */
  function SumCounts(fs: seq<FilterSet>): nat
  {
    if fs == [] then 0 else SumCounts(fs[..|fs| - 1]) + fs[|fs| - 1].count
  }

  /** The number of leading filter sets that validate. */
  function ValidPrefix(fs: seq<FilterSet>): (n: nat)
    ensures n <= |fs|
    ensures forall i :: 0 <= i < n ==> fs[i].acceptable
    ensures n < |fs| ==> !fs[n].acceptable
  {
    if fs == [] then 0
    else if !fs[0].acceptable then 0
    else
      var n := ValidPrefix(fs[1..]);
      assert forall i :: 1 <= i < n + 1 ==> fs[i] == fs[1..][i - 1];
      n + 1
  }

  /** What `get` puts in the context. */
  datatype FilterResult = FilterResult(objectListList: seq<(string, nat)>, count: nat)

  /** `BaseMultipleFilterView.get`: `all()` over a generator stops at the
      first invalid filter set, so later ones are never validated; when all
      validate, the count is the sum of their counts, otherwise 0 with no
      result lists. */
  method MultipleFilterGet(filtersets: seq<FilterSet>) returns (r: FilterResult)
    requires forall i, j :: 0 <= i < j < |filtersets| ==> filtersets[i] != filtersets[j]
    modifies set i | 0 <= i < |filtersets| :: filtersets[i]
    ensures var allValid := forall i :: 0 <= i < |filtersets| ==> filtersets[i].acceptable;
      && (allValid ==> r.count == SumCounts(filtersets) && |r.objectListList| == |filtersets|
                       && forall i :: 0 <= i < |filtersets| ==> r.objectListList[i] == (filtersets[i].modelName, filtersets[i].count))
      && (!allValid ==> r.count == 0 && r.objectListList == [])
    ensures forall i :: 0 <= i < |filtersets| ==>
      filtersets[i].validated == (i <= ValidPrefix(filtersets) || old(filtersets[i].validated))
  {
    var allValid := true;
    var k := 0;
    while k < |filtersets| && allValid
      invariant 0 <= k <= |filtersets|
      invariant allValid == forall i :: 0 <= i < k ==> filtersets[i].acceptable
      invariant allValid ==> k <= ValidPrefix(filtersets)
      invariant !allValid ==> k == ValidPrefix(filtersets) + 1
      invariant forall i :: 0 <= i < k ==> filtersets[i].validated
      invariant forall i :: k <= i < |filtersets| ==> filtersets[i].validated == old(filtersets[i].validated)
    {
      var b := filtersets[k].IsValid();
      allValid := b;
      k := k + 1;
    }
    if allValid {
      var lists: seq<(string, nat)> := [];
      var count := 0;
      for j := 0 to |filtersets|
        invariant |lists| == j
        invariant forall i :: 0 <= i < j ==> lists[i] == (filtersets[i].modelName, filtersets[i].count)
        invariant count == SumCounts(filtersets[..j])
      {
        assert filtersets[..j + 1][..j] == filtersets[..j];
        lists := lists + [(filtersets[j].modelName, filtersets[j].count)];
        count := count + filtersets[j].count;
      }
      assert filtersets[..|filtersets|] == filtersets;
      r := FilterResult(lists, count);
    } else {
      r := FilterResult([], 0);
    }
  }
}
