/** The view mixins of `libs/views_mixin.py`: the names a view shows for
    its object, where a form goes after success, the checked `next` /
    `success_url` parameters, and `CopyMixin`'s initial data copied from a
    source object. */
module ViewsMixin {
  import opened Errors
  import opened Fields
  import opened Actions
  import opened Menu
  import QS = QueryStrings
  import opened Urls

  // ---------------------------------------------------------------------
  // ObjectNameMixin / ObjectListNameMixin

  /** `ObjectNameMixin.get_object_name()`. */
  function ObjectName(objectLabel: Option<string>, model: Option<ModelClass>): (r: string)
    ensures Truthy(objectLabel) ==> r == objectLabel.value
    ensures !Truthy(objectLabel) && model.Some? ==> r == model.value.verboseName
    ensures !Truthy(objectLabel) && model.None? ==> r == "未設定"
  {
    if Truthy(objectLabel) then objectLabel.value
    else if model.Some? then model.value.verboseName
    else "未設定"
  }

  /** `ObjectListNameMixin.get_object_name()`. */
  function ObjectListName(objectLabel: Option<string>, model: Option<ModelClass>): (r: string)
    ensures Truthy(objectLabel) ==> r == objectLabel.value
    ensures !Truthy(objectLabel) && model.Some? ==> r == model.value.verboseName + "一覧"
    ensures !Truthy(objectLabel) && model.None? ==> r == "未設定"
  {
    if Truthy(objectLabel) then objectLabel.value
    else if model.Some? then model.value.verboseName + "一覧"
    else "未設定"
  }

  /** The list name is the object name, with `一覧` appended exactly when
      it comes from the model's verbose name (never to `object_label`). */
  lemma ObjectListNameExtends(objectLabel: Option<string>, model: Option<ModelClass>)
    ensures !Truthy(objectLabel) && model.Some?
      ==> ObjectListName(objectLabel, model) == ObjectName(objectLabel, model) + "一覧"
    ensures Truthy(objectLabel) || model.None?
      ==> ObjectListName(objectLabel, model) == ObjectName(objectLabel, model)
  {
  }

  // ---------------------------------------------------------------------
  // SuccessUrlMixin

  /** `SuccessUrlMixin.get_success_url()`: an explicit `success_url` first,
      then the model's `get_model_top_url`, then its `get_list_url`. */
  function SuccessUrl(successUrl: Option<string>, model: Option<ModelClass>): (r: Result<Url>)
    ensures r.Ok? <==> (Truthy(successUrl)
      || (model.Some? && (ModelTopUrl in model.value.capabilities || ListUrl in model.value.capabilities)))
    ensures r.Err? ==> r.error == ImproperlyConfigured
    ensures Truthy(successUrl) ==> r == Ok(Literal(successUrl.value))
    ensures !Truthy(successUrl) && model.Some? && ModelTopUrl in model.value.capabilities ==>
      r == Ok(Bound(model.value.name, ModelTopUrl))
    ensures (!Truthy(successUrl) && model.Some? && ModelTopUrl !in model.value.capabilities
             && ListUrl in model.value.capabilities) ==>
      r == Ok(Bound(model.value.name, ListUrl))
  {
    if Truthy(successUrl) then Ok(Literal(successUrl.value))
    else if model.Some? && ModelTopUrl in model.value.capabilities then Ok(Bound(model.value.name, ModelTopUrl))
    else if model.Some? && ListUrl in model.value.capabilities then Ok(Bound(model.value.name, ListUrl))
    else Err(ImproperlyConfigured)
  }

  /** The three places a success URL may come from, in order of preference. */
  function SuccessCandidates(successUrl: Option<string>, model: Option<ModelClass>): (r: seq<Option<Url>>)
    ensures |r| == 3
  {
    [ if Truthy(successUrl) then Some(Literal(successUrl.value)) else None,
      if model.Some? && ModelTopUrl in model.value.capabilities then Some(Bound(model.value.name, ModelTopUrl)) else None,
      if model.Some? && ListUrl in model.value.capabilities then Some(Bound(model.value.name, ListUrl)) else None ]
  }

  /** The first present candidate, or a configuration error. */
  function FirstPresent(cs: seq<Option<Url>>): (r: Result<Url>)
    ensures r.Ok? <==> exists i :: 0 <= i < |cs| && cs[i].Some?
    ensures r.Ok? ==> exists i :: (0 <= i < |cs| && cs[i] == Some(r.value)
      && forall j :: 0 <= j < i ==> cs[j].None?)
  {
    if cs == [] then Err(ImproperlyConfigured)
    else if cs[0].Some? then Ok(cs[0].value)
    else
      var t := FirstPresent(cs[1..]);
      assert forall i :: 1 <= i < |cs| ==> cs[i] == cs[1..][i - 1];
      if t.Ok? then
        assert exists i :: 0 <= i < |cs| && cs[i] == Some(t.value) && forall j :: 0 <= j < i ==> cs[j].None? by {
          var k :| 0 <= k < |cs[1..]| && cs[1..][k] == Some(t.value) && forall j :: 0 <= j < k ==> cs[1..][j].None?;
          assert cs[k + 1] == Some(t.value);
          assert forall j :: 0 <= j < k + 1 ==> cs[j].None? by {
            forall j | 0 <= j < k + 1 ensures cs[j].None? {
              if j > 0 {
                assert cs[j] == cs[1..][j - 1];
              }
            }
          }
        }
        t
      else t
  }

  /** `get_success_url` is the first-match rule over its three candidates. */
  lemma SuccessUrlIsFirstMatch(successUrl: Option<string>, model: Option<ModelClass>)
    ensures SuccessUrl(successUrl, model) == FirstPresent(SuccessCandidates(successUrl, model))
  {
    var cs := SuccessCandidates(successUrl, model);
    assert cs[1..][1..][1..] == [];
    assert FirstPresent(cs[1..][1..]) == (if cs[2].Some? then Ok(cs[2].value) else Err(ImproperlyConfigured));
  }

  // ---------------------------------------------------------------------
  // SupportSuccessUrlMixin / SupportNextUrlMixin

  /** Whether Django's `resolve` accepts a path.  `resolve(None)` looks up
      the text `"None"`, which has no leading `/` and never resolves. */
  predicate Resolves(path: Option<string>, resolves: string -> bool)
  {
    path.Some? && resolves(path.value)
  }

  /** `SupportSuccessUrlMixin.get_context_data`: the `success_url` entry is
      the `next` GET parameter, absent when there is none. */
  function SuccessUrlEntry(getParams: map<string, string>): (r: Option<string>)
    ensures r.Some? <==> "next" in getParams
    ensures r.Some? ==> r.value == getParams["next"]
  {
    if "next" in getParams then Some(getParams["next"]) else None
  }

  /** `SupportSuccessUrlMixin.get_success_url`: the posted `success_url`
      as it was submitted when its query-stripped form resolves, else the
      inherited success URL. */
  function SubmittedSuccessUrl(nextParam: Option<string>, resolves: string -> bool, inherited: Result<Url>): (r: Result<Url>)
    ensures Resolves(RemoveQueryString(nextParam), resolves) ==> nextParam.Some? && r == Ok(Literal(nextParam.value))
    ensures !Resolves(RemoveQueryString(nextParam), resolves) ==> r == inherited
  {
    if Resolves(RemoveQueryString(nextParam), resolves) then Ok(Literal(nextParam.value)) else inherited
  }

  /** `SupportNextUrlMixin.get_redirect_url`: the posted `next` as it was
      submitted when it resolves, else the inherited redirect URL. */
  function SubmittedNextUrl(nextParam: Option<string>, resolves: string -> bool, inherited: Option<string>): (r: Option<string>)
    ensures Resolves(nextParam, resolves) ==> r == nextParam
    ensures !Resolves(nextParam, resolves) ==> r == inherited
  {
    if Resolves(nextParam, resolves) then nextParam else inherited
  }

  /** Whether a posted `success_url` is accepted depends only on the URL
      without its query: two values that differ only in their queries are
      accepted or refused together. */
  lemma SubmittedSuccessUrlIgnoresQuery(a: string, b: string, resolves: string -> bool)
    requires a != "" && b != ""
    requires QS.UrlParse(a).base == QS.UrlParse(b).base && QS.UrlParse(a).fragment == QS.UrlParse(b).fragment
    ensures Resolves(RemoveQueryString(Some(a)), resolves) == Resolves(RemoveQueryString(Some(b)), resolves)
  {
    assert RemoveQueryString(Some(a)) == RemoveQueryString(Some(b));
  }

  /** For a value with neither query nor fragment the two mixins apply the
      same test: `success_url` is checked exactly as `next` is. */
  lemma SubmittedUrlsAgree(p: string, resolves: string -> bool)
    requires '?' !in p && '#' !in p
    ensures Resolves(RemoveQueryString(Some(p)), resolves) == Resolves(Some(p), resolves)
  {
    if p != "" {
      assert QS.UrlParse(p) == QS.Url(p, "", "");
      QS.GetUrlOfBase(p);
    }
  }

  // ---------------------------------------------------------------------
  // CopyMixin

  /** The object a copy starts from: its primary key and its attributes. */
  datatype Source = Source(id: int, attrs: map<string, Value>)

  /** `CopyMixin.get_source_object()`: no `src_model` is a configuration
      error, a missing URL argument a `KeyError`, and an unknown key a 404.
      `lookup` stands for `get_object_or_404(src_model, pk=...)`. */
  function GetSourceObject(hasSrcModel: bool, kwargs: map<string, string>, srcIdKwarg: string,
                           lookup: string -> Option<Source>): (r: Result<Source>)
    ensures !hasSrcModel ==> r == Err(ImproperlyConfigured)
    ensures hasSrcModel && srcIdKwarg !in kwargs ==> r == Err(KeyMissing)
    ensures hasSrcModel && srcIdKwarg in kwargs ==>
      (lookup(kwargs[srcIdKwarg]).Some? ==> r == Ok(lookup(kwargs[srcIdKwarg]).value))
      && (lookup(kwargs[srcIdKwarg]).None? ==> r == Err(NotFound))
  {
    if !hasSrcModel then Err(ImproperlyConfigured)
    else if srcIdKwarg !in kwargs then Err(KeyMissing)
    else
      var found := lookup(kwargs[srcIdKwarg]);
      if found.Some? then Ok(found.value) else Err(NotFound)
  }

  /** What `copy_fields` can hold. */
  datatype CopyFields =
    | NoCopyFields                           // None
    | TextFields(text: string)               // a str, which the mixin refuses
    | MappedFields(pairs: seq<(string, string)>) // a dict: source attribute -> initial key
    | ListedFields(names: seq<string>)       // a tuple or list of attribute names

  predicate CopyFieldsTruthy(f: CopyFields)
  {
    match f
    case NoCopyFields => false
    case TextFields(t) => t != ""
    case MappedFields(ps) => ps != []
    case ListedFields(ns) => ns != []
  }

  /** The value one copy step reads: `src` itself for the key `"self"` of a
      dict, else `getattr(src, name)`. */
  function ReadSource(src: Source, name: string, selfAllowed: bool): (r: Result<Value>)
    ensures r.Err? <==> !(selfAllowed && name == "self") && name !in src.attrs
    ensures r.Err? ==> r.error == MissingAttribute
  {
    if selfAllowed && name == "self" then Ok(ObjectValue(src.id))
    else if name in src.attrs then Ok(src.attrs[name])
    else Err(MissingAttribute)
  }

  /** The copy steps as `(source name, initial key)` pairs: a list copies
      each name onto itself. */
  function SameNamePairs(names: seq<string>): (r: seq<(string, string)>)
    ensures |r| == |names|
    ensures forall i :: 0 <= i < |names| ==> r[i] == (names[i], names[i])
  {
    if names == [] then [] else [(names[0], names[0])] + SameNamePairs(names[1..])
  }

  /** The initial data after the copy steps in order, or the error of the
      first step that fails. */
  function CopyPairs(initial: map<string, Value>, src: Source, pairs: seq<(string, string)>, selfAllowed: bool): Result<map<string, Value>>
  {
    if pairs == [] then Ok(initial)
    else
      var before := CopyPairs(initial, src, pairs[..|pairs| - 1], selfAllowed);
      var last := pairs[|pairs| - 1];
      if before.Err? then before
      else
        var v := ReadSource(src, last.0, selfAllowed);
        if v.Err? then Err(v.error) else Ok(before.value[last.1 := v.value])
  }

  /** `CopyMixin.get_initial()` as a function of the base initial data, the
      source lookup and `copy_fields`. */
  function CopyInitial(initial: map<string, Value>, source: Result<Source>, fields: CopyFields): Result<map<string, Value>>
  {
    if source.Err? then Err(source.error)
    else if !CopyFieldsTruthy(fields) then Err(ImproperlyConfigured)
    else
      match fields
      case TextFields(_) => Err(ImproperlyConfigured)
      case MappedFields(pairs) => CopyPairs(initial, source.value, pairs, true)
      case ListedFields(names) => CopyPairs(initial, source.value, SameNamePairs(names), false)
      case NoCopyFields => Err(ImproperlyConfigured)
  }

  lemma {:induction false} CopyPairsErrPersists(initial: map<string, Value>, src: Source, pairs: seq<(string, string)>, selfAllowed: bool, i: nat)
    requires i <= |pairs|
    requires CopyPairs(initial, src, pairs[..i], selfAllowed).Err?
    ensures CopyPairs(initial, src, pairs, selfAllowed) == CopyPairs(initial, src, pairs[..i], selfAllowed)
    decreases |pairs| - i
  {
    if i < |pairs| {
      assert pairs[..i + 1][..i] == pairs[..i];
      CopyPairsErrPersists(initial, src, pairs, selfAllowed, i + 1);
    } else {
      assert pairs[..i] == pairs;
    }
  }

  /** The mixin's loop: the checks first, then one write into the initial
      data per copy step. */
  method GetInitial(initial: map<string, Value>, source: Result<Source>, fields: CopyFields)
    returns (r: Result<map<string, Value>>)
    ensures r == CopyInitial(initial, source, fields)
  {
    if source.Err? {
      return Err(source.error);
    }
    if !CopyFieldsTruthy(fields) || fields.TextFields? {
      return Err(ImproperlyConfigured);
    }
    var src := source.value;
    var pairs: seq<(string, string)>;
    var selfAllowed: bool;
    if fields.MappedFields? {
      pairs, selfAllowed := fields.pairs, true;
    } else {
      pairs, selfAllowed := SameNamePairs(fields.names), false;
    }
    var data := initial;
    for i := 0 to |pairs|
      invariant CopyPairs(initial, src, pairs[..i], selfAllowed) == Ok(data)
    {
      assert pairs[..i + 1][..i] == pairs[..i];
      var v := ReadSource(src, pairs[i].0, selfAllowed);
      if v.Err? {
        CopyPairsErrPersists(initial, src, pairs, selfAllowed, i + 1);
        return Err(v.error);
      }
      data := data[pairs[i].1 := v.value];
    }
    assert pairs[..|pairs|] == pairs;
    return Ok(data);
  }

  /** The keys the copy steps write. */
  function Targets(pairs: seq<(string, string)>): (r: set<string>)
    ensures forall k :: k in r <==> exists i :: 0 <= i < |pairs| && pairs[i].1 == k
  {
    if pairs == [] then {}
    else
      var t := Targets(pairs[..|pairs| - 1]);
      assert forall i :: 0 <= i < |pairs| - 1 ==> pairs[..|pairs| - 1][i] == pairs[i];
      t + {pairs[|pairs| - 1].1}
  }

  /** The copy fails exactly when some step reads a missing attribute, and
      otherwise writes exactly the target keys, leaving every other key of
      the initial data as it was. */
  lemma {:induction false} CopyPairsFrame(initial: map<string, Value>, src: Source, pairs: seq<(string, string)>, selfAllowed: bool)
    ensures CopyPairs(initial, src, pairs, selfAllowed).Err?
      <==> exists i :: 0 <= i < |pairs| && ReadSource(src, pairs[i].0, selfAllowed).Err?
    ensures CopyPairs(initial, src, pairs, selfAllowed).Err? ==> CopyPairs(initial, src, pairs, selfAllowed).error == MissingAttribute
    ensures var r := CopyPairs(initial, src, pairs, selfAllowed);
      r.Ok? ==> (r.value.Keys == initial.Keys + Targets(pairs)
        && forall k :: k in initial && k !in Targets(pairs) ==> r.value[k] == initial[k])
  {
    if pairs != [] {
      var init := pairs[..|pairs| - 1];
      assert forall i :: 0 <= i < |init| ==> init[i] == pairs[i];
      CopyPairsFrame(initial, src, init, selfAllowed);
    }
  }

  /** A key written by a step that no later step overwrites holds the value
      that step read: for a dict the last mapping onto a key wins. */
  lemma {:induction false} CopyPairsLastWins(initial: map<string, Value>, src: Source, pairs: seq<(string, string)>, selfAllowed: bool, j: nat)
    requires j < |pairs|
    requires forall i :: j < i < |pairs| ==> pairs[i].1 != pairs[j].1
    requires CopyPairs(initial, src, pairs, selfAllowed).Ok?
    ensures ReadSource(src, pairs[j].0, selfAllowed).Ok?
    ensures pairs[j].1 in CopyPairs(initial, src, pairs, selfAllowed).value
    ensures CopyPairs(initial, src, pairs, selfAllowed).value[pairs[j].1] == ReadSource(src, pairs[j].0, selfAllowed).value
  {
    var init := pairs[..|pairs| - 1];
    if j < |pairs| - 1 {
      assert forall i :: 0 <= i < |init| ==> init[i] == pairs[i];
      CopyPairsLastWins(initial, src, init, selfAllowed, j);
    }
  }

  /** With a list of names every listed key ends up holding the source's
      attribute of the same name. */
  lemma ListedFieldsCopied(initial: map<string, Value>, src: Source, names: seq<string>)
    requires CopyInitial(initial, Ok(src), ListedFields(names)).Ok?
    ensures forall n :: n in names ==> n in src.attrs && n in CopyInitial(initial, Ok(src), ListedFields(names)).value && CopyInitial(initial, Ok(src), ListedFields(names)).value[n] == src.attrs[n]
  {
    var pairs := SameNamePairs(names);
    forall n | n in names
      ensures n in src.attrs && n in CopyInitial(initial, Ok(src), ListedFields(names)).value && CopyInitial(initial, Ok(src), ListedFields(names)).value[n] == src.attrs[n]
    {
      var j :| 0 <= j < |names| && names[j] == n && forall i :: j < i < |names| ==> names[i] != n by {
        LastIndex(names, n);
      }
      CopyPairsLastWins(initial, src, pairs, false, j);
    }
  }

  lemma {:induction false} LastIndex(names: seq<string>, n: string)
    requires n in names
    ensures exists j :: 0 <= j < |names| && names[j] == n && forall i :: j < i < |names| ==> names[i] != n
    decreases |names|
  {
    var last := |names| - 1;
    if names[last] == n {
      assert names[last] == n;
    } else {
      var init := names[..last];
      var k :| 0 <= k < |names| && names[k] == n;
      assert init[k] == n;
      LastIndex(init, n);
      var j :| 0 <= j < |init| && init[j] == n && forall i :: j < i < |init| ==> init[i] != n;
      assert names[j] == n;
      assert forall i :: j < i < |names| ==> names[i] != n by {
        forall i | j < i < |names| ensures names[i] != n {
          if i < last {
            assert names[i] == init[i];
          }
        }
      }
    }
  }
}
