/** The `grouping` template tag (`libs/templatetags/groups.py`): like
    Django's `regroup`, but the list is first ordered by the grouping key,
    and each group is labelled through the field's choices.

    Group keys are integers here (foreign key ids, choice values, booleans
    as 0 and 1); the ordering the database applies is the stable sort
    `SortByKey`. */
module Groups {
  import opened Errors
  import opened Seqs

  // ---------------------------------------------------------------------
  // The tag's syntax

  /** `{% grouping <target> by <key> as <name> %}`, parsed. */
  datatype GroupingNode = GroupingNode(target: string, groupByName: string, varName: string)

  /** `grouping(parser, token)`: exactly six bits, `by` third and `as`
      fifth. */
  function ParseGrouping(bits: seq<string>): (r: Result<GroupingNode>)
    ensures r.Ok? <==> |bits| == 6 && bits[2] == "by" && bits[4] == "as"
    ensures r.Err? ==> r.error == TemplateSyntax
    ensures r.Ok? ==> r.value == GroupingNode(bits[1], bits[3], bits[5])
  {
    if |bits| != 6 then Err(TemplateSyntax)
    else if bits[2] != "by" then Err(TemplateSyntax)
    else if bits[4] != "as" then Err(TemplateSyntax)
    else Ok(GroupingNode(bits[1], bits[3], bits[5]))
  }

  // ---------------------------------------------------------------------
  // Rows, sorting and grouping

  /** A row of the list: its model class, its id, and the value of the
      grouping attribute. */
  datatype Row = Row(modelClass: string, id: int, key: int)

  /** `get_model_class`: the class of the first row, if any. */
  function ModelClassOf(rows: seq<Row>): (r: Option<string>)
    ensures r.None? <==> rows == []
    ensures r.Some? ==> r.value == rows[0].modelClass
  {
    if rows == [] then None else Some(rows[0].modelClass)
  }

  predicate SortedByKey(s: seq<Row>)
  {
    forall i, j :: 0 <= i < j < |s| ==> s[i].key <= s[j].key
  }

  /** Places `x` before the first row whose key is not smaller. */
  function Insert(x: Row, s: seq<Row>): (r: seq<Row>)
    ensures multiset(r) == multiset(s) + multiset{x}
    ensures |r| == |s| + 1
  {
    if s == [] || x.key <= s[0].key then [x] + s
    else
      assert s == [s[0]] + s[1..];
      [s[0]] + Insert(x, s[1..])
  }

  /** Every row of `s` has a key of at least `b`. */
  predicate KeysAtLeast(s: seq<Row>, b: int)
  {
    forall i :: 0 <= i < |s| ==> b <= s[i].key
  }

  /** The tail of a sorted list is sorted and bounded below by its head. */
  lemma SortedTail(s: seq<Row>)
    requires s != [] && SortedByKey(s)
    ensures SortedByKey(s[1..]) && KeysAtLeast(s[1..], s[0].key)
  {
    assert forall i :: 0 <= i < |s[1..]| ==> s[1..][i] == s[i + 1];
  }

  /** A row no greater than a sorted list's keys can go in front of it. */
  lemma SortedCons(y: Row, t: seq<Row>)
    requires SortedByKey(t) && KeysAtLeast(t, y.key)
    ensures SortedByKey([y] + t)
  {
    assert forall i :: 1 <= i < |t| + 1 ==> ([y] + t)[i] == t[i - 1];
  }

  /** Inserting a row with a key of at least `b` keeps every key at least `b`. */
  lemma {:induction false} InsertKeysAtLeast(x: Row, s: seq<Row>, b: int)
    requires KeysAtLeast(s, b) && b <= x.key
    ensures KeysAtLeast(Insert(x, s), b)
  {
    if s != [] && x.key > s[0].key {
      assert KeysAtLeast(s[1..], b) by {
        assert forall i :: 0 <= i < |s[1..]| ==> s[1..][i] == s[i + 1];
      }
      InsertKeysAtLeast(x, s[1..], b);
      var t := Insert(x, s[1..]);
      assert forall i :: 1 <= i < |t| + 1 ==> ([s[0]] + t)[i] == t[i - 1];
    }
  }

  /** Inserting into a sorted list keeps it sorted. */
  lemma {:induction false} InsertSorted(x: Row, s: seq<Row>)
    requires SortedByKey(s)
    ensures SortedByKey(Insert(x, s))
  {
    if s == [] || x.key <= s[0].key {
      SortedCons(x, s);
    } else {
      SortedTail(s);
      InsertSorted(x, s[1..]);
      InsertKeysAtLeast(x, s[1..], s[0].key);
      SortedCons(s[0], Insert(x, s[1..]));
    }
  }

  /** `order_by(group_by_name, *current_order_by)`: ordered by the key,
      rows with equal keys in their existing order. */
  function SortByKey(s: seq<Row>): (r: seq<Row>)
    ensures multiset(r) == multiset(s)
    ensures SortedByKey(r)
    ensures |r| == |s|
  {
    if s == [] then [] else
      assert s == [s[0]] + s[1..];
      InsertSorted(s[0], SortByKey(s[1..]));
      Insert(s[0], SortByKey(s[1..]))
  }

  /** The rows with key `k`, in order. */
  function WithKey(s: seq<Row>, k: int): seq<Row>
  {
    if s == [] then [] else (if s[0].key == k then [s[0]] else []) + WithKey(s[1..], k)
  }

  /** The rows with key `k` of a list with a row in front. */
  lemma WithKeyCons(y: Row, t: seq<Row>, k: int)
    ensures WithKey([y] + t, k) == (if y.key == k then [y] else []) + WithKey(t, k)
  {
    assert ([y] + t)[1..] == t;
  }

  /** Inserting a row adds it in front of the rows with its key and leaves
      the other keys' rows alone. */
  lemma {:induction false} InsertWithKey(x: Row, s: seq<Row>, k: int)
    ensures WithKey(Insert(x, s), k) == (if x.key == k then [x] + WithKey(s, k) else WithKey(s, k))
  {
    if s == [] || x.key <= s[0].key {
      WithKeyCons(x, s, k);
    } else {
      InsertWithKey(x, s[1..], k);
      WithKeyCons(s[0], Insert(x, s[1..]), k);
      WithKeyCons(s[0], s[1..], k);
      assert s == [s[0]] + s[1..];
    }
  }

  /** The sort is stable: for every key, the rows with that key keep their
      relative order. */
  lemma {:induction false} SortByKeyStable(s: seq<Row>, k: int)
    ensures WithKey(SortByKey(s), k) == WithKey(s, k)
  {
    if s != [] {
      SortByKeyStable(s[1..], k);
      InsertWithKey(s[0], SortByKey(s[1..]), k);
      WithKeyCons(s[0], s[1..], k);
      assert s == [s[0]] + s[1..];
    }
  }

  /** `itertools.groupby`: maximal runs of adjacent rows with equal keys. */
  function GroupAdjacent(s: seq<Row>): (r: seq<seq<Row>>)
    ensures s == [] <==> r == []
    ensures forall i :: 0 <= i < |r| ==> r[i] != []
    ensures r != [] ==> r[0][0] == s[0]
  {
    if s == [] then []
    else
      var rest: seq<seq<Row>> := GroupAdjacent(s[1..]);
      if rest != [] && rest[0][0].key == s[0].key then [[s[0]] + rest[0]] + rest[1..]
      else [[s[0]]] + rest
  }

  /** The concatenation of groups. */
  function Concat(gs: seq<seq<Row>>): seq<Row>
  {
    if gs == [] then [] else gs[0] + Concat(gs[1..])
  }

  /** Every group is a non-empty run of one key. */
  predicate Uniform(g: seq<Row>)
  {
    g != [] && forall i :: 0 <= i < |g| ==> g[i].key == g[0].key
  }

  predicate AllUniform(gs: seq<seq<Row>>)
  {
    forall i :: 0 <= i < |gs| ==> Uniform(gs[i])
  }

  /** Concatenated, the groups give the list back. */
  lemma {:induction false} GroupAdjacentConcat(s: seq<Row>)
    ensures Concat(GroupAdjacent(s)) == s
  {
    if s != [] {
      var rest: seq<seq<Row>> := GroupAdjacent(s[1..]);
      GroupAdjacentConcat(s[1..]);
      if rest != [] && rest[0][0].key == s[0].key {
        assert GroupAdjacent(s) == [[s[0]] + rest[0]] + rest[1..];
        assert Concat(rest) == rest[0] + Concat(rest[1..]);
        assert ([[s[0]] + rest[0]] + rest[1..])[1..] == rest[1..];
      } else {
        assert ([[s[0]]] + rest)[1..] == rest;
      }
      assert s == [s[0]] + s[1..];
    }
  }

  /** Every group is a non-empty run of one key. */
  lemma {:induction false} GroupAdjacentUniform(s: seq<Row>)
    ensures AllUniform(GroupAdjacent(s))
  {
    if s != [] {
      var rest: seq<seq<Row>> := GroupAdjacent(s[1..]);
      GroupAdjacentUniform(s[1..]);
      var gs: seq<seq<Row>> := GroupAdjacent(s);
      if rest != [] && rest[0][0].key == s[0].key {
        assert Uniform(rest[0]);
        assert forall i :: 1 <= i < |gs| ==> gs[i] == rest[i];
      } else {
        assert forall i :: 1 <= i < |gs| ==> gs[i] == rest[i - 1];
      }
    }
  }

  /** Neighbouring groups differ in key. */
  lemma {:induction false} GroupAdjacentMaximal(s: seq<Row>)
    ensures forall i :: 0 <= i < |GroupAdjacent(s)| - 1 ==> GroupAdjacent(s)[i][0].key != GroupAdjacent(s)[i + 1][0].key
  {
    if s != [] {
      var rest: seq<seq<Row>> := GroupAdjacent(s[1..]);
      GroupAdjacentMaximal(s[1..]);
      var gs: seq<seq<Row>> := GroupAdjacent(s);
      if rest != [] && rest[0][0].key == s[0].key {
        assert forall i :: 1 <= i < |gs| ==> gs[i] == rest[i];
      } else {
        assert forall i :: 1 <= i < |gs| ==> gs[i] == rest[i - 1];
      }
    }
  }

  /** The groups partition the list: concatenated they give it back, each is
      a non-empty run of one key, and neighbouring groups differ in key. */
  lemma GroupAdjacentPartition(s: seq<Row>)
    ensures Concat(GroupAdjacent(s)) == s
    ensures AllUniform(GroupAdjacent(s))
    ensures forall i :: 0 <= i < |GroupAdjacent(s)| - 1 ==> GroupAdjacent(s)[i][0].key != GroupAdjacent(s)[i + 1][0].key
  {
    GroupAdjacentConcat(s);
    GroupAdjacentUniform(s);
    GroupAdjacentMaximal(s);
  }

  /** The groups' keys strictly increase. */
  predicate IncreasingGroupKeys(gs: seq<seq<Row>>)
  {
    (forall i :: 0 <= i < |gs| ==> gs[i] != [])
    && forall i, j :: 0 <= i < j < |gs| ==> gs[i][0].key < gs[j][0].key
  }

  /** On a list sorted by key the groups' keys strictly increase, so no key
      appears in two groups. */
  lemma {:induction false} GroupsOfSortedHaveDistinctKeys(s: seq<Row>)
    requires SortedByKey(s)
    ensures IncreasingGroupKeys(GroupAdjacent(s))
  {
    if s != [] {
      SortedTail(s);
      GroupsOfSortedHaveDistinctKeys(s[1..]);
      var rest: seq<seq<Row>> := GroupAdjacent(s[1..]);
      var gs: seq<seq<Row>> := GroupAdjacent(s);
      if rest != [] && rest[0][0].key == s[0].key {
        assert forall i :: 1 <= i < |gs| ==> gs[i] == rest[i];
      } else {
        if rest != [] {
          assert rest[0][0] == s[1];
        }
        assert forall i :: 1 <= i < |gs| ==> gs[i] == rest[i - 1];
      }
    }
  }

  /** The first row of every group is a row of the list. */
  lemma {:induction false} GroupKeysFromList(s: seq<Row>)
    ensures forall i :: 0 <= i < |GroupAdjacent(s)| ==> GroupAdjacent(s)[i] != [] && GroupAdjacent(s)[i][0] in s
  {
    if s != [] {
      GroupKeysFromList(s[1..]);
      var rest: seq<seq<Row>> := GroupAdjacent(s[1..]);
      var gs: seq<seq<Row>> := GroupAdjacent(s);
      if rest != [] && rest[0][0].key == s[0].key {
        assert forall i :: 1 <= i < |gs| ==> gs[i] == rest[i];
      } else {
        assert forall i :: 1 <= i < |gs| ==> gs[i] == rest[i - 1];
      }
    }
  }

  // ---------------------------------------------------------------------
  // Labels

  /** What `hasattr(model_class, attr_name)` and the attribute's field tell
      about the grouping attribute: not a class attribute, a class
      attribute without a `.field` (the `pk` property, a reverse one-to-one
      accessor), or a field with its choices (`None` when it has none or
      they are empty). */
  datatype AttrInfo =
    | NotModelAttr
    | AttrWithoutField
    | ModelField(choices: Option<seq<(int, string)>>)

  /** A group's label: a choice's label, or a key value. */
  datatype Label = ChoiceText(text: string) | KeyValue(key: int)

  /** The first choice for `key`, if any. */
  function FirstChoice(choices: seq<(int, string)>, key: int): (r: Option<string>)
    ensures r.None? <==> forall i :: 0 <= i < |choices| ==> choices[i].0 != key
    ensures r.Some? ==> exists j :: (0 <= j < |choices| && choices[j] == (key, r.value)
                                     && forall i :: 0 <= i < j ==> choices[i].0 != key)
  {
    var matching := Filter(choices, (c: (int, string)) => c.0 == key);
    if matching == [] then None
    else
      FirstMatchIsFirst(choices, key);
      Some(matching[0].1)
  }

  lemma {:induction false} FirstMatchIsFirst(choices: seq<(int, string)>, key: int)
    requires Filter(choices, (c: (int, string)) => c.0 == key) != []
    ensures var m := Filter(choices, (c: (int, string)) => c.0 == key)[0];
      exists j :: (0 <= j < |choices| && choices[j] == m && m.0 == key
                   && forall i :: 0 <= i < j ==> choices[i].0 != key)
  {
    var p := (c: (int, string)) => c.0 == key;
    if choices[0].0 == key {
      assert Filter(choices, p)[0] == choices[0];
    } else {
      assert Filter(choices, p) == Filter(choices[1..], p);
      FirstMatchIsFirst(choices[1..], key);
      var m := Filter(choices, p)[0];
      var j :| 0 <= j < |choices[1..]| && choices[1..][j] == m && m.0 == key
               && forall i :: 0 <= i < j ==> choices[1..][i].0 != key;
      assert choices[j + 1] == m;
      assert forall i :: 1 <= i < j + 1 ==> choices[i] == choices[1..][i - 1];
    }
  }

  /** `get_choice_label`: for a non-model attribute the first row's value;
      an AttributeError reading `.field` of a class attribute that has
      none; otherwise the first matching choice's label, or the key itself
      when there are no choices or none matches. */
  function ChoiceLabel(info: AttrInfo, key: int, values: seq<Row>): (r: Result<Label>)
    requires info.NotModelAttr? ==> values != []
    ensures r.Err? <==> info.AttrWithoutField?
    ensures r.Err? ==> r.error == MissingAttribute
    ensures info.NotModelAttr? ==> r == Ok(KeyValue(values[0].key))
    ensures info.ModelField? && info.choices.None? ==> r == Ok(KeyValue(key))
    ensures info.ModelField? && info.choices.Some? ==>
      (r == Ok(KeyValue(key)) <==> forall i :: 0 <= i < |info.choices.value| ==> info.choices.value[i].0 != key)
    ensures r.Ok? && r.value.ChoiceText? ==> (info.ModelField? && info.choices.Some?
      && exists j :: (0 <= j < |info.choices.value| && info.choices.value[j] == (key, r.value.text)
                      && forall i :: 0 <= i < j ==> info.choices.value[i].0 != key))
  {
    match info
    case NotModelAttr => Ok(KeyValue(values[0].key))
    case AttrWithoutField => Err(MissingAttribute)
    case ModelField(choices) =>
      if choices.None? then Ok(KeyValue(key))
      else
        var found := FirstChoice(choices.value, key);
        if found.Some? then Ok(ChoiceText(found.value)) else Ok(KeyValue(key))
  }

  /** One group of the result. */
  datatype GroupResult = GroupResult(grouper: Label, rows: seq<Row>)

  /** `render`: sort, group adjacent rows, and label each group; the first
      label that cannot be read fails the whole tag. */
  function Render(objectList: seq<Row>, info: AttrInfo): (r: Result<seq<GroupResult>>)
    ensures r.Err? <==> objectList != [] && info.AttrWithoutField?
    ensures r.Err? ==> r.error == MissingAttribute
    ensures r.Ok? ==> (r.value == [] <==> objectList == [])
    ensures r.Ok? ==> forall i :: 0 <= i < |r.value| ==>
      Uniform(r.value[i].rows) && ChoiceLabel(info, r.value[i].rows[0].key, r.value[i].rows) == Ok(r.value[i].grouper)
  {
    var sorted := SortByKey(objectList);
    GroupAdjacentPartition(sorted);
    Results(GroupAdjacent(sorted), info)
  }

  /** The list comprehension over the groups: one labelled result per
      group, or the error of the first label that fails. */
  function Results(gs: seq<seq<Row>>, info: AttrInfo): (r: Result<seq<GroupResult>>)
    requires AllUniform(gs)
    ensures r.Err? <==> gs != [] && info.AttrWithoutField?
    ensures r.Err? ==> r.error == MissingAttribute
    ensures r.Ok? ==> |r.value| == |gs|
    ensures r.Ok? ==> forall i :: 0 <= i < |gs| ==>
      ChoiceLabel(info, gs[i][0].key, gs[i]) == Ok(r.value[i].grouper) && r.value[i].rows == gs[i]
  {
    if gs == [] then Ok([])
    else
      var grouper := ChoiceLabel(info, gs[0][0].key, gs[0]);
      if grouper.Err? then Err(grouper.error)
      else
        var rest := Results(gs[1..], info);
        if rest.Err? then rest else Ok([GroupResult(grouper.value, gs[0])] + rest.value)
  }

  /** The rendered groups list every row once, ordered by key with ties in
      their original order; each group is one key, no key is split over two
      groups, and a group of a non-model attribute is labelled by its key. */
  lemma RenderGroups(objectList: seq<Row>, info: AttrInfo)
    requires !info.AttrWithoutField?
    ensures var r := Render(objectList, info).value;
      var sorted := SortByKey(objectList);
      && |r| == |GroupAdjacent(sorted)|
      && (forall i :: 0 <= i < |r| ==> r[i].rows == GroupAdjacent(sorted)[i] && Uniform(r[i].rows))
      && (forall i, j :: 0 <= i < j < |r| ==> r[i].rows[0].key < r[j].rows[0].key)
      && (info.NotModelAttr? ==> forall i :: 0 <= i < |r| ==> r[i].grouper == KeyValue(r[i].rows[0].key))
      && Concat(GroupAdjacent(sorted)) == sorted
      && multiset(sorted) == multiset(objectList)
      && (forall k :: WithKey(sorted, k) == WithKey(objectList, k))
  {
    var sorted := SortByKey(objectList);
    GroupAdjacentPartition(sorted);
    GroupsOfSortedHaveDistinctKeys(sorted);
    forall k
      ensures WithKey(sorted, k) == WithKey(objectList, k)
    {
      SortByKeyStable(objectList, k);
    }
  }
}
