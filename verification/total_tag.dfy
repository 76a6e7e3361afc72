/** The `total` template filter (`libs/templatetags/total.py`): the sum of
    one attribute over a list of objects. */
module TotalTag {
  import opened Errors

  /** An attribute as `getattr` finds it: a plain number, or a bound
      method, represented by the number it returns when called. */
  datatype Attribute = Plain(value: int) | BoundMethod(result: int)

  /** An object, by the attributes it has. */
  type Object = map<string, Attribute>

  /** What one object adds to the total. */
  function Contribution(a: Attribute): (r: int)
    ensures a.Plain? ==> r == a.value
    ensures a.BoundMethod? ==> r == a.result
  {
    match a
    case Plain(v) => v
    case BoundMethod(v) => v
  }

  /** The total over `objects`, or `MissingAttribute` when one of them
      lacks the attribute. */
  function TotalOf(objects: seq<Object>, key: string): (r: Result<int>)
    ensures r.Err? <==> exists i :: 0 <= i < |objects| && key !in objects[i]
    ensures r.Err? ==> r.error == MissingAttribute
  {
    if objects == [] then Ok(0)
    else
      var front := objects[..|objects| - 1];
      var last := objects[|objects| - 1];
      var sum := TotalOf(front, key);
      assert forall i :: 0 <= i < |front| ==> front[i] == objects[i];
      if sum.Err? then Err(sum.error)
      else if key !in last then Err(MissingAttribute)
      else Ok(sum.value + Contribution(last[key]))
  }

  /** `total(object_list, key)`. */
  method Total(objectList: seq<Object>, key: string) returns (r: Result<int>)
    ensures r == TotalOf(objectList, key)
  {
    var total := 0;
    for i := 0 to |objectList|
      invariant TotalOf(objectList[..i], key) == Ok(total)
    {
      assert objectList[..i + 1][..i] == objectList[..i];
      var obj := objectList[i];
      if key !in obj {
        assert TotalOf(objectList[..i + 1], key).Err?;
        TotalStopsAtError(objectList[..i + 1], objectList[i + 1..], key);
        assert objectList[..i + 1] + objectList[i + 1..] == objectList;
        return Err(MissingAttribute);
      }
      var value := obj[key];
      var v := if value.BoundMethod? then value.result else value.value;
      total := total + v;
    }
    assert objectList[..|objectList|] == objectList;
    return Ok(total);
  }

  /** Once an object lacks the attribute, more objects do not change the
      outcome. */
  lemma {:induction false} TotalStopsAtError(a: seq<Object>, b: seq<Object>, key: string)
    requires TotalOf(a, key).Err?
    ensures TotalOf(a + b, key) == TotalOf(a, key)
    decreases |b|
  {
    if b == [] {
      assert a + b == a;
    } else {
      var front := b[..|b| - 1];
      assert (a + b)[..|a + b| - 1] == a + front;
      TotalStopsAtError(a, front, key);
    }
  }

  /** The total splits over concatenation: it is a sum. */
  lemma {:induction false} TotalAppend(a: seq<Object>, b: seq<Object>, key: string)
    requires TotalOf(a, key).Ok? && TotalOf(b, key).Ok?
    ensures TotalOf(a + b, key) == Ok(TotalOf(a, key).value + TotalOf(b, key).value)
    decreases |b|
  {
    if b == [] {
      assert a + b == a;
    } else {
      var front := b[..|b| - 1];
      assert (a + b)[..|a + b| - 1] == a + front;
      assert forall i :: 0 <= i < |front| ==> front[i] == b[i];
      TotalAppend(a, front, key);
    }
  }

  /** A bound method counts with what it returns, a plain attribute with
      itself; an empty list totals 0. */
  lemma TotalOfOne(o: Object, key: string, v: int)
    ensures TotalOf([], key) == Ok(0)
    ensures key in o && o[key] == Plain(v) ==> TotalOf([o], key) == Ok(v)
    ensures key in o && o[key] == BoundMethod(v) ==> TotalOf([o], key) == Ok(v)
  {
    assert [o][..0] == [];
  }
}
