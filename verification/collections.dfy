/** `libs/collections.py`: coercing an argument to a list, and finding the
    objects a list holds more than once. */
module Collections {
  import opened Seqs

  /** The argument of `as_list`: a list, a tuple, or any other value. */
  datatype Arg<T> = ListArg(items: seq<T>) | TupleArg(items: seq<T>) | Other(value: T)

  /** `as_list(x)`: the elements of a list or a tuple, in order; anything
      else as a one-element list. */
  function AsList<T>(x: Arg<T>): (r: seq<T>)
    ensures x.ListArg? || x.TupleArg? ==> r == x.items
    ensures x.Other? ==> r == [x.value]
  {
    match x
    case ListArg(items) => items
    case TupleArg(items) => items
    case Other(v) => [v]
  }

  /** A tuple and a list with the same elements become the same list, and
      coercing the result again changes nothing. */
  lemma AsListStable<T>(x: Arg<T>, s: seq<T>)
    ensures AsList(TupleArg(s)) == AsList(ListArg(s))
    ensures AsList(ListArg(AsList(x))) == AsList(x)
    ensures |AsList(Other(x))| == 1
  {
  }

  /** `duplicated_objects(object_list)`: one entry for each distinct object
      that occurs more than once, in the order of set iteration. */
  method DuplicatedObjects<T(==)>(objectList: seq<T>) returns (r: seq<T>)
    ensures Distinct(r)
    ensures forall x :: x in r <==> multiset(objectList)[x] > 1
  {
    var candidates := Enumerate(set x | x in objectList);
    r := [];
    for i := 0 to |candidates|
      invariant Distinct(r)
      invariant forall x :: x in r <==> x in candidates[..i] && multiset(objectList)[x] > 1
    {
      assert candidates[..i + 1] == candidates[..i] + [candidates[i]];
      if multiset(objectList)[candidates[i]] > 1 {
        assert candidates[i] !in candidates[..i];
        r := r + [candidates[i]];
      }
    }
    assert candidates[..|candidates|] == candidates;
  }

  /** Distinct objects each counted at least twice in `m` take up at
      least twice their number of places in it. */
  lemma {:induction false} TwiceEach<T>(r: seq<T>, m: multiset<T>)
    requires Distinct(r)
    requires forall x :: x in r ==> m[x] > 1
    ensures 2 * |r| <= |m|
  {
    if r != [] {
      var x := r[|r| - 1];
      var pair := multiset{x, x};
      var m' := m - pair;
      assert m' + pair == m;
      forall y | y in r[..|r| - 1]
        ensures m'[y] > 1
      {
        assert y != x;
      }
      TwiceEach(r[..|r| - 1], m');
    }
  }

  /** At most half of a list's length are duplicated objects. */
  lemma DuplicatesAtMostHalf<T>(objectList: seq<T>, r: seq<T>)
    requires Distinct(r)
    requires forall x :: x in r <==> multiset(objectList)[x] > 1
    ensures 2 * |r| <= |objectList|
  {
    TwiceEach(r, multiset(objectList));
  }
}
