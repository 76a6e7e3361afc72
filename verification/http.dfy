/** `libs/http.py`: whether a search query carries any condition. */
module Http {
  import QS = QueryStrings

  /** Every value of every key is the empty string. */
  predicate AllBlank(data: QS.Query)
  {
    forall i, j :: 0 <= i < |data| && 0 <= j < |data[i].1| ==> data[i].1[j] == ""
  }

  /** `is_empty_query(data)`: scans each key's values and stops at the
      first non-empty one. */
  method IsEmptyQuery(data: QS.Query) returns (b: bool)
    ensures b <==> AllBlank(data)
    ensures data == [] ==> b
  {
    for i := 0 to |data|
      invariant forall k, j :: 0 <= k < i && 0 <= j < |data[k].1| ==> data[k].1[j] == ""
    {
      var values := data[i].1;
      for j := 0 to |values|
        invariant forall m :: 0 <= m < j ==> values[m] == ""
      {
        if values[j] != "" {
          return false;
        }
      }
    }
    return true;
  }

  /** Only the values matter: renaming the keys does not change the
      answer. */
  lemma KeysIrrelevant(data: QS.Query, names: seq<string>)
    requires |names| == |data|
    ensures var renamed := seq(|data|, i requires 0 <= i < |data| => (names[i], data[i].1));
      AllBlank(renamed) <==> AllBlank(data)
  {
    var renamed := seq(|data|, i requires 0 <= i < |data| => (names[i], data[i].1));
    assert forall i :: 0 <= i < |data| ==> renamed[i].1 == data[i].1;
  }

  /** One non-empty value anywhere makes the query non-empty, whatever the
      rest holds. */
  lemma OneValueSuffices(before: QS.Query, key: string, values: seq<string>, v: string, after: QS.Query)
    requires v != ""
    ensures !AllBlank(before + [(key, values + [v])] + after)
  {
    var data := before + [(key, values + [v])] + after;
    assert data[|before|].1[|values|] == v;
  }
}
