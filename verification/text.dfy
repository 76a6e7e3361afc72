/** Python string operations the library relies on (`str.split` and
    `str.join` with a one-character separator, `str.replace` of one
    character, `str.removeprefix`, `str.endswith`, `str(int)`), with the
    round trips between splitting and joining. */
module Text {

  /** `s.split(d)`: the pieces between occurrences of `d`, always at least one. */
  function Split(s: string, d: char): (r: seq<string>)
    ensures |r| >= 1
    ensures forall i :: 0 <= i < |r| ==> d !in r[i]
  {
    if s == [] then [""]
    else
      var rest := Split(s[1..], d);
      if s[0] == d then [""] + rest else [[s[0]] + rest[0]] + rest[1..]
  }

  /** `d.join(parts)`. */
  function Join(parts: seq<string>, d: char): string
  {
    if |parts| == 0 then ""
    else if |parts| == 1 then parts[0]
    else parts[0] + [d] + Join(parts[1..], d)
  }

  /** Joining the pieces of a split gives back the string. */
  lemma {:induction false} JoinSplit(s: string, d: char)
    ensures Join(Split(s, d), d) == s
  {
    if s != [] {
      var rest := Split(s[1..], d);
      JoinSplit(s[1..], d);
      if s[0] == d {
        assert Split(s, d) == [""] + rest;
        assert ([""] + rest)[1..] == rest;
      } else {
        var r := Split(s, d);
        assert r == [[s[0]] + rest[0]] + rest[1..];
        if |rest| == 1 {
          assert r == [[s[0]] + rest[0]];
        } else {
          assert r[1..] == rest[1..];
          assert Join(r, d) == [s[0]] + rest[0] + [d] + Join(rest[1..], d);
          assert Join(rest, d) == rest[0] + [d] + Join(rest[1..], d);
        }
        assert Join(r, d) == [s[0]] + Join(rest, d);
        assert s == [s[0]] + s[1..];
      }
    }
  }

  /** A string free of the separator splits into itself followed by the
      pieces of whatever comes after the next separator. */
  lemma {:induction false} SplitAfterPiece(p: string, rest: string, d: char)
    requires d !in p
    ensures Split(p + [d] + rest, d) == [p] + Split(rest, d)
  {
    if p == [] {
      assert p + [d] + rest == [d] + rest;
      assert ([d] + rest)[1..] == rest;
    } else {
      var s := p + [d] + rest;
      assert s[1..] == p[1..] + [d] + rest;
      SplitAfterPiece(p[1..], rest, d);
      assert s[0] == p[0] && p[0] != d;
      assert [p[0]] + p[1..] == p;
    }
  }

  /** A string free of the separator splits into itself alone. */
  lemma {:induction false} SplitOfPiece(p: string, d: char)
    requires d !in p
    ensures Split(p, d) == [p]
  {
    if p != [] {
      SplitOfPiece(p[1..], d);
      assert [p[0]] + p[1..] == p;
    }
  }

  /** Splitting a join of separator-free pieces gives back the pieces. */
  lemma {:induction false} SplitJoin(parts: seq<string>, d: char)
    requires |parts| >= 1
    requires forall i :: 0 <= i < |parts| ==> d !in parts[i]
    ensures Split(Join(parts, d), d) == parts
  {
    if |parts| == 1 {
      SplitOfPiece(parts[0], d);
    } else {
      SplitJoin(parts[1..], d);
      SplitAfterPiece(parts[0], Join(parts[1..], d), d);
      assert [parts[0]] + parts[1..] == parts;
    }
  }

  /** Joining one more piece appends a separator and the piece. */
  lemma {:induction false} JoinSnoc(parts: seq<string>, p: string, d: char)
    requires |parts| >= 1
    ensures Join(parts + [p], d) == Join(parts, d) + [d] + p
  {
    if |parts| > 1 {
      assert (parts + [p])[1..] == parts[1..] + [p];
      JoinSnoc(parts[1..], p, d);
    }
  }

  /** Joining the first `k` parts gives a prefix of joining them all. */
  lemma {:induction false} JoinPrefix(parts: seq<string>, k: nat, d: char)
    requires k <= |parts|
    ensures Join(parts[..k], d) <= Join(parts, d)
    decreases |parts| - k
  {
    if k == |parts| {
      assert parts[..k] == parts;
    } else {
      JoinPrefix(parts, k + 1, d);
      var a := Join(parts[..k], d);
      var b := Join(parts[..k + 1], d);
      var c := Join(parts, d);
      if k > 0 {
        assert parts[..k + 1] == parts[..k] + [parts[k]];
        JoinSnoc(parts[..k], parts[k], d);
        assert b == a + [d] + parts[k];
        assert a <= b;
      }
      assert b == c[..|b|];
      assert a == b[..|a|];
      assert a == c[..|a|];
    }
  }

  /** Splitting a string extended by a separator and a separator-free piece
      gives the pieces of the string followed by that piece. */
  lemma SplitSnoc(s: string, p: string, d: char)
    requires d !in p
    ensures Split(s + [d] + p, d) == Split(s, d) + [p]
  {
    var parts := Split(s, d);
    JoinSplit(s, d);
    JoinSnoc(parts, p, d);
    SplitJoin(parts + [p], d);
  }

  /** `s.replace(a, b)` for single characters. */
  function ReplaceChar(s: string, a: char, b: char): (r: string)
    ensures |r| == |s|
    ensures forall i :: 0 <= i < |s| ==> r[i] == (if s[i] == a then b else s[i])
  {
    if s == [] then [] else [if s[0] == a then b else s[0]] + ReplaceChar(s[1..], a, b)
  }

  /** `s.removeprefix(p)`. */
  function RemovePrefix(s: string, p: string): (r: string)
    ensures p <= s ==> p + r == s
    ensures !(p <= s) ==> r == s
  {
    if p <= s then s[|p|..] else s
  }

  /** `s.endswith(suffix)`. */
  predicate EndsWith(s: string, suffix: string)
  {
    |suffix| <= |s| && s[|s| - |suffix|..] == suffix
  }

  /** The decimal digit for `d`. */
  function Digit(d: nat): char
    requires d < 10
  {
    "0123456789"[d]
  }

  /** `str(n)` for a non-negative integer. */
  function NatToDecimal(n: nat): (r: string)
    ensures |r| >= 1
    ensures forall i :: 0 <= i < |r| ==> '0' <= r[i] <= '9'
  {
    if n < 10 then [Digit(n)] else NatToDecimal(n / 10) + [Digit(n % 10)]
  }

  /** `s.partition(c)`: the text before the first `c`, whether there is
      one, and the text after it. */
  function Partition(s: string, c: char): (r: (string, bool, string))
    ensures !r.1 ==> c !in s && r.0 == s && r.2 == ""
    ensures r.1 ==> s == r.0 + [c] + r.2 && c !in r.0
  {
    if s == [] then ("", false, "")
    else if s[0] == c then ("", true, s[1..])
    else
      var t := Partition(s[1..], c);
      assert t.1 ==> s == [s[0]] + t.0 + [c] + t.2;
      ([s[0]] + t.0, t.1, t.2)
  }

  /** A string made of a separator-free head, the separator and a tail
      partitions into exactly those parts. */
  lemma PartitionOf(head: string, c: char, tail: string)
    requires c !in head
    ensures Partition(head + [c] + tail, c) == (head, true, tail)
  {
    var s := head + [c] + tail;
    var r := Partition(s, c);
    assert s[|head|] == c;
    assert r.1;
    assert s[|r.0|] == c;
    assert forall k :: 0 <= k < |head| ==> s[k] == head[k] && s[k] != c;
    assert forall k :: 0 <= k < |r.0| ==> s[k] == r.0[k] && s[k] != c;
    assert |r.0| == |head|;
    assert r.0 == s[..|r.0|] && head == s[..|head|];
    assert r.2 == s[|r.0| + 1..] && tail == s[|head| + 1..];
  }

  /** A character absent from a string is absent from every piece of its split. */
  lemma {:induction false} SplitKeepsOut(s: string, d: char, c: char)
    requires c !in s
    ensures forall i :: 0 <= i < |Split(s, d)| ==> c !in Split(s, d)[i]
  {
    if s != [] {
      assert c !in s[1..] by {
        assert forall k :: 0 <= k < |s[1..]| ==> s[1..][k] == s[k + 1];
      }
      SplitKeepsOut(s[1..], d, c);
    }
  }

  /** A character absent from the pieces and distinct from the separator
      is absent from their join. */
  lemma {:induction false} JoinKeepsOut(parts: seq<string>, d: char, c: char)
    requires c != d
    requires forall i :: 0 <= i < |parts| ==> c !in parts[i]
    ensures c !in Join(parts, d)
  {
    if |parts| > 1 {
      JoinKeepsOut(parts[1..], d, c);
    }
  }
}
