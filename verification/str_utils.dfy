/** `libs/str.py`: the emoji-aware first-character split and `is_int`.

    A "first character" is the first code point followed by what the
    library treats as its continuation: a ZERO WIDTH JOINER (U+200D)
    together with the code point after it, or an emoji variation selector
    (U+FE00..U+FE0F).  Strings are sequences of Unicode code points. */
module StrUtils {
  import opened Errors
  import opened Text

  const ZeroWidthJoiner: char := '\U{200D}'

  predicate IsVariationSelector(c: char)
  {
    '\U{FE00}' <= c <= '\U{FE0F}'
  }

  /** A code point that the scan absorbs into the first character. */
  predicate Continues(c: char)
  {
    c == ZeroWidthJoiner || IsVariationSelector(c)
  }

  /** The continuation grammar: a run of variation selectors and of
      joiner-plus-code-point pairs.  When `atEnd` holds, the run may also
      finish with a joiner that has nothing after it. */
  predicate Extension(t: string, atEnd: bool)
    decreases |t|
  {
    || t == []
    || (IsVariationSelector(t[0]) && Extension(t[1..], atEnd))
    || (t[0] == ZeroWidthJoiner && ((|t| == 1 && atEnd) || (|t| >= 2 && Extension(t[2..], atEnd))))
  }

  /** `c, rest` split `s` at the end of its first character: `c` is the
      first code point and its continuation, and `rest` does not go on
      with it. */
  predicate SplitsAtFirstChar(s: string, c: string, rest: string)
  {
    && c + rest == s
    && |c| >= 1
    && Extension(c[1..], rest == [])
    && (rest == [] || !Continues(rest[0]))
  }

  // ---------------------------------------------------------------------
  // The scan as the library writes it

  /** Where the scan that starts at `index` stops, or `None` where it
      indexes past the end of `s` (`IndexError`). */
  function ScanAsWritten(s: string, index: nat): (r: Option<nat>)
    ensures r.Some? ==> index <= r.value < |s|
    decreases |s| - index
  {
    if index >= |s| then None
    else if s[index] == ZeroWidthJoiner then
      if index + 1 >= |s| then None else ScanAsWritten(s, index + 2)
    else if IsVariationSelector(s[index]) then ScanAsWritten(s, index + 1)
    else Some(index)
  }

  /** What `_get_first_char(s)` returns as written. */
  function FirstCharAsWritten(s: string): Result<string>
  {
    if s == [] then Err(IndexOutOfRange)
    else
      match ScanAsWritten(s, 1)
      case None => Err(IndexOutOfRange)
      case Some(n) => Ok(s[..n])
  }

  /** `_get_first_char(s)` as written: `s[index]` and `s[index + 1]` are
      read without a bound check, so the scan fails whenever it runs into
      the end of the string. */
  method GetFirstCharAsWritten(s: string) returns (r: Result<string>)
    ensures r == FirstCharAsWritten(s)
  {
    if |s| == 0 {
      return Err(IndexOutOfRange);
    }
    var c := [s[0]];
    var index := 1;
    while index < |s|
      invariant 1 <= index <= |s|
      invariant c == s[..index]
      invariant ScanAsWritten(s, index) == ScanAsWritten(s, 1)
      decreases |s| - index
    {
      var c2 := s[index];
      if c2 == ZeroWidthJoiner {
        if index + 1 >= |s| {
          return Err(IndexOutOfRange);
        }
        c := c + [c2] + [s[index + 1]];
        index := index + 2;
      } else if IsVariationSelector(c2) {
        c := c + [c2];
        index := index + 1;
      } else {
        return Ok(c);
      }
    }
    return Err(IndexOutOfRange);
  }

  /** `split_first(s)` as written. */
  method SplitFirstAsWritten(s: string) returns (r: Result<(string, string)>)
    ensures FirstCharAsWritten(s).Err? ==> r == Err(FirstCharAsWritten(s).error)
    ensures FirstCharAsWritten(s).Ok? ==> r.Ok? && r.value.0 == FirstCharAsWritten(s).value
                                          && r.value.0 + r.value.1 == s
  {
    var first := GetFirstCharAsWritten(s);
    if first.Err? {
      return Err(first.error);
    }
    var again := GetFirstCharAsWritten(s);
    r := Ok((again.value, s[|first.value|..]));
  }

  /** A string that is one character and nothing more cannot be split as
      written, although its split is evident. */
  lemma SingleCharAsWritten(x: char)
    ensures FirstCharAsWritten([x]) == Err(IndexOutOfRange)
    ensures FirstChar([x]) == Ok([x])
  {
    assert [x][..1] == [x];
  }

  // ---------------------------------------------------------------------
  // The scan with the end of the string handled

  /** Where the scan that starts at `index` stops: at the first code point
      that does not continue the character, or at the end of `s`. */
  function Scan(s: string, index: nat): (r: nat)
    ensures r <= |s|
    decreases |s| - index
  {
    if index >= |s| then |s|
    else if s[index] == ZeroWidthJoiner then
      if index + 1 >= |s| then |s| else Scan(s, index + 2)
    else if IsVariationSelector(s[index]) then Scan(s, index + 1)
    else index
  }

  /** The first character of `s`; an empty string has none. */
  function FirstChar(s: string): (r: Result<string>)
    ensures r.Ok? <==> s != []
  {
    if s == [] then Err(IndexOutOfRange) else Ok(s[..Scan(s, 1)])
  }

  /** The scan stops inside the string, at or after where it started, and
      what it passes over is a continuation. */
  lemma {:induction false} ScanExtends(s: string, index: nat)
    requires 1 <= index <= |s|
    ensures index <= Scan(s, index) <= |s|
    ensures Extension(s[index..Scan(s, index)], Scan(s, index) == |s|)
    ensures Scan(s, index) < |s| ==> !Continues(s[Scan(s, index)])
    decreases |s| - index
  {
    var n := Scan(s, index);
    if index < |s| {
      if s[index] == ZeroWidthJoiner {
        if index + 1 < |s| {
          ScanExtends(s, index + 2);
          assert s[index..n][2..] == s[index + 2..n];
        }
      } else if IsVariationSelector(s[index]) {
        ScanExtends(s, index + 1);
        assert s[index..n][1..] == s[index + 1..n];
      }
    }
  }

  /** The first character really is where the string splits. */
  lemma FirstCharSplits(s: string)
    requires s != []
    ensures FirstChar(s).Ok?
    ensures SplitsAtFirstChar(s, FirstChar(s).value, s[|FirstChar(s).value|..])
  {
    ScanExtends(s, 1);
    var n := Scan(s, 1);
    assert s[..n][1..] == s[1..n];
    assert s[..n] + s[n..] == s;
  }

  /** A continuation followed by something that does not continue it is
      determined by the text: two such readings agree. */
  lemma {:induction false} ExtensionUnique(t: string, rest: string, t': string, rest': string)
    requires t + rest == t' + rest'
    requires Extension(t, rest == []) && (rest == [] || !Continues(rest[0]))
    requires Extension(t', rest' == []) && (rest' == [] || !Continues(rest'[0]))
    ensures t == t'
    decreases |t|
  {
    var u := t + rest;
    assert t != [] ==> u[0] == t[0];
    assert t' != [] ==> u[0] == t'[0];
    assert t == [] && rest != [] ==> u[0] == rest[0];
    assert t' == [] && rest' != [] ==> u[0] == rest'[0];
    if t == [] || t' == [] {
    } else if IsVariationSelector(t[0]) {
      assert t[1..] + rest == t'[1..] + rest' by {
        assert u[1..] == t[1..] + rest;
        assert u[1..] == t'[1..] + rest';
      }
      ExtensionUnique(t[1..], rest, t'[1..], rest');
    } else if |t| == 1 || |t'| == 1 {
      assert t[0] == ZeroWidthJoiner && t'[0] == ZeroWidthJoiner;
      assert |t| == 1 ==> rest == [];
      assert |t'| == 1 ==> rest' == [];
    } else {
      assert t[2..] + rest == t'[2..] + rest' by {
        assert u[2..] == t[2..] + rest;
        assert u[2..] == t'[2..] + rest';
      }
      ExtensionUnique(t[2..], rest, t'[2..], rest');
      assert t[1] == u[1] == t'[1];
      assert t == t[..2] + t[2..] && t' == t'[..2] + t'[2..];
    }
  }

  /** The split of a string at its first character is unique. */
  lemma SplitUnique(s: string, c: string, rest: string, c': string, rest': string)
    requires SplitsAtFirstChar(s, c, rest) && SplitsAtFirstChar(s, c', rest')
    ensures c == c' && rest == rest'
  {
    assert c[0] == s[0] == c'[0];
    assert c[1..] + rest == s[1..] == c'[1..] + rest' by {
      assert c == [c[0]] + c[1..];
      assert c' == [c'[0]] + c'[1..];
    }
    ExtensionUnique(c[1..], rest, c'[1..], rest');
    assert c == [c[0]] + c[1..];
    assert c' == [c'[0]] + c'[1..];
    assert rest == s[|c|..] && rest' == s[|c'|..];
  }

  /** `_get_first_char(s)` with the end of the string handled: the scan
      stops there, keeping a trailing joiner. */
  method GetFirstChar(s: string) returns (r: Result<string>)
    ensures r == FirstChar(s)
  {
    if |s| == 0 {
      return Err(IndexOutOfRange);
    }
    var c := [s[0]];
    var index := 1;
    while index < |s|
      invariant 1 <= index <= |s|
      invariant c == s[..index]
      invariant Scan(s, index) == Scan(s, 1)
      decreases |s| - index
    {
      var c2 := s[index];
      if c2 == ZeroWidthJoiner {
        if index + 1 >= |s| {
          assert c + [c2] == s;
          assert Scan(s, index) == |s| && s[..|s|] == s;
          return Ok(c + [c2]);
        }
        c := c + [c2] + [s[index + 1]];
        index := index + 2;
      } else if IsVariationSelector(c2) {
        c := c + [c2];
        index := index + 1;
      } else {
        return Ok(c);
      }
    }
    return Ok(c);
  }

  /** `split_first(s)`: the first character and the text after it; only
      an empty string fails. */
  method SplitFirst(s: string) returns (r: Result<(string, string)>)
    ensures r.Err? <==> s == []
    ensures r.Err? ==> r.error == IndexOutOfRange
    ensures r.Ok? ==> SplitsAtFirstChar(s, r.value.0, r.value.1)
  {
    var first := GetFirstChar(s);
    if first.Err? {
      return Err(first.error);
    }
    FirstCharSplits(s);
    r := Ok((first.value, s[|first.value|..]));
  }

  /** The two scans agree wherever the written one does not fail, and it
      fails exactly when the first character runs to the end of the
      string. */
  lemma {:induction false} ScanAgrees(s: string, index: nat)
    ensures ScanAsWritten(s, index).None? <==> Scan(s, index) == |s|
    ensures ScanAsWritten(s, index).Some? ==> ScanAsWritten(s, index).value == Scan(s, index)
    decreases |s| - index
  {
    if index < |s| {
      if s[index] == ZeroWidthJoiner {
        if index + 1 < |s| {
          ScanAgrees(s, index + 2);
        }
      } else if IsVariationSelector(s[index]) {
        ScanAgrees(s, index + 1);
      }
    }
  }

  lemma FirstCharAsWrittenFails(s: string)
    ensures FirstCharAsWritten(s).Err? <==> s == [] || FirstChar(s).value == s
    ensures FirstCharAsWritten(s).Ok? ==> FirstCharAsWritten(s) == FirstChar(s)
  {
    if s != [] {
      ScanAgrees(s, 1);
      FirstCharSplits(s);
    }
  }

  /** The library's own examples: a squared kanji emoji, a runner with a
      joiner, a male sign and a selector, and plain kana. */
  lemma SplitFirstExamples()
    ensures FirstChar("\U{1F233}未着手") == Ok("\U{1F233}")
    ensures FirstChar("\U{1F3C3}\U{200D}\U{2642}\U{FE0F}習慣") == Ok("\U{1F3C3}\U{200D}\U{2642}\U{FE0F}")
    ensures FirstChar("あいう") == Ok("あ")
  {
    var s1 := "\U{1F233}未着手";
    assert Scan(s1, 1) == 1 by { assert s1[1] == '未'; }
    assert s1[..1] == "\U{1F233}";
    var s2 := "\U{1F3C3}\U{200D}\U{2642}\U{FE0F}習慣";
    assert Scan(s2, 1) == 4 by {
      assert s2[1] == ZeroWidthJoiner && s2[3] == '\U{FE0F}' && s2[4] == '習';
      assert Scan(s2, 4) == 4;
      assert Scan(s2, 3) == 4;
    }
    assert s2[..4] == "\U{1F3C3}\U{200D}\U{2642}\U{FE0F}";
    var s3 := "あいう";
    assert Scan(s3, 1) == 1 by { assert s3[1] == 'い'; }
    assert s3[..1] == "あ";
  }

  // ---------------------------------------------------------------------
  // is_int

  predicate IsSpace(c: char)
  {
    c == ' ' || c == '\t' || c == '\n' || c == '\r' || c == '\U{000B}' || c == '\U{000C}'
  }

  predicate IsDigit(c: char)
  {
    '0' <= c <= '9'
  }

  /** `s` without leading white space. */
  function StripLeft(s: string): (r: string)
    ensures |r| <= |s|
    ensures r == [] || !IsSpace(r[0])
  {
    if s != [] && IsSpace(s[0]) then StripLeft(s[1..]) else s
  }

  /** `s` without trailing white space. */
  function StripRight(s: string): (r: string)
    ensures |r| <= |s|
    ensures r == [] || !IsSpace(r[|r| - 1])
  {
    if s != [] && IsSpace(s[|s| - 1]) then StripRight(s[..|s| - 1]) else s
  }

  /** Decimal digits, with single underscores allowed between them. */
  predicate DigitRun(t: string)
    decreases |t|
  {
    && |t| >= 1
    && IsDigit(t[0])
    && (|t| == 1 || DigitRun(t[1..]) || (t[1] == '_' && DigitRun(t[2..])))
  }

  /** An optional sign, then digits. */
  predicate SignedDigits(t: string)
  {
    t != [] && (if t[0] == '+' || t[0] == '-' then DigitRun(t[1..]) else DigitRun(t))
  }

  predicate AllSpace(s: string)
  {
    forall i :: 0 <= i < |s| ==> IsSpace(s[i])
  }

  /** The literal `int()` reads: white space, a signed digit run, white
      space. */
  predicate IntLiteral(s: string)
  {
    exists i, j :: 0 <= i <= j <= |s| && AllSpace(s[..i]) && AllSpace(s[j..]) && SignedDigits(s[i..j])
  }

  /** `is_int(s)`: `int(s)` succeeds.  Computed by stripping the white
      space and reading what is left. */
  predicate IsInt(s: string)
    ensures IsInt(s) <==> IntLiteral(s)
  {
    StripGrammar(s);
    SignedDigits(StripRight(StripLeft(s)))
  }

  lemma {:induction false} StripLeftSpaces(s: string)
    ensures AllSpace(s[..|s| - |StripLeft(s)|])
  {
    if s != [] && IsSpace(s[0]) {
      StripLeftSpaces(s[1..]);
      assert s[..|s| - |StripLeft(s)|] == [s[0]] + s[1..][..|s[1..]| - |StripLeft(s[1..])|];
    }
  }

  lemma {:induction false} StripRightSpaces(s: string)
    ensures |StripRight(s)| <= |s| && AllSpace(s[|StripRight(s)|..])
  {
    if s != [] && IsSpace(s[|s| - 1]) {
      var init := s[..|s| - 1];
      StripRightSpaces(init);
      StripRightPrefix(init);
      assert s[|StripRight(s)|..] == init[|StripRight(init)|..] + [s[|s| - 1]];
    }
  }

  lemma {:induction false} StripLeftOf(a: string, rest: string)
    requires AllSpace(a) && (rest == [] || !IsSpace(rest[0]))
    ensures StripLeft(a + rest) == rest
  {
    if a != [] {
      assert (a + rest)[1..] == a[1..] + rest;
      StripLeftOf(a[1..], rest);
    } else {
      assert a + rest == rest;
    }
  }

  lemma {:induction false} StripRightOf(rest: string, b: string)
    requires AllSpace(b) && (rest == [] || !IsSpace(rest[|rest| - 1]))
    ensures StripRight(rest + b) == rest
  {
    if b != [] {
      assert (rest + b)[..|rest + b| - 1] == rest + b[..|b| - 1];
      StripRightOf(rest, b[..|b| - 1]);
    } else {
      assert rest + b == rest;
    }
  }

  lemma {:induction false} DigitRunLast(t: string)
    requires DigitRun(t)
    ensures IsDigit(t[|t| - 1])
    decreases |t|
  {
    if |t| > 1 {
      if DigitRun(t[1..]) {
        DigitRunLast(t[1..]);
        assert t[|t| - 1] == t[1..][|t[1..]| - 1];
      } else {
        DigitRunLast(t[2..]);
        assert t[|t| - 1] == t[2..][|t[2..]| - 1];
      }
    }
  }

  /** Signed digits neither start nor end with white space. */
  lemma SignedDigitsEnds(t: string)
    requires SignedDigits(t)
    ensures !IsSpace(t[0]) && !IsSpace(t[|t| - 1])
  {
    if t[0] == '+' || t[0] == '-' {
      DigitRunLast(t[1..]);
      assert t[|t| - 1] == t[1..][|t[1..]| - 1];
    } else {
      DigitRunLast(t);
    }
  }

  /** Stripping finds the literal's digits exactly when the grammar does. */
  lemma StripGrammar(s: string)
    ensures SignedDigits(StripRight(StripLeft(s))) <==> IntLiteral(s)
  {
    if SignedDigits(StripRight(StripLeft(s))) {
      StrippedIsLiteral(s);
    }
    if IntLiteral(s) {
      var i, j :| 0 <= i <= j <= |s| && AllSpace(s[..i]) && AllSpace(s[j..]) && SignedDigits(s[i..j]);
      LiteralStrips(s, i, j);
    }
  }

  /** What stripping leaves, when it is signed digits, is a literal. */
  lemma StrippedIsLiteral(s: string)
    requires SignedDigits(StripRight(StripLeft(s)))
    ensures IntLiteral(s)
  {
    var l := StripLeft(s);
    var t := StripRight(l);
    var i := |s| - |l|;
    StrippedWithin(s);
    StripLeftSuffix(s);
    StripLeftSpaces(s);
    StripRightSpaces(l);
    StripRightPrefix(l);
    var j := i + |t|;
    assert s[i..j] == t;
    assert s[j..] == l[|t|..];
    assert AllSpace(s[..i]) && AllSpace(s[j..]) && SignedDigits(s[i..j]);
  }

  /** Stripping a literal leaves exactly its signed digits. */
  lemma LiteralStrips(s: string, i: int, j: int)
    requires 0 <= i <= j <= |s| && AllSpace(s[..i]) && AllSpace(s[j..]) && SignedDigits(s[i..j])
    ensures StripRight(StripLeft(s)) == s[i..j]
  {
    var m := s[i..j];
    SignedDigitsEnds(m);
    assert s == s[..i] + (m + s[j..]);
    StripLeftOf(s[..i], m + s[j..]);
    StripRightOf(m, s[j..]);
  }

  /** The digits of `t` read in base 10; the underscores between them are
      skipped. */
  function DigitsValue(t: string): nat
  {
    if t == [] then 0
    else
      var last := t[|t| - 1];
      if IsDigit(last) then 10 * DigitsValue(t[..|t| - 1]) + (last as int - '0' as int)
      else DigitsValue(t[..|t| - 1])
  }

  /** `int(s)` for a string `is_int` accepts. */
  function IntValue(s: string): int
    requires IsInt(s)
  {
    var t := StripRight(StripLeft(s));
    if t[0] == '-' then 0 - DigitsValue(t[1..]) as int
    else if t[0] == '+' then DigitsValue(t[1..])
    else DigitsValue(t)
  }

  lemma {:induction false} DigitsValueOfDecimal(n: nat)
    ensures DigitsValue(NatToDecimal(n)) == n
  {
    var d := NatToDecimal(n);
    if n >= 10 {
      DigitsValueOfDecimal(n / 10);
      assert d[..|d| - 1] == NatToDecimal(n / 10);
    }
    assert d[|d| - 1] == Digit(n % 10);
    assert Digit(n % 10) as int - '0' as int == n % 10;
  }

  /** `int(str(n)) == n`: reading back a numeral Python wrote gives its
      value. */
  lemma IntValueOfDecimal(n: nat)
    ensures IsInt(NatToDecimal(n)) && IntValue(NatToDecimal(n)) == n
  {
    var d := NatToDecimal(n);
    AllDigitsRun(d);
    assert d[0] != '-' && d[0] != '+';
    assert SignedDigits(d);
    assert StripRight(StripLeft(d)) == d by {
      assert [] + d == d && d + [] == d;
      StripLeftOf([], d);
      StripRightOf(d, []);
    }
    assert IsInt(d);
    assert IntValue(d) == DigitsValue(d);
    DigitsValueOfDecimal(n);
  }

  /** `int(str(-n)) == -n`. */
  lemma IntValueOfNegative(n: nat)
    ensures IsInt("-" + NatToDecimal(n)) && IntValue("-" + NatToDecimal(n)) == 0 - n
  {
    var d := NatToDecimal(n);
    DecimalIsInt(n);
    NegativeStripped(d);
    NegativeValue("-" + d);
    assert ("-" + d)[1..] == d;
    DigitsValueOfDecimal(n);
  }

  /** A minus sign before text that ends in a non-space strips to itself. */
  lemma NegativeStripped(d: string)
    requires d != [] && !IsSpace(d[|d| - 1])
    ensures StripRight(StripLeft("-" + d)) == "-" + d
  {
    var m := "-" + d;
    assert [] + m == m && m + [] == m;
    StripLeftOf([], m);
    assert m[|m| - 1] == d[|d| - 1];
    StripRightOf(m, []);
  }

  /** The value of an already stripped negative literal. */
  lemma NegativeValue(m: string)
    requires IsInt(m) && StripRight(StripLeft(m)) == m && m[0] == '-'
    ensures IntValue(m) == 0 - DigitsValue(m[1..]) as int
  {
  }

  /** Surrounding white space, a plus sign and underscores between digits
      do not change the value: `int(" +1_2\n") == 12`. */
  lemma IntValuePadded()
    ensures IsInt(" +1_2\n") && IntValue(" +1_2\n") == 12
  {
    var s := " +1_2\n";
    assert StripLeft(s) == "+1_2\n" by { assert s[1..] == "+1_2\n"; }
    var l := "+1_2\n";
    assert StripRight(l) == "+1_2" by { assert l[..|l| - 1] == "+1_2"; }
    var t := "+1_2";
    assert t[1..] == "1_2";
    assert DigitRun("2");
    assert "1_2"[2..] == "2";
    assert DigitRun("1_2");
    assert "1_2"[..2] == "1_";
    assert "1_"[..1] == "1";
    assert ""[..0] == "" && "1"[..0] == "";
    assert DigitsValue("1") == 1;
    assert DigitsValue("1_") == 1;
  }

  /** An integer has a digit. */
  lemma IsIntHasDigit(s: string)
    requires IsInt(s)
    ensures exists i :: 0 <= i < |s| && IsDigit(s[i])
  {
    var l := StripLeft(s);
    var t := StripRight(l);
    StrippedWithin(s);
    var k := if t[0] == '+' || t[0] == '-' then 1 else 0;
    assert IsDigit(t[k]);
    assert t[k] == s[|s| - |l| + k];
  }

  lemma {:induction false} StripLeftSuffix(s: string)
    ensures StripLeft(s) == s[|s| - |StripLeft(s)|..]
  {
    if s != [] && IsSpace(s[0]) {
      StripLeftSuffix(s[1..]);
    }
  }

  lemma {:induction false} StripRightPrefix(s: string)
    ensures StripRight(s) == s[..|StripRight(s)|]
  {
    if s != [] && IsSpace(s[|s| - 1]) {
      StripRightPrefix(s[..|s| - 1]);
    }
  }

  /** The stripped text is a slice of the original. */
  lemma StrippedWithin(s: string)
    ensures var l := StripLeft(s); var t := StripRight(l);
      t == s[|s| - |l|..|s| - |l| + |t|]
  {
    StripLeftSuffix(s);
    StripRightPrefix(StripLeft(s));
  }

  lemma {:induction false} AllDigitsRun(t: string)
    requires |t| >= 1
    requires forall i :: 0 <= i < |t| ==> IsDigit(t[i])
    ensures DigitRun(t)
  {
    if |t| > 1 {
      AllDigitsRun(t[1..]);
    }
  }

  /** `str(n)` and `str(-n)` are integers for every natural `n`. */
  lemma DecimalIsInt(n: nat)
    ensures IsInt(NatToDecimal(n))
    ensures IsInt("-" + NatToDecimal(n))
  {
    var d := NatToDecimal(n);
    AllDigitsRun(d);
    assert StripLeft(d) == d;
    assert StripRight(d) == d;
    var m := "-" + d;
    assert m[1..] == d;
    assert StripLeft(m) == m;
    assert StripRight(m) == m by {
      assert m[|m| - 1] == d[|d| - 1];
    }
  }

  /** The library's examples: "1" and "-1" are integers, "a" is not. */
  lemma IsIntExamples()
    ensures IsInt("1") && IsInt("-1") && !IsInt("a")
  {
    DecimalIsInt(1);
    assert NatToDecimal(1) == "1";
    assert !IsDigit('a');
  }
}
