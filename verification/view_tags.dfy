/** The `startswith` template filter (`libs/templatetags/view.py`). */
module ViewTags {
  import opened Fields

  /** `do_startswith(text, prefix)`: false for anything that is not a
      string, otherwise whether the string begins with `prefix`. */
  function DoStartswith(text: Value, prefix: string): (r: bool)
    ensures r <==> exists rest :: text == StrValue(prefix + rest)
  {
    if text.StrValue? then
      if prefix <= text.s then
        assert text == StrValue(prefix + text.s[|prefix|..]);
        true
      else
        false
    else false
  }

  /** The empty prefix starts every string, and a string starts with each
      of its own prefixes and with nothing longer. */
  lemma StartswithPrefixes(s: string, k: nat)
    ensures DoStartswith(StrValue(s), "")
    ensures k <= |s| ==> DoStartswith(StrValue(s), s[..k])
    ensures !DoStartswith(StrValue(s), s + "?")
  {
    assert "" + s == s;
    if k <= |s| {
      assert s[..k] + s[k..] == s;
    }
  }

  /** Examples: "abc" starts with "a", not with "b", and the
      number 1 starts with nothing. */
  lemma StartswithExamples()
    ensures DoStartswith(StrValue("abc"), "a")
    ensures !DoStartswith(StrValue("abc"), "b")
    ensures !DoStartswith(IntValue(1), "a")
  {
    assert "a" + "bc" == "abc";
    assert !("b" <= "abc") by {
      assert "abc"[0] != 'b';
    }
  }
}
