/** The few string operations of the original that the models compute with. */
module Text {

  predicate IsSpace(c: char) {
    c == ' ' || c == '\t' || c == '\n' || c == '\r'
  }

  /** str.strip() */
  function Strip(s: string): string {
    if s != "" && IsSpace(s[0]) then Strip(s[1..])
    else if s != "" && IsSpace(s[|s| - 1]) then Strip(s[..|s| - 1])
    else s
  }

  lemma {:induction false} StripTwice(s: string)
    ensures Strip(Strip(s)) == Strip(s)
  {
    if s != "" && IsSpace(s[0]) {
      StripTwice(s[1..]);
    } else if s != "" && IsSpace(s[|s| - 1]) {
      StripTwice(s[..|s| - 1]);
    }
  }

  ghost predicate AllBlank(s: string) {
    forall k :: 0 <= k < |s| ==> s[k] == ' ' || s[k] == '\t' || s[k] == '\n' || s[k] == '\r'
  }

  /** s without its blank ends, which are before and after. */
  ghost predicate StripsTo(s: string, before: string, text: string, after: string) {
    && s == before + text + after && AllBlank(before) && AllBlank(after)
    && (text != "" ==> !AllBlank(text[..1]) && !AllBlank(text[|text| - 1..]))
  }

  lemma {:induction false} StripStrips(s: string)
    ensures exists before, after :: StripsTo(s, before, Strip(s), after)
  {
    var text := Strip(s);
    if s != "" && IsSpace(s[0]) {
      StripStrips(s[1..]);
      var before, after :| StripsTo(s[1..], before, text, after);
      assert s == [s[0]] + s[1..];
      assert StripsTo(s, [s[0]] + before, text, after);
    } else if s != "" && IsSpace(s[|s| - 1]) {
      StripStrips(s[..|s| - 1]);
      var before, after :| StripsTo(s[..|s| - 1], before, text, after);
      assert s == s[..|s| - 1] + [s[|s| - 1]];
      assert StripsTo(s, before, text, after + [s[|s| - 1]]);
    } else {
      if s != "" { assert s[..1][0] == s[0] && s[|s| - 1..][0] == s[|s| - 1]; }
      assert StripsTo(s, "", s, "");
    }
  }
}
