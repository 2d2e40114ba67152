/** The Python string operations the repository relies on. */
module Text {

  /** `str.isspace`, for the characters `str.strip` removes. */
  predicate IsSpace(c: char) {
    || '\t' <= c <= '\r' || '\U{1C}' <= c <= ' ' || c == '\U{85}' || c == '\U{A0}' || c == '\U{1680}'
    || '\U{2000}' <= c <= '\U{200A}' || c == '\U{2028}' || c == '\U{2029}' || c == '\U{202F}'
    || c == '\U{205F}' || c == '\U{3000}'
  }

  function LStrip(s: string): (r: string)
    ensures |r| <= |s| && (r != [] ==> !IsSpace(r[0]) && r[|r| - 1] == s[|s| - 1])
    ensures s != [] && !IsSpace(s[|s| - 1]) ==> r != []
  {
    if s != [] && IsSpace(s[0]) then LStrip(s[1..]) else s
  }

  function RStrip(s: string): (r: string)
    ensures |r| <= |s| && (r != [] ==> !IsSpace(r[|r| - 1]) && r[0] == s[0])
    ensures s != [] && !IsSpace(s[0]) ==> r != []
  {
    if s != [] && IsSpace(s[|s| - 1]) then RStrip(s[..|s| - 1]) else s
  }

  function Strip(s: string): (r: string)
    ensures r != [] ==> !IsSpace(r[0]) && !IsSpace(r[|r| - 1])
    ensures |r| <= |s|
  {
    RStrip(LStrip(s))
  }

  /** Text without blank ends is its own strip. */
  lemma StripTight(s: string)
    requires s != [] && !IsSpace(s[0]) && !IsSpace(s[|s| - 1])
    ensures Strip(s) == s
  {
  }

  predicate Blanks(s: string) { forall c :: c in s ==> IsSpace(c) }

  /** Stripping takes blanks off both ends, all of them, and nothing else. */
  lemma {:induction false} StripTakesBlanks(s: string) returns (before: string, after: string)
    ensures s == before + Strip(s) + after && Blanks(before) && Blanks(after)
    ensures Strip(s) != "" ==> !IsSpace(Strip(s)[0]) && !IsSpace(Strip(s)[|Strip(s)| - 1])
  {
    before := LStripTakesBlanks(s);
    after := RStripTakesBlanks(LStrip(s));
    Reassociate(before, Strip(s), after);
  }

  lemma Reassociate(a: string, b: string, c: string)
    ensures a + (b + c) == a + b + c
  {
  }

  lemma {:induction false} LStripTakesBlanks(s: string) returns (before: string)
    ensures s == before + LStrip(s) && Blanks(before)
  {
    if s != "" && IsSpace(s[0]) {
      var more := LStripTakesBlanks(s[1..]);
      before := [s[0]] + more;
      assert s == [s[0]] + s[1..];
    } else {
      before := "";
    }
  }

  lemma {:induction false} RStripTakesBlanks(s: string) returns (after: string)
    ensures s == RStrip(s) + after && Blanks(after)
    decreases |s|
  {
    if s != "" && IsSpace(s[|s| - 1]) {
      var more := RStripTakesBlanks(s[..|s| - 1]);
      after := more + [s[|s| - 1]];
      assert s == s[..|s| - 1] + [s[|s| - 1]];
    } else {
      after := "";
    }
  }

  predicate StartsWith(s: string, prefix: string) { prefix <= s }
}
