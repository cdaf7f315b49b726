/** The string tests the source makes everywhere. */
module Texts {

  predicate StartsWith(s: string, prefix: string) {
    |prefix| <= |s| && s[..|prefix|] == prefix
  }

  predicate EndsWith(s: string, suffix: string) {
    |suffix| <= |s| && s[|s| - |suffix|..] == suffix
  }

  /** What Python's strip() removes: the characters for which isspace() holds. */
  predicate IsSpace(c: char) {
    var n := c as int;
    || 9 <= n <= 13 || 28 <= n <= 32 || n == 0x85 || n == 0xA0 || n == 0x1680
    || 0x2000 <= n <= 0x200A || n == 0x2028 || n == 0x2029 || n == 0x202F || n == 0x205F || n == 0x3000
  }

  /** A string with nothing left after strip(). */
  predicate Blank(s: string) {
    forall i :: 0 <= i < |s| ==> IsSpace(s[i])
  }

  function LeftStrip(s: string): string {
    if s != "" && IsSpace(s[0]) then LeftStrip(s[1..]) else s
  }

  function RightStrip(s: string): string {
    if s != "" && IsSpace(s[|s| - 1]) then RightStrip(s[..|s| - 1]) else s
  }

  function Strip(s: string): string {
    RightStrip(LeftStrip(s))
  }

  lemma {:induction false} LeftStripped(s: string) returns (before: string)
    ensures s == before + LeftStrip(s) && Blank(before)
    ensures LeftStrip(s) != "" ==> !IsSpace(LeftStrip(s)[0])
  {
    before := "";
    if s != "" && IsSpace(s[0]) {
      var rest := LeftStripped(s[1..]);
      before := [s[0]] + rest;
      assert s == [s[0]] + s[1..];
    }
  }

  lemma {:induction false} RightStripped(s: string) returns (after: string)
    ensures s == RightStrip(s) + after && Blank(after)
    ensures RightStrip(s) != "" ==> !IsSpace(RightStrip(s)[|RightStrip(s)| - 1]) && RightStrip(s)[0] == s[0]
  {
    after := "";
    if s != "" && IsSpace(s[|s| - 1]) {
      var rest := RightStripped(s[..|s| - 1]);
      after := rest + [s[|s| - 1]];
      assert s == s[..|s| - 1] + [s[|s| - 1]];
    }
  }

  /** Only spaces go, at both ends, and as many as there are. */
  lemma StripExactly(s: string) returns (before: string, after: string)
    ensures s == before + Strip(s) + after && Blank(before) && Blank(after)
    ensures var t := Strip(s); t != "" ==> !IsSpace(t[0]) && !IsSpace(t[|t| - 1])
  {
    before := LeftStripped(s);
    after := RightStripped(LeftStrip(s));
    assert s == before + (Strip(s) + after);
  }
}
