/** JSON string literals as json.dumps writes them without ASCII folding: section 7 of RFC 8259. */
module JsonText {
  import opened Wrappers

  /** Bytes of one character in UTF-8. */
  function Width(c: char): nat {
    var n := c as int;
    if n < 0x80 then 1 else if n < 0x800 then 2 else if n < 0x10000 then 3 else 4
  }

  function Size(s: string): nat {
    if s == "" then 0 else Width(s[0]) + Size(s[1..])
  }

  lemma {:induction false} SizeAppend(a: string, b: string)
    ensures Size(a + b) == Size(a) + Size(b)
  {
    if a == "" {
      assert a + b == b;
    } else {
      assert (a + b)[1..] == a[1..] + b;
      SizeAppend(a[1..], b);
    }
  }

  lemma {:induction false} AsciiSize(s: string)
    requires forall i :: 0 <= i < |s| ==> (s[i] as int) < 128
    ensures Size(s) == |s|
  {
    if s != "" {
      AsciiSize(s[1..]);
    }
  }

  function Hex(n: int): char
    requires 0 <= n < 16
  {
    if n < 10 then (48 + n) as char else (87 + n) as char
  }

  function HexValue(c: char): Option<int> {
    var n := c as int;
    if 48 <= n < 58 then Some(n - 48)
    else if 97 <= n < 103 then Some(n - 87)
    else if 65 <= n < 71 then Some(n - 55)
    else None
  }

  /** The letter of a two-character escape, if the character has one. */
  function Short(c: char): Option<char> {
    var n := c as int;
    if c == '"' || c == '\\' then Some(c)
    else if n == 8 then Some('b')
    else if n == 9 then Some('t')
    else if n == 10 then Some('n')
    else if n == 12 then Some('f')
    else if n == 13 then Some('r')
    else None
  }

  function Unshort(c: char): Option<char> {
    if c == '"' || c == '\\' || c == '/' then Some(c)
    else if c == 'b' then Some(8 as char)
    else if c == 't' then Some(9 as char)
    else if c == 'n' then Some(10 as char)
    else if c == 'f' then Some(12 as char)
    else if c == 'r' then Some(13 as char)
    else None
  }

  function Escaped(c: char): string {
    if Short(c).Some? then ['\\', Short(c).value]
    else if (c as int) < 32 then ['\\', 'u', '0', '0', Hex((c as int) / 16), Hex((c as int) % 16)]
    else [c]
  }

  function Body(s: string): string {
    if s == "" then "" else Escaped(s[0]) + Body(s[1..])
  }

  /** What a reader takes after an opening quote: the text, and what follows the closing quote. */
  function ReadBody(t: string): Option<(string, string)>
    decreases |t|
  {
    if t == "" then None
    else if t[0] == '"' then Some(("", t[1..]))
    else if t[0] == '\\' then
      if |t| < 2 then None
      else if t[1] == 'u' then
        var code := ReadCode(t);
        if code.None? then None else Before(code.value, ReadBody(t[6..]))
      else if Unshort(t[1]).None? then None
      else Before(Unshort(t[1]).value, ReadBody(t[2..]))
    else if (t[0] as int) < 32 then None
    else Before(t[0], ReadBody(t[1..]))
  }

  /** A \\u escape below the surrogates. */
  function ReadCode(t: string): (r: Option<char>)
    ensures r.Some? ==> |t| >= 6
  {
    if |t| < 6 || HexValue(t[2]).None? || HexValue(t[3]).None? || HexValue(t[4]).None? || HexValue(t[5]).None? then None
    else
      var high := HexValue(t[2]).value * 4096 + HexValue(t[3]).value * 256;
      var n := high + HexValue(t[4]).value * 16 + HexValue(t[5]).value;
      if 0 <= n < 0xD800 then Some(n as char) else None
  }

  function Before(c: char, read: Option<(string, string)>): Option<(string, string)> {
    if read.None? then None else Some(([c] + read.value.0, read.value.1))
  }

  lemma EscapedReads(c: char, rest: string)
    ensures ReadBody(Escaped(c) + rest) == Before(c, ReadBody(rest))
  {
    var t := Escaped(c) + rest;
    if Short(c).Some? {
      assert t[1] == Short(c).value && t[2..] == rest;
    } else if (c as int) < 32 {
      var n := c as int;
      assert t[..6] == Escaped(c) && t[6..] == rest;
      assert t[1] == 'u' && t[2] == '0' && t[3] == '0' && t[4] == Hex(n / 16) && t[5] == Hex(n % 16);
      assert HexValue(Hex(n / 16)) == Some(n / 16) && HexValue(Hex(n % 16)) == Some(n % 16);
      assert ReadCode(t) == Some(c);
    } else {
      assert t[0] == c && t[1..] == rest;
    }
  }

  /** No text can end its own literal early, and reading gives it back. */
  lemma {:induction false} QuotedReads(s: string, rest: string)
    ensures ReadBody(Body(s) + "\"" + rest) == Some((s, rest))
  {
    if s == "" {
      assert Body(s) + "\"" + rest == "\"" + rest;
    } else {
      assert Body(s) + "\"" + rest == Escaped(s[0]) + (Body(s[1..]) + "\"" + rest);
      EscapedReads(s[0], Body(s[1..]) + "\"" + rest);
      QuotedReads(s[1..], rest);
      assert [s[0]] + s[1..] == s;
    }
  }

  function Count(s: string, c: char): nat {
    if s == "" then 0 else (if s[0] == c then 1 else 0) + Count(s[1..], c)
  }

  /** Bytes that escaping adds to one character. */
  function Extra(c: char): nat {
    if Short(c).Some? then 1 else if (c as int) < 32 then 5 else 0
  }

  function Extras(s: string): nat {
    if s == "" then 0 else Extra(s[0]) + Extras(s[1..])
  }

  lemma {:induction false} BodySize(s: string)
    ensures Size(Body(s)) == Size(s) + Extras(s)
  {
    if s != "" {
      SizeAppend(Escaped(s[0]), Body(s[1..]));
      assert Size(Escaped(s[0])) == Width(s[0]) + Extra(s[0]) by {
        if Escaped(s[0]) != [s[0]] {
          AsciiSize(Escaped(s[0]));
        } else {
          assert Escaped(s[0])[1..] == "";
        }
      }
      BodySize(s[1..]);
    }
  }

  /** The count the source keeps: quotes, backslashes, then each control character at its own price. */
  function ControlExtras(s: string, upto: int): nat
    requires 0 <= upto <= 32
    decreases upto
  {
    if upto == 0 then 0
    else ControlExtras(s, upto - 1) + Count(s, (upto - 1) as char) * (if upto - 1 in {8, 9, 10, 12, 13} then 1 else 5)
  }

  lemma {:induction false} ControlStep(s: string, upto: int)
    requires s != "" && 0 <= upto <= 32
    ensures ControlExtras(s, upto) == ControlExtras(s[1..], upto)
      + if (s[0] as int) < upto then (if (s[0] as int) in {8, 9, 10, 12, 13} then 1 else 5) else 0
    decreases upto
  {
    if upto > 0 {
      ControlStep(s, upto - 1);
      var c := (upto - 1) as char;
      assert Count(s, c) == (if s[0] == c then 1 else 0) + Count(s[1..], c);
    }
  }

  lemma {:induction false} CountsAreExact(s: string)
    ensures Extras(s) == Count(s, '"') + Count(s, '\\') + ControlExtras(s, 32)
  {
    if s == "" {
      NothingToCount(32);
    } else {
      ControlStep(s, 32);
      CountsAreExact(s[1..]);
    }
  }

  lemma {:induction false} NothingToCount(upto: int)
    requires 0 <= upto <= 32
    ensures ControlExtras("", upto) == 0
    decreases upto
  {
    if upto > 0 {
      NothingToCount(upto - 1);
    }
  }

  /** The size a prompt will take inside its literal, found by counting, is exact. */
  method EscapedSize(prompt: string) returns (size: nat)
    ensures size == Size(Body(prompt))
  {
    size := Size(prompt) + Count(prompt, '"') + Count(prompt, '\\');
    for character := 0 to 32
      invariant size == Size(prompt) + Count(prompt, '"') + Count(prompt, '\\') + ControlExtras(prompt, character)
    {
      size := size + Count(prompt, character as char) * (if character in {8, 9, 10, 12, 13} then 1 else 5);
    }
    CountsAreExact(prompt);
    BodySize(prompt);
  }
}
