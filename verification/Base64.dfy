/** Base64 with padding, section 4 of RFC 4648. */
module Base64 {
  import opened Wrappers

  type Byte = b: int | 0 <= b < 256
  type Six = v: int | 0 <= v < 64

  function Sym(v: Six): char {
    if v < 26 then (65 + v) as char
    else if v < 52 then (71 + v) as char
    else if v < 62 then (v - 4) as char
    else if v == 62 then '+'
    else '/'
  }

  function Val(c: char): Option<Six> {
    var n := c as int;
    if 65 <= n < 91 then Some(n - 65)
    else if 97 <= n < 123 then Some(n - 71)
    else if 48 <= n < 58 then Some(n + 4)
    else if c == '+' then Some(62)
    else if c == '/' then Some(63)
    else None
  }

  function Encode(d: seq<Byte>): string {
    if d == [] then ""
    else if |d| == 1 then [Sym(d[0] / 4), Sym(d[0] % 4 * 16), '=', '=']
    else if |d| == 2 then [Sym(d[0] / 4), Sym(d[0] % 4 * 16 + d[1] / 16), Sym(d[1] % 16 * 4), '=']
    else Quad(d[0], d[1], d[2]) + Encode(d[3..])
  }

  function Quad(a: Byte, b: Byte, c: Byte): string {
    [Sym(a / 4), Sym(a % 4 * 16 + b / 16), Sym(b % 16 * 4 + c / 64), Sym(c % 64)]
  }

  /** A strict decoder; like its original it does not look at the unused bits of a padded quad. */
  function Decode(s: string): Option<seq<Byte>> {
    if s == "" then Some([])
    else if |s| < 4 || Val(s[0]).None? || Val(s[1]).None? then None
    else if |s| == 4 && s[3] == '=' then
      if s[2] == '=' then Some([First(s)])
      else if Val(s[2]).None? then None
      else Some([First(s), Second(s)])
    else if Val(s[2]).None? || Val(s[3]).None? then None
    else
      var rest := Decode(s[4..]);
      if rest.None? then None else Some([First(s), Second(s), Third(s)] + rest.value)
  }

  function First(s: string): Byte
    requires |s| >= 2 && Val(s[0]).Some? && Val(s[1]).Some?
  {
    Val(s[0]).value * 4 + Val(s[1]).value / 16
  }

  function Second(s: string): Byte
    requires |s| >= 3 && Val(s[1]).Some? && Val(s[2]).Some?
  {
    Val(s[1]).value % 16 * 16 + Val(s[2]).value / 4
  }

  function Third(s: string): Byte
    requires |s| >= 4 && Val(s[2]).Some? && Val(s[3]).Some?
  {
    Val(s[2]).value % 4 * 64 + Val(s[3]).value
  }

  lemma ValOfSym(v: Six)
    ensures Val(Sym(v)) == Some(v) && Sym(v) != '='
  {
  }

  lemma QuadReads(a: Byte, b: Byte, c: Byte)
    ensures var q := Quad(a, b, c);
            && (forall i :: 0 <= i < 4 ==> Val(q[i]).Some?) && q[3] != '='
            && First(q) == a && Second(q) == b && Third(q) == c
  {
    ValOfSym(a / 4);
    ValOfSym(a % 4 * 16 + b / 16);
    ValOfSym(b % 16 * 4 + c / 64);
    ValOfSym(c % 64);
  }

  lemma QuadDecodes(a: Byte, b: Byte, c: Byte, rest: string)
    requires Decode(rest).Some?
    ensures Decode(Quad(a, b, c) + rest) == Some([a, b, c] + Decode(rest).value)
  {
    QuadReads(a, b, c);
    var s := Quad(a, b, c) + rest;
    assert s[4..] == rest;
    assert s[0] == Quad(a, b, c)[0] && s[1] == Quad(a, b, c)[1] && s[2] == Quad(a, b, c)[2] && s[3] == Quad(a, b, c)[3];
    assert First(s) == a && Second(s) == b && Third(s) == c;
  }

  lemma PaddedDecodes(a: Byte, b: Byte)
    ensures Decode(Encode([a])) == Some([a])
    ensures Decode(Encode([a, b])) == Some([a, b])
  {
    ValOfSym(a / 4);
    ValOfSym(a % 4 * 16);
    ValOfSym(a % 4 * 16 + b / 16);
    ValOfSym(b % 16 * 4);
  }

  /** Decoding inverts encoding. */
  lemma {:induction false} DecodeEncode(d: seq<Byte>)
    ensures Decode(Encode(d)) == Some(d)
  {
    if 1 <= |d| <= 2 {
      PaddedDecodes(d[0], d[|d| - 1]);
      assert d == if |d| == 1 then [d[0]] else [d[0], d[1]];
    } else if |d| >= 3 {
      DecodeEncode(d[3..]);
      QuadDecodes(d[0], d[1], d[2], Encode(d[3..]));
      assert d == [d[0], d[1], d[2]] + d[3..];
    }
  }

  lemma {:induction false} EncodedLength(d: seq<Byte>)
    ensures |Encode(d)| == 4 * ((|d| + 2) / 3)
  {
    hide Sym;
    if |d| >= 3 {
      EncodedLength(d[3..]);
    }
  }

  predicate Plain(c: char) {
    c == '=' || exists v: Six :: c == Sym(v)
  }

  lemma PlainIsPrintable(c: char)
    requires Plain(c)
    ensures 32 <= c as int < 128 && c != '"' && c != '\\'
  {
  }

  lemma {:induction false} EncodedIsPlain(d: seq<Byte>)
    ensures forall i :: 0 <= i < |Encode(d)| ==> Plain(Encode(d)[i])
  {
    if |d| >= 3 {
      EncodedIsPlain(d[3..]);
    }
  }

  /** Some text decodes without being the encoding of what it decodes to: padding may hide bits. */
  lemma LooseTextDecodes() returns (s: string)
    ensures Decode(s).Some? && Encode(Decode(s).value) != s
  {
    s := "QR==";
    assert Decode(s) == Some([65]);
    assert Encode([65])[1] == 'Q';
  }
}
