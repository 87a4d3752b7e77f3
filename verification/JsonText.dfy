/** Canonical JSON text: keys sorted, no spaces, nothing but ASCII. Size limits are checked on its length. */
module JsonText {

  // ---------------------------------------------------------------- the text

  const HEX: string := "0123456789abcdef"

  /** `\u` and four lower-case hexadecimal digits. */
  function Unicode(n: nat): (s: string)
    requires n < 0x10000
    ensures |s| == 6
  {
    ['\\', 'u', HEX[n / 4096], HEX[n / 256 % 16], HEX[n / 16 % 16], HEX[n % 16]]
  }

  /** One character inside a string: itself if printable, a short escape, or its UTF-16 code units. */
  function Escaped(c: int): string
    requires 0 <= c <= 0x10FFFF
  {
    if c == 34 then "\\\"" else if c == 92 then "\\\\"
    else if c == 8 then "\\b" else if c == 9 then "\\t" else if c == 10 then "\\n" else if c == 12 then "\\f" else if c == 13 then "\\r"
    else if 32 <= c <= 126 then [c as char]
    else if c < 0x10000 then Unicode(c)
    else Unicode(0xD800 + (c - 0x10000) / 1024) + Unicode(0xDC00 + (c - 0x10000) % 1024)
  }

  predicate Characters(t: seq<int>) {
    forall i :: 0 <= i < |t| ==> 0 <= t[i] <= 0x10FFFF
  }

  function EscapedAll(t: seq<int>): string
    requires Characters(t)
  {
    if t == [] then "" else EscapedAll(t[..|t| - 1]) + Escaped(t[|t| - 1])
  }

  function Quoted(t: seq<int>): string
    requires Characters(t)
  {
    "\"" + EscapedAll(t) + "\""
  }

  /** Decimal digits, after a minus sign if need be. */
  function Number(n: int): string
    decreases if n < 0 then 1 - n else n
  {
    if n < 0 then "-" + Number(-n) else if n < 10 then [HEX[n]] else Number(n / 10) + [HEX[n % 10]]
  }

  function Codes(s: string): (t: seq<int>)
    ensures Characters(t) && |t| == |s|
  {
    seq(|s|, i requires 0 <= i < |s| => s[i] as int)
  }

  // ---------------------------------------------------------------- its length

  /** What one character of a string takes. */
  function EscapedLength(c: int): nat {
    if c in {34, 92, 8, 9, 10, 12, 13} then 2 else if 32 <= c < 127 then 1 else if c < 0x10000 then 6 else 12
  }

  function TextLength(t: seq<int>): nat {
    if t == [] then 0 else TextLength(t[..|t| - 1]) + EscapedLength(t[|t| - 1])
  }

  function NumberLength(n: int): nat
    decreases if n < 0 then 1 - n else n
  {
    if n < 0 then 1 + NumberLength(-n) else if n < 10 then 1 else 1 + NumberLength(n / 10)
  }

  lemma {:induction false} LengthOfQuoted(t: seq<int>)
    requires Characters(t)
    ensures |EscapedAll(t)| == TextLength(t) && |Quoted(t)| == 2 + TextLength(t)
  {
    if t != [] {
      LengthOfQuoted(t[..|t| - 1]);
    }
  }

  lemma {:induction false} LengthOfNumber(n: int)
    ensures |Number(n)| == NumberLength(n)
    decreases if n < 0 then 1 - n else n
  {
    if n < 0 {
      LengthOfNumber(-n);
    } else if n >= 10 {
      LengthOfNumber(n / 10);
    }
  }

  /** A printable character that needs no escape. */
  predicate Plain(c: char) {
    32 <= c as int <= 126 && c != '\"' && c != '\\'
  }

  /** Plain text stands in quotes as it is. */
  lemma {:induction false} PlainIsQuotedAsIs(s: string)
    requires forall i :: 0 <= i < |s| ==> Plain(s[i])
    ensures EscapedAll(Codes(s)) == s && Quoted(Codes(s)) == "\"" + s + "\""
  {
    if s != "" {
      var front, last := s[..|s| - 1], s[|s| - 1];
      PlainIsQuotedAsIs(front);
      assert Codes(s)[..|s| - 1] == Codes(front);
      assert Escaped(Codes(s)[|s| - 1]) == [last];
      assert s == front + [last];
    }
  }

  function DigitValue(c: char): nat {
    if '0' <= c <= '9' then c as int - '0' as int else 0
  }

  function DigitsValue(s: string): nat {
    if s == "" then 0 else 10 * DigitsValue(s[..|s| - 1]) + DigitValue(s[|s| - 1])
  }

  lemma DigitSpells(d: nat)
    requires d < 10
    ensures DigitValue(HEX[d]) == d
  {
  }

  lemma OneMoreDigit(s: string, c: char)
    ensures DigitsValue(s + [c]) == 10 * DigitsValue(s) + DigitValue(c)
  {
    assert (s + [c])[..|s|] == s;
  }

  /** The decimal digits written for a number spell that number. */
  lemma {:induction false} NumberSpells(n: nat)
    ensures DigitsValue(Number(n)) == n
  {
    DigitSpells(n % 10);
    if n < 10 {
      OneMoreDigit("", HEX[n]);
    } else {
      NumberSpells(n / 10);
      OneMoreDigit(Number(n / 10), HEX[n % 10]);
    }
  }
}
