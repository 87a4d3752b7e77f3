/** Strict UTF-8 (section 3 of RFC 3629): the encoding of Unicode scalar values, its decoder, and the
    order of encoded texts. Trees and change lists are sorted by encoded bytes while later checks
    re-sort the same paths as text; both orders are the same one. */
module Utf8 {
  import opened Options

  type Scalar = c: int | 0 <= c <= 0x10FFFF && !(0xD800 <= c <= 0xDFFF)
  type Byte = b: int | 0 <= b < 256
  type Text = seq<Scalar>
  type Bytes = seq<Byte>

  /** A continuation byte carrying the low six bits of `n`. */
  function Six(n: nat): (b: Byte)
    ensures n == n / 64 * 64 + (b - 0x80)
    ensures 0x80 <= b < 0xC0
  {
    0x80 + n % 64
  }

  function EncodeOne(c: Scalar): (b: Bytes)
    ensures 1 <= |b| <= 4
  {
    if c < 0x80 then [c]
    else if c < 0x800 then [0xC0 + c / 64, Six(c)]
    else if c < 0x10000 then [0xE0 + c / 64 / 64, Six(c / 64), Six(c)]
    else [0xF0 + c / 64 / 64 / 64, Six(c / 64 / 64), Six(c / 64), Six(c)]
  }

  function Encode(t: Text): Bytes {
    if t == [] then [] else EncodeOne(t[0]) + Encode(t[1..])
  }

  // ---------------------------------------------------------------- order

  /** Lexicographic order, as Python compares `bytes` with `bytes` and `str` with `str`. */
  predicate Less(a: seq<int>, b: seq<int>) {
    b != [] && (a == [] || a[0] < b[0] || (a[0] == b[0] && Less(a[1..], b[1..])))
  }

  lemma {:induction false} LessSkipsPrefix(p: seq<int>, a: seq<int>, b: seq<int>)
    ensures Less(p + a, p + b) <==> Less(a, b)
  {
    if p == [] {
      assert p + a == a && p + b == b;
    } else {
      assert (p + a)[1..] == p[1..] + a && (p + b)[1..] == p[1..] + b;
      LessSkipsPrefix(p[1..], a, b);
    }
  }

  lemma {:induction false} LessAtFirstDifference(a: seq<int>, b: seq<int>, i: nat)
    requires i < |a| && i < |b| && a[..i] == b[..i] && a[i] < b[i]
    ensures Less(a, b) && !Less(b, a)
  {
    var p := a[..i];
    assert a == p + a[i..] && b == p + b[i..];
    LessSkipsPrefix(p, a[i..], b[i..]);
    LessSkipsPrefix(p, b[i..], a[i..]);
  }

  /** `a` is a proper prefix of `b`, or smaller where they first differ. */
  ghost predicate Before(a: seq<int>, b: seq<int>) {
    a < b || exists i :: 0 <= i < |a| && i < |b| && a[..i] == b[..i] && a[i] < b[i]
  }

  lemma {:induction false} LessIsBefore(a: seq<int>, b: seq<int>)
    ensures Less(a, b) <==> Before(a, b)
  {
    if a != [] && b != [] {
      if a[0] == b[0] {
        LessIsBefore(a[1..], b[1..]);
        BeforeSkips(a, b);
      } else {
        BeforeAtHead(a, b);
      }
    }
  }

  lemma BeforeAtHead(a: seq<int>, b: seq<int>)
    requires a != [] && b != [] && a[0] != b[0]
    ensures Before(a, b) <==> a[0] < b[0]
  {
    assert a[..0] == b[..0];
    if Before(a, b) && !(a < b) {
      var i :| 0 <= i < |a| && i < |b| && a[..i] == b[..i] && a[i] < b[i];
      SameHead(a, b, i);
    }
  }

  lemma SameHead(a: seq<int>, b: seq<int>, i: nat)
    requires i < |a| && i < |b| && a[..i] == b[..i]
    ensures i > 0 ==> a[0] == b[0]
  {
    assert i > 0 ==> a[..i][0] == b[..i][0];
  }

  lemma BeforeSkips(a: seq<int>, b: seq<int>)
    requires a != [] && b != [] && a[0] == b[0]
    ensures Before(a, b) <==> Before(a[1..], b[1..])
  {
    assert a == [a[0]] + a[1..] && b == [b[0]] + b[1..];
    var c, d := a[1..], b[1..];
    if Before(c, d) && !(c < d) {
      var i :| 0 <= i < |c| && i < |d| && c[..i] == d[..i] && c[i] < d[i];
      assert a[..i + 1] == [a[0]] + c[..i] && b[..i + 1] == [b[0]] + d[..i];
    }
    if Before(a, b) && !(a < b) {
      var i :| 0 <= i < |a| && i < |b| && a[..i] == b[..i] && a[i] < b[i];
      assert c[..i - 1] == a[..i][1..] && d[..i - 1] == b[..i][1..];
    }
  }

  lemma {:induction false} LessIsTotal(a: seq<int>, b: seq<int>)
    ensures Less(a, b) || Less(b, a) || a == b
    ensures !(Less(a, b) && Less(b, a)) && !Less(a, a)
  {
    if a != [] && b != [] && a[0] == b[0] {
      LessIsTotal(a[1..], b[1..]);
      assert a == [a[0]] + a[1..] && b == [b[0]] + b[1..];
    }
    if a != [] { LessIsTotal(a[1..], a[1..]); }
  }

  lemma {:induction false} LessIsTransitive(a: seq<int>, b: seq<int>, c: seq<int>)
    requires Less(a, b) && Less(b, c)
    ensures Less(a, c)
  {
    if a != [] && a[0] == b[0] && b[0] == c[0] {
      LessIsTransitive(a[1..], b[1..], c[1..]);
    }
  }

  /** Where the encodings of two scalars first differ, the smaller scalar has the smaller byte. */
  lemma FirstDifference(c: Scalar, d: Scalar) returns (i: nat)
    requires c < d
    ensures i < |EncodeOne(c)| && i < |EncodeOne(d)|
    ensures EncodeOne(c)[..i] == EncodeOne(d)[..i] && EncodeOne(c)[i] < EncodeOne(d)[i]
  {
    if d < 0x80 || |EncodeOne(c)| != |EncodeOne(d)| {
      i := 0;
    } else {
      i := SameLengthDifference(c, d);
    }
  }

  lemma SameLengthDifference(c: Scalar, d: Scalar) returns (i: nat)
    requires 0x80 <= c < d && |EncodeOne(c)| == |EncodeOne(d)|
    ensures i < |EncodeOne(c)| && EncodeOne(c)[..i] == EncodeOne(d)[..i] && EncodeOne(c)[i] < EncodeOne(d)[i]
  {
    var n := |EncodeOne(c)|;
    if c / 64 == d / 64 {
      i := n - 1;
    } else if n >= 3 && c / 64 / 64 == d / 64 / 64 {
      i := n - 2;
    } else if n >= 4 && c / 64 / 64 / 64 == d / 64 / 64 / 64 {
      i := n - 3;
    } else {
      i := 0;
    }
  }

  lemma ScalarOrder(c: Scalar, d: Scalar, x: Bytes, y: Bytes)
    requires c < d
    ensures Less(EncodeOne(c) + x, EncodeOne(d) + y) && !Less(EncodeOne(d) + y, EncodeOne(c) + x)
  {
    var i := FirstDifference(c, d);
    var a, b := EncodeOne(c) + x, EncodeOne(d) + y;
    assert a[..i] == EncodeOne(c)[..i] && b[..i] == EncodeOne(d)[..i];
    LessAtFirstDifference(a, b, i);
  }

  /** Byte order of the encodings is code-point order of the texts. */
  lemma {:induction false} ByteOrderIsTextOrder(s: Text, t: Text)
    ensures Less(Encode(s), Encode(t)) <==> Less(s, t)
  {
    if s != [] && t != [] {
      if s[0] < t[0] {
        ScalarOrder(s[0], t[0], Encode(s[1..]), Encode(t[1..]));
      } else if t[0] < s[0] {
        ScalarOrder(t[0], s[0], Encode(t[1..]), Encode(s[1..]));
      } else {
        LessSkipsPrefix(EncodeOne(s[0]), Encode(s[1..]), Encode(t[1..]));
        ByteOrderIsTextOrder(s[1..], t[1..]);
      }
    }
  }

  // ---------------------------------------------------------------- decoding

  predicate Continues(b: Byte) {
    0x80 <= b < 0xC0
  }

  function Low(b: Byte): int {
    b - 0x80
  }

  /** The scalar a lead byte and its continuation bytes spell, if it is one and is not overlong. */
  function DecodeTwo(lead: Byte, x: Byte): int {
    (lead - 0xC0) * 64 + Low(x)
  }

  function DecodeThree(lead: Byte, x: Byte, y: Byte): int {
    ((lead - 0xE0) * 64 + Low(x)) * 64 + Low(y)
  }

  function DecodeFour(lead: Byte, x: Byte, y: Byte, z: Byte): int {
    (((lead - 0xF0) * 64 + Low(x)) * 64 + Low(y)) * 64 + Low(z)
  }

  function Checked(c: int, least: int, n: nat): Option<(Scalar, nat)> {
    if 0x80 <= least <= c <= 0x10FFFF && !(0xD800 <= c <= 0xDFFF) then Some((c, n)) else None
  }

  /** The scalar at the front and how many bytes it takes; None where strict decoding fails. */
  function DecodeOne(b: Bytes): (r: Option<(Scalar, nat)>)
    requires b != []
    ensures r.Some? ==> 1 <= r.value.1 <= |b|
  {
    if b[0] < 0x80 then Some((b[0], 1))
    else if 0xC2 <= b[0] < 0xE0 then
      if |b| >= 2 && Continues(b[1]) then Checked(DecodeTwo(b[0], b[1]), 0x80, 2) else None
    else if 0xE0 <= b[0] < 0xF0 then
      if |b| >= 3 && Continues(b[1]) && Continues(b[2]) then Checked(DecodeThree(b[0], b[1], b[2]), 0x800, 3) else None
    else if 0xF0 <= b[0] < 0xF5 then
      if |b| >= 4 && Continues(b[1]) && Continues(b[2]) && Continues(b[3])
      then Checked(DecodeFour(b[0], b[1], b[2], b[3]), 0x10000, 4) else None
    else None
  }

  function Decode(b: Bytes): Option<Text> {
    if b == [] then Some([])
    else
      match DecodeOne(b)
      case None => None
      case Some((c, n)) =>
        match Decode(b[n..])
        case None => None
        case Some(rest) => Some([c] + rest)
  }

  lemma DecodesOne(c: Scalar, rest: Bytes)
    ensures DecodeOne(EncodeOne(c) + rest) == Some((c, |EncodeOne(c)|))
  {
    var e := EncodeOne(c);
    var b := e + rest;
    assert forall i :: 0 <= i < |e| ==> b[i] == e[i];
    if 0x80 <= c < 0x800 {
      assert DecodeTwo(b[0], b[1]) == c;
    } else if 0x800 <= c < 0x10000 {
      assert DecodeThree(b[0], b[1], b[2]) == c;
    } else if 0x10000 <= c {
      assert DecodeFour(b[0], b[1], b[2], b[3]) == c;
    }
  }

  lemma SixUndoesShift(high: nat, low: Byte)
    requires Continues(low)
    ensures (high * 64 + Low(low)) / 64 == high && Six(high * 64 + Low(low)) == low
  {
  }

  lemma ReencodesOne(b: Bytes)
    requires b != [] && DecodeOne(b).Some?
    ensures var (c, n) := DecodeOne(b).value; EncodeOne(c) == b[..n]
  {
    if 0xC2 <= b[0] < 0xE0 {
      SixUndoesShift(b[0] - 0xC0, b[1]);
    } else if 0xE0 <= b[0] < 0xF0 {
      SixUndoesShift(b[0] - 0xE0, b[1]);
      SixUndoesShift((b[0] - 0xE0) * 64 + Low(b[1]), b[2]);
    } else if 0xF0 <= b[0] {
      SixUndoesShift(b[0] - 0xF0, b[1]);
      SixUndoesShift((b[0] - 0xF0) * 64 + Low(b[1]), b[2]);
      SixUndoesShift(((b[0] - 0xF0) * 64 + Low(b[1])) * 64 + Low(b[2]), b[3]);
    }
  }

  lemma {:induction false} DecodeUndoesEncode(t: Text)
    ensures Decode(Encode(t)) == Some(t)
  {
    if t != [] {
      DecodesOne(t[0], Encode(t[1..]));
      assert Encode(t)[|EncodeOne(t[0])|..] == Encode(t[1..]);
      DecodeUndoesEncode(t[1..]);
      assert t == [t[0]] + t[1..];
    }
  }

  /** Only encodings decode, and each byte string is the encoding of at most one text. */
  lemma {:induction false} EncodeUndoesDecode(b: Bytes)
    requires Decode(b).Some?
    ensures Encode(Decode(b).value) == b
  {
    if b != [] {
      ReencodesOne(b);
      var (c, n) := DecodeOne(b).value;
      EncodeUndoesDecode(b[n..]);
      var t := Decode(b).value;
      assert t[0] == c && t[1..] == Decode(b[n..]).value;
      assert b == b[..n] + b[n..];
    }
  }

  lemma EncodeIsInjective(s: Text, t: Text)
    requires Encode(s) == Encode(t)
    ensures s == t
  {
    DecodeUndoesEncode(s);
    DecodeUndoesEncode(t);
  }
}
