/**
 What the journal counts when it prices a text: the bytes of its UTF-8 form (RFC 3629, sections 3
 and 4), in which a surrogate without its partner is replaced by U+FFFD.
 */
module Utf8 {
  import opened Wrappers
  import opened Text

  newtype Byte = x: int | 0 <= x < 256

  predicate IsScalar(c: int) { 0 <= c < 0xD800 || 0xE000 <= c < 0x110000 }

  /** The code points of a text. */
  function Points(s: Text): (cs: seq<int>)
    ensures forall i :: 0 <= i < |cs| ==> IsScalar(cs[i])
  {
    if s == [] then []
    else if |s| >= 2 && IsHighSurrogate(s[0]) && IsLowSurrogate(s[1]) then
      [0x10000 + (s[0] as int - 0xD800) * 0x400 + (s[1] as int - 0xDC00)] + Points(s[2..])
    else [if IsHighSurrogate(s[0]) || IsLowSurrogate(s[0]) then 0xFFFD else s[0] as int] + Points(s[1..])
  }

  // ---------------------------------------------------------------- a strict reader

  predicate IsTail(b: Byte) { 0x80 <= b < 0xC0 }

  /** The code point at the front and how many bytes it takes; forms that are longer than needed,
      surrogates and numbers beyond the last code point are refused. */
  function ReadPoint(b: seq<Byte>): Option<(int, nat)> {
    if b == [] then None
    else if b[0] < 0x80 then Some((b[0] as int, 1))
    else if 0xC0 <= b[0] < 0xE0 && |b| >= 2 && IsTail(b[1]) then
      var c := (b[0] as int - 0xC0) * 0x40 + (b[1] as int - 0x80);
      if c >= 0x80 then Some((c, 2)) else None
    else if 0xE0 <= b[0] < 0xF0 && |b| >= 3 && IsTail(b[1]) && IsTail(b[2]) then
      var c := (b[0] as int - 0xE0) * 0x1000 + (b[1] as int - 0x80) * 0x40 + (b[2] as int - 0x80);
      if c >= 0x800 && IsScalar(c) then Some((c, 3)) else None
    else if 0xF0 <= b[0] < 0xF8 && |b| >= 4 && IsTail(b[1]) && IsTail(b[2]) && IsTail(b[3]) then
      var c := (b[0] as int - 0xF0) * 0x40000 + (b[1] as int - 0x80) * 0x1000 + (b[2] as int - 0x80) * 0x40
               + (b[3] as int - 0x80);
      if c >= 0x10000 && IsScalar(c) then Some((c, 4)) else None
    else None
  }

  predicate Reads(b: seq<Byte>, cs: seq<int>)
    decreases |cs|
  {
    if cs == [] then b == []
    else
      var p := ReadPoint(b);
      p.Some? && p.value.0 == cs[0] && p.value.1 <= |b| && Reads(b[p.value.1..], cs[1..])
  }

  // ---------------------------------------------------------------- its one form

  function Written(c: int): seq<Byte>
    requires IsScalar(c)
  {
    if c < 0x80 then [c as Byte]
    else if c < 0x800 then [(0xC0 + c / 0x40) as Byte, (0x80 + c % 0x40) as Byte]
    else if c < 0x10000 then
      [(0xE0 + c / 0x1000) as Byte, (0x80 + c / 0x40 % 0x40) as Byte, (0x80 + c % 0x40) as Byte]
    else
      [(0xF0 + c / 0x40000) as Byte, (0x80 + c / 0x1000 % 0x40) as Byte, (0x80 + c / 0x40 % 0x40) as Byte,
       (0x80 + c % 0x40) as Byte]
  }

  /** A number from its digits to the base 64. */
  lemma Digits(c: nat)
    ensures c == c / 0x40 * 0x40 + c % 0x40
    ensures c / 0x40 == c / 0x1000 * 0x40 + c / 0x40 % 0x40
    ensures c / 0x1000 == c / 0x40000 * 0x40 + c / 0x1000 % 0x40
  {
    assert c / 0x1000 == c / 0x40 / 0x40;
    assert c / 0x40000 == c / 0x1000 / 0x40;
  }

  lemma ReadsWritten(c: int, rest: seq<Byte>)
    requires IsScalar(c)
    ensures ReadPoint(Written(c) + rest) == Some((c, |Written(c)|))
  {
    Digits(c);
    var b, w := Written(c) + rest, Written(c);
    if c < 0x80 {
      assert b[0] == w[0];
    } else if c < 0x800 {
      assert b[0] == w[0] && b[1] == w[1];
    } else if c < 0x10000 {
      assert b[0] == w[0] && b[1] == w[1] && b[2] == w[2];
      ThreeBytes(c, b);
    } else {
      assert b[0] == w[0] && b[1] == w[1] && b[2] == w[2] && b[3] == w[3];
      FourBytes(c, b);
    }
  }

  lemma ThreeBytes(c: int, b: seq<Byte>)
    requires IsScalar(c) && 0x800 <= c < 0x10000 && |b| >= 3
    requires b[0] as int == 0xE0 + c / 0x1000 && b[1] as int == 0x80 + c / 0x40 % 0x40
             && b[2] as int == 0x80 + c % 0x40
    ensures ReadPoint(b) == Some((c, 3))
  {
    Digits(c);
    assert (b[0] as int - 0xE0) * 0x1000 + (b[1] as int - 0x80) * 0x40 + (b[2] as int - 0x80) == c;
  }

  lemma FourBytes(c: int, b: seq<Byte>)
    requires 0x10000 <= c < 0x110000 && |b| >= 4
    requires b[0] as int == 0xF0 + c / 0x40000 && b[1] as int == 0x80 + c / 0x1000 % 0x40
             && b[2] as int == 0x80 + c / 0x40 % 0x40 && b[3] as int == 0x80 + c % 0x40
    ensures ReadPoint(b) == Some((c, 4))
  {
    Digits(c);
    assert (b[0] as int - 0xF0) * 0x40000 + (b[1] as int - 0x80) * 0x1000 + (b[2] as int - 0x80) * 0x40
             + (b[3] as int - 0x80) == c;
  }

  lemma TakesItsLength(b: seq<Byte>)
    requires ReadPoint(b).Some?
    ensures var (c, n) := ReadPoint(b).value; IsScalar(c) && n == |Written(c)| <= |b|
  {
  }

  function Encoded(cs: seq<int>): seq<Byte>
    requires forall i :: 0 <= i < |cs| ==> IsScalar(cs[i])
  {
    if cs == [] then [] else Written(cs[0]) + Encoded(cs[1..])
  }

  lemma {:induction false} EncodedReads(cs: seq<int>)
    requires forall i :: 0 <= i < |cs| ==> IsScalar(cs[i])
    ensures Reads(Encoded(cs), cs)
  {
    if cs == [] {
    } else {
      EncodedReads(cs[1..]);
      ReadsWritten(cs[0], Encoded(cs[1..]));
      hide ReadPoint, Written;
      assert Encoded(cs)[|Written(cs[0])|..] == Encoded(cs[1..]);
    }
  }

  function Total(cs: seq<int>): nat
    requires forall i :: 0 <= i < |cs| ==> IsScalar(cs[i])
  {
    if cs == [] then 0 else |Written(cs[0])| + Total(cs[1..])
  }

  lemma {:induction false} TotalIsByteLength(s: Text)
    ensures Total(Points(s)) == ByteLength(s)
  {
    if s == [] {
    } else if |s| >= 2 && IsHighSurrogate(s[0]) && IsLowSurrogate(s[1]) {
      TotalIsByteLength(s[2..]);
      assert Points(s)[1..] == Points(s[2..]);
    } else {
      TotalIsByteLength(s[1..]);
      assert Points(s)[1..] == Points(s[1..]);
    }
  }

  lemma {:induction false} ReadTakesTotal(b: seq<Byte>, cs: seq<int>)
    requires Reads(b, cs) && forall i :: 0 <= i < |cs| ==> IsScalar(cs[i])
    ensures |b| == Total(cs)
    decreases |cs|
  {
    if cs == [] {
    } else {
      TakesItsLength(b);
      hide ReadPoint, Written;
      ReadTakesTotal(b[ReadPoint(b).value.1..], cs[1..]);
    }
  }

  /** The number that a text is priced by is the number of bytes it is sent as: some bytes are read as
      its code points, and any that are so read are that many. */
  lemma ByteLengthIsBytes(s: Text)
    ensures exists b: seq<Byte> :: Reads(b, Points(s))
    ensures forall b: seq<Byte> :: Reads(b, Points(s)) ==> |b| == ByteLength(s)
  {
    EncodedReads(Points(s));
    TotalIsByteLength(s);
    forall b: seq<Byte> | Reads(b, Points(s)) ensures |b| == ByteLength(s) {
      ReadTakesTotal(b, Points(s));
    }
  }
}
