/**
 Text as the runtime sees it: a sequence of UTF-16 code units.  `length`, `slice`,
 `startsWith` and `includes` work on code units; only the cost hold looks at UTF-8 bytes.
 */
module Text {
  newtype CodeUnit = x: int | 0 <= x < 0x10000

  type Text = seq<CodeUnit>

  predicate IsHighSurrogate(u: CodeUnit) { 0xD800 <= u < 0xDC00 }

  predicate IsLowSurrogate(u: CodeUnit) { 0xDC00 <= u < 0xE000 }

  /** `Buffer.byteLength(s, 'utf8')`: a surrogate pair takes four bytes, and a lone
      surrogate is replaced by U+FFFD, which takes three. */
  function ByteLength(s: Text): (n: nat)
    ensures |s| <= n <= 3 * |s|
  {
    if s == [] then 0
    else if |s| >= 2 && IsHighSurrogate(s[0]) && IsLowSurrogate(s[1]) then 4 + ByteLength(s[2..])
    else (if s[0] < 0x80 then 1 else if s[0] < 0x800 then 2 else 3) + ByteLength(s[1..])
  }

  /** The code units `String.prototype.trim` strips. */
  predicate IsBlank(u: CodeUnit) {
    9 <= u <= 13 || u == 32 || u == 0xA0 || u == 0x1680 || 0x2000 <= u <= 0x200A ||
    u == 0x2028 || u == 0x2029 || u == 0x202F || u == 0x205F || u == 0x3000 || u == 0xFEFF
  }

  function TrimStart(s: Text): Text {
    if s != [] && IsBlank(s[0]) then TrimStart(s[1..]) else s
  }

  function TrimEnd(s: Text): Text {
    if s != [] && IsBlank(s[|s| - 1]) then TrimEnd(s[..|s| - 1]) else s
  }

  function Trim(s: Text): Text { TrimEnd(TrimStart(s)) }

  predicate OccursAt(s: Text, t: Text, i: int) {
    0 <= i <= |s| - |t| && s[i..i + |t|] == t
  }

  /** `s.includes(t)`. */
  predicate Includes(s: Text, t: Text) {
    exists i :: 0 <= i <= |s| && OccursAt(s, t, i)
  }

  /** A literal whose characters each fit one code unit. */
  function Units(s: string): (t: Text)
    ensures |t| == |s|
  {
    seq(|s|, i requires 0 <= i < |s| => if s[i] as int < 0x10000 then s[i] as int as CodeUnit else 0xFFFD)
  }

  // ---------------------------------------------------------------- trimming, by positions

  lemma {:induction false} TrimStartIs(s: Text) returns (a: nat)
    ensures a <= |s| && TrimStart(s) == s[a..] && forall i :: 0 <= i < a ==> IsBlank(s[i])
    ensures a < |s| ==> !IsBlank(s[a])
  {
    hide IsBlank;
    if s == [] || !IsBlank(s[0]) {
      a := 0;
    } else {
      var b := TrimStartIs(s[1..]);
      a := b + 1;
      assert forall i :: 0 < i < a ==> s[i] == s[1..][i - 1];
    }
  }

  lemma {:induction false} TrimEndIs(s: Text) returns (b: nat)
    ensures b <= |s| && TrimEnd(s) == s[..b] && forall i :: b <= i < |s| ==> IsBlank(s[i])
    ensures b > 0 ==> !IsBlank(s[b - 1])
  {
    hide IsBlank;
    if s == [] || !IsBlank(s[|s| - 1]) {
      b := |s|;
    } else {
      b := TrimEndIs(s[..|s| - 1]);
      assert forall i :: b <= i < |s| - 1 ==> s[i] == s[..|s| - 1][i];
    }
  }

  /** A trimmed text is what stands between the first and the last code unit that is not blank. */
  lemma TrimIs(s: Text) returns (a: nat, b: nat)
    ensures a <= b <= |s| && Trim(s) == s[a..b]
    ensures forall i :: 0 <= i < a || b <= i < |s| ==> IsBlank(s[i])
    ensures a < b ==> !IsBlank(s[a]) && !IsBlank(s[b - 1])
  {
    hide IsBlank;
    a := TrimStartIs(s);
    var k := TrimEndIs(s[a..]);
    b := a + k;
    assert forall i :: b <= i < |s| ==> s[i] == s[a..][i - a];
    assert s[a..][..k] == s[a..b];
  }

  // ---------------------------------------------------------------- texts joined, by positions

  function Length(parts: seq<Text>): nat {
    if parts == [] then 0 else Length(parts[..|parts| - 1]) + |parts[|parts| - 1]|
  }

  /** Code unit `u` stands at position `p` when the parts follow each other: inside part `k`,
      behind everything before it. */
  predicate UnitAt(parts: seq<Text>, p: int, u: CodeUnit) {
    exists k :: 0 <= k < |parts| && UnitIn(parts, k, p, u)
  }

  predicate UnitIn(parts: seq<Text>, k: nat, p: int, u: CodeUnit)
    requires k < |parts|
  {
    0 <= p - Length(parts[..k]) < |parts[k]| && parts[k][p - Length(parts[..k])] == u
  }

  /** Text `t` can be read from position `p` on. */
  predicate ShownAt(parts: seq<Text>, t: Text, p: nat) {
    forall q :: 0 <= q < |t| ==> UnitAt(parts, p + q, t[q])
  }

  /** The trimmed text is not empty and can nowhere be read in the parts before it. */
  ghost predicate IsNew(parts: seq<Text>, text: Text) {
    Trim(text) != [] && forall p: nat :: !ShownAt(parts, Trim(text), p)
  }

  lemma {:induction false} UnitOfJoin(parts: seq<Text>, joined: Text, last: Text, p: int, u: CodeUnit)
    requires |joined| == Length(parts)
    requires UnitAt(parts, p, u) <==> 0 <= p < |joined| && joined[p] == u
    ensures Length(parts + [last]) == |joined + last|
    ensures UnitAt(parts + [last], p, u) <==> 0 <= p < |joined + last| && (joined + last)[p] == u
  {
    var more := parts + [last];
    assert more[..|parts|] == parts;
    hide Length;
    forall k | 0 <= k < |parts| ensures UnitIn(more, k, p, u) <==> UnitIn(parts, k, p, u) {
      assert more[..k] == parts[..k];
    }
    hide UnitIn;
    if UnitAt(parts, p, u) {
      var k :| 0 <= k < |parts| && UnitIn(parts, k, p, u);
      assert UnitIn(more, k, p, u);
    }
    LastUnit(parts, joined, last, p, u);
  }

  lemma LastUnit(parts: seq<Text>, joined: Text, last: Text, p: int, u: CodeUnit)
    requires |joined| == Length(parts)
    ensures UnitIn(parts + [last], |parts|, p, u) <==>
              |joined| <= p < |joined + last| && (joined + last)[p] == u
  {
    assert (parts + [last])[..|parts|] == parts;
  }

  /** Being included is being readable from some position. */
  lemma IncludesIsShown(parts: seq<Text>, joined: Text, t: Text)
    requires t != [] && forall p, u :: UnitAt(parts, p, u) <==> 0 <= p < |joined| && joined[p] == u
    ensures Includes(joined, t) <==> exists p: nat :: ShownAt(parts, t, p)
  {
    hide UnitAt;
    if Includes(joined, t) {
      var i :| 0 <= i <= |joined| && OccursAt(joined, t, i);
      forall q | 0 <= q < |t| ensures UnitAt(parts, i + q, t[q]) {
        assert joined[i..i + |t|][q] == joined[i + q];
      }
      assert ShownAt(parts, t, i);
    }
    if exists p: nat :: ShownAt(parts, t, p) {
      var p: nat :| ShownAt(parts, t, p);
      assert UnitAt(parts, p + (|t| - 1), t[|t| - 1]);
      forall q | 0 <= q < |t| ensures joined[p..p + |t|][q] == t[q] {
        assert UnitAt(parts, p + q, t[q]);
      }
      assert joined[p..p + |t|] == t;
      assert OccursAt(joined, t, p);
    }
  }
}
