/**
 The checksum of PNG chunks: a table of 256 remainders stands in for shifting a 32-bit
 register bit by bit (W3C PNG Specification, Second Edition, section 5.5 and Annex D).
 */
module Crc {
  import Octets

  function Xor(a: bv32, b: bv32): bv32 { a ^ b }

  function Half(a: bv32): bv32 { a >> 1 }

  predicate Odd(a: bv32) { a & 1 == 1 }

  // ---------------------------------------------------------------- the definition, bit by bit

  /** One bit of the message enters the register. */
  function FeedBit(c: bv32, bit: bv32): bv32 { if Odd(c ^ bit) then 0xEDB88320 ^ (c >> 1) else c >> 1 }

  /** The low `n` bits of `bits` enter the register, lowest first. */
  function FeedBits(c: bv32, bits: bv32, n: nat): bv32
    decreases n
  {
    if n == 0 then c else FeedBits(FeedBit(c, bits & 1), Half(bits), n - 1)
  }

  function FeedByte(c: bv32, byte: bv8): bv32 { FeedBits(c, byte as bv32, 8) }

  function FeedBytes(c: bv32, s: seq<bv8>): bv32
    decreases |s|
  {
    if s == [] then c else FeedBytes(FeedByte(c, s[0]), s[1..])
  }

  /** The checksum as the standard defines it, one bit at a time. */
  function Checksum(s: seq<bv8>): bv32 { Xor(FeedBytes(0xFFFFFFFF, s), 0xFFFFFFFF) }

  // ---------------------------------------------------------------- the shifting register

  function Shift(c: bv32): bv32 { if c & 1 == 1 then 0xEDB88320 ^ (c >> 1) else c >> 1 }

  function Shifts(c: bv32, k: nat): bv32
    decreases k
  {
    if k == 0 then c else Shifts(Shift(c), k - 1)
  }

  lemma OddOdd(a: bv32, b: bv32)
    requires Odd(a) && Odd(b)
    ensures Shift(Xor(a, b)) == Xor(Shift(a), Shift(b))
  {
    assert (a ^ b) >> 1 == (0xEDB88320 ^ (a >> 1)) ^ (0xEDB88320 ^ (b >> 1)) && (a ^ b) & 1 != 1;
  }

  lemma PolynomialMoves(a: bv32, b: bv32)
    ensures 0xEDB88320 ^ ((a ^ b) >> 1) == (0xEDB88320 ^ (a >> 1)) ^ (b >> 1)
  {
  }

  lemma OddFlips(a: bv32, b: bv32)
    requires a & 1 == 1 && b & 1 != 1
    ensures (a ^ b) & 1 == 1
  {
  }

  lemma OddEven(a: bv32, b: bv32)
    requires Odd(a) && !Odd(b)
    ensures Shift(Xor(a, b)) == Xor(Shift(a), Shift(b))
  {
    PolynomialMoves(a, b);
    OddFlips(a, b);
  }

  lemma XorSwap(a: bv32, b: bv32)
    ensures Xor(a, b) == Xor(b, a)
  {
  }

  lemma EvenEven(a: bv32, b: bv32)
    requires !Odd(a) && !Odd(b)
    ensures Shift(Xor(a, b)) == Xor(Shift(a), Shift(b))
  {
    assert (a ^ b) >> 1 == (a >> 1) ^ (b >> 1) && (a ^ b) & 1 != 1;
  }

  /** Shifting is linear. */
  lemma ShiftXor(a: bv32, b: bv32)
    ensures Shift(Xor(a, b)) == Xor(Shift(a), Shift(b))
  {
    hide Shift, Xor, Odd;
    if Odd(a) {
      if Odd(b) { OddOdd(a, b); } else { OddEven(a, b); }
    } else {
      if Odd(b) {
        OddEven(b, a);
        XorSwap(a, b);
        XorSwap(Shift(a), Shift(b));
      } else { EvenEven(a, b); }
    }
  }

  lemma {:induction false} ShiftsXor(a: bv32, b: bv32, k: nat)
    ensures Shifts(Xor(a, b), k) == Xor(Shifts(a, k), Shifts(b, k))
    decreases k
  {
    hide Shift, Xor;
    if k == 0 {
    } else {
      ShiftXor(a, b);
      ShiftsXor(Shift(a), Shift(b), k - 1);
    }
  }

  lemma {:induction false} ShiftsAdd(c: bv32, j: nat, k: nat)
    ensures Shifts(Shifts(c, j), k) == Shifts(c, j + k)
    decreases j
  {
    hide Shift;
    if j == 0 {
    } else {
      ShiftsAdd(Shift(c), j - 1, k);
    }
  }

  lemma HalvesDiffer(a: bv32, b: bv32)
    ensures 0xEDB88320 ^ (a >> 1) != b >> 1
    ensures 0xEDB88320 ^ (a >> 1) == 0xEDB88320 ^ (b >> 1) && a & 1 == 1 && b & 1 == 1 ==> a == b
    ensures a >> 1 == b >> 1 && a & 1 != 1 && b & 1 != 1 ==> a == b
  {
  }

  /** The top bit of the polynomial is set, so a shift can be undone. */
  lemma ShiftInjective(a: bv32, b: bv32)
    requires Shift(a) == Shift(b)
    ensures a == b
  {
    HalvesDiffer(a, b);
    HalvesDiffer(b, a);
  }

  lemma {:induction false} ShiftsInjective(a: bv32, b: bv32, k: nat)
    requires Shifts(a, k) == Shifts(b, k)
    ensures a == b
    decreases k
  {
    hide Shift;
    if k == 0 {
    } else {
      ShiftsInjective(Shift(a), Shift(b), k - 1);
      ShiftInjective(a, b);
    }
  }

  function Halves(c: bv32, k: nat): bv32
    decreases k
  {
    if k == 0 then c else Halves(Half(c), k - 1)
  }

  lemma EightHalves(c: bv32)
    ensures Halves(c, 8) == Half(Half(Half(Half(Half(Half(Half(Half(c))))))))
  {
    hide Half;
    var d := Half(Half(Half(Half(c))));
    assert Halves(c, 8) == Halves(Half(c), 7) == Halves(Half(Half(c)), 6) == Halves(Half(Half(Half(c))), 5) ==
             Halves(d, 4);
    assert Halves(d, 4) == Halves(Half(d), 3) == Halves(Half(Half(d)), 2) == Halves(Half(Half(Half(d))), 1);
  }

  lemma ByteIsGone(byte: bv8)
    ensures Halves(byte as bv32, 8) == 0
  {
    EightHalves(byte as bv32);
    hide Halves;
  }

  lemma LowBit(c: bv32, bits: bv32)
    ensures (c ^ (bits & 1)) & 1 == (c ^ bits) & 1 && (c ^ bits) >> 1 == (c >> 1) ^ (bits >> 1)
  {
  }

  lemma OddFeed(c: bv32, bits: bv32)
    requires Odd(c ^ (bits & 1)) && Odd(c ^ bits)
    ensures Shift(Xor(c, bits)) == Xor(FeedBit(c, bits & 1), Half(bits))
  {
    PolynomialMoves(c, bits);
  }

  lemma EvenFeed(c: bv32, bits: bv32)
    requires !Odd(c ^ (bits & 1)) && !Odd(c ^ bits) && (c ^ bits) >> 1 == (c >> 1) ^ (bits >> 1)
    ensures Shift(Xor(c, bits)) == Xor(FeedBit(c, bits & 1), Half(bits))
  {
  }

  lemma FeedBitIs(c: bv32, bits: bv32)
    ensures Shift(Xor(c, bits)) == Xor(FeedBit(c, bits & 1), Half(bits))
  {
    hide Shift, FeedBit, Xor, Half;
    LowBit(c, bits);
    if Odd(c ^ bits) {
      OddFeed(c, bits);
    } else {
      EvenFeed(c, bits);
    }
  }

  lemma XorTwice(a: bv32, b: bv32)
    ensures Xor(Xor(a, b), b) == a
  {
  }

  /** Feeding bits one at a time, against mixing them all in at once and then shifting. */
  lemma {:induction false} FeedIsShift(c: bv32, bits: bv32, n: nat)
    ensures FeedBits(c, bits, n) == Xor(Shifts(Xor(c, bits), n), Halves(bits, n))
    decreases n
  {
    hide Shift, FeedBit, Xor, Half;
    if n == 0 {
      XorTwice(c, bits);
    } else {
      FeedBitIs(c, bits);
      FeedIsShift(FeedBit(c, bits & 1), Half(bits), n - 1);
    }
  }

  lemma XorZero(a: bv32)
    ensures Xor(a, 0) == a
  {
  }

  lemma FeedByteIs(c: bv32, byte: bv8)
    ensures FeedByte(c, byte) == Shifts(Xor(c, byte as bv32), 8)
  {
    hide Shifts, Xor, Halves, FeedBits;
    FeedIsShift(c, byte as bv32, 8);
    ByteIsGone(byte);
    XorZero(Shifts(Xor(c, byte as bv32), 8));
  }

  // ---------------------------------------------------------------- the table

  predicate LowClear(c: bv32, k: nat)
    decreases k
  {
    k == 0 || (!Odd(c) && LowClear(Half(c), k - 1))
  }

  lemma {:induction false} ClearShifts(c: bv32, k: nat)
    requires LowClear(c, k)
    ensures Shifts(c, k) == Halves(c, k)
    decreases k
  {
    if k == 0 {
    } else {
      assert Shift(c) == Half(c);
      hide Shift, Half, Odd;
      ClearShifts(Half(c), k - 1);
    }
  }

  lemma ClearEight(c: bv32)
    requires c & 0xFF == 0
    ensures LowClear(c, 8)
  {
    var h1 := Half(c);
    var h2 := Half(h1);
    var h3 := Half(h2);
    var h4 := Half(h3);
    var h5 := Half(h4);
    var h6 := Half(h5);
    var h7 := Half(h6);
    assert !Odd(c) && !Odd(h1) && !Odd(h2) && !Odd(h3) && !Odd(h4) && !Odd(h5) && !Odd(h6) && !Odd(h7);
    hide Odd, Half;
    assert LowClear(h7, 1);
    assert LowClear(h6, 2);
    assert LowClear(h5, 3);
    assert LowClear(h4, 4);
    assert LowClear(h3, 5);
    assert LowClear(h2, 6);
    assert LowClear(h1, 7);
  }

  lemma EightHalvesAre(c: bv32)
    ensures Halves(c, 8) == c >> 8
  {
    EightHalves(c);
    hide Halves;
  }

  lemma SplitWord(x: bv32)
    ensures x == Xor(x & 0xFF, x & 0xFFFFFF00) && (x & 0xFFFFFF00) & 0xFF == 0 && (x & 0xFFFFFF00) >> 8 == x >> 8
  {
  }

  /** Eight shifts depend on the low byte only through the table. */
  lemma TableStep(x: bv32)
    ensures Shifts(x, 8) == Xor(Shifts(x & 0xFF, 8), x >> 8)
  {
    hide Xor, Shifts, Halves, LowClear;
    var low, high := x & 0xFF, x & 0xFFFFFF00;
    SplitWord(x);
    ShiftsXor(low, high, 8);
    ClearEight(high);
    ClearShifts(high, 8);
    EightHalvesAre(high);
  }

  /** The register after the single byte `n` has left it. */
  function Remainder(n: nat): bv32
    requires n < 256
  {
    Shifts(n as bv32, 8)
  }

  predicate IsTable(t: seq<bv32>) { |t| == 256 && forall n :: 0 <= n < 256 ==> t[n] == Remainder(n) }

  lemma ShiftsOnce(c: bv32, k: nat)
    requires k > 0
    ensures Shifts(c, k) == Shifts(if c & 1 == 1 then 0xEDB88320 ^ (c >> 1) else c >> 1, k - 1)
    ensures Shifts(c, 0) == c
  {
  }

  lemma RemainderIs(n: nat)
    requires n < 256
    ensures Remainder(n) == Shifts(n as bv32, 8)
  {
  }

  /** The table of the remainders of all single bytes. */
  method MakeTable() returns (table: array<bv32>)
    ensures fresh(table) && IsTable(table[..])
  {
    hide Shifts, Remainder;
    table := new bv32[256];
    for n := 0 to 256
      invariant forall m :: 0 <= m < n ==> table[m] == Remainder(m)
    {
      var c: bv32 := n as bv32;
      RemainderIs(n);
      for k := 0 to 8
        invariant Shifts(c, 8 - k) == Remainder(n)
        invariant forall m :: 0 <= m < n ==> table[m] == Remainder(m)
      {
        ShiftsOnce(c, 8 - k);
        c := if c & 1 == 1 then 0xEDB88320 ^ (c >> 1) else c >> 1;
      }
      ShiftsOnce(c, 1);
      table[n] := c;
    }
  }

  lemma ByteRound(x: bv32)
    ensures (x & 0xFF) as nat < 256 && ((x & 0xFF) as nat) as bv32 == x & 0xFF
  {
    Octets.LowByteIsSmall(x);
    Octets.NumberOfWord(x & 0xFF);
  }

  /** Where a register and the next byte look into the table. */
  function Index(c: bv32, byte: bv8): (k: nat)
    ensures k < 256
  {
    ByteRound(c ^ (byte as bv32));
    ((c ^ (byte as bv32)) & 0xFF) as nat
  }

  lemma IndexFits(c: bv32, byte: bv8)
    ensures Remainder(Index(c, byte)) == Shifts((c ^ (byte as bv32)) & 0xFF, 8)
  {
    hide Shifts, Remainder;
    ByteRound(c ^ (byte as bv32));
    RemainderIs(Index(c, byte));
  }

  lemma XorByte(c: bv32, byte: bv8)
    ensures Xor(c, byte as bv32) == c ^ (byte as bv32) && (c ^ (byte as bv32)) >> 8 == c >> 8
  {
  }

  lemma {:induction false} FeedBytesAppend(c: bv32, s: seq<bv8>, t: seq<bv8>)
    ensures FeedBytes(c, s + t) == FeedBytes(FeedBytes(c, s), t)
    decreases |s|
  {
    hide FeedByte;
    if s == [] {
      assert s + t == t;
    } else {
      assert (s + t)[1..] == s[1..] + t;
      FeedBytesAppend(FeedByte(c, s[0]), s[1..], t);
    }
  }

  lemma EmptyFeeds(c: bv32)
    ensures FeedBytes(c, []) == c
  {
  }

  lemma OneMore(c: bv32, s: seq<bv8>, byte: bv8)
    ensures FeedBytes(c, s + [byte]) == FeedByte(FeedBytes(c, s), byte)
  {
    hide FeedByte;
    FeedBytesAppend(c, s, [byte]);
  }

  /** What one byte does to the register, through the table. */
  lemma FastByte(table: seq<bv32>, c: bv32, byte: bv8)
    requires IsTable(table)
    ensures |table| == 256 && Xor(table[Index(c, byte)], c >> 8) == FeedByte(c, byte)
  {
    hide Shifts, FeedByte, Remainder, Xor, Index;
    FeedByteIs(c, byte);
    XorByte(c, byte);
    TableStep(c ^ (byte as bv32));
    IndexFits(c, byte);
  }

  /** The table-driven loop computes the checksum of the standard, for every byte sequence. */
  method Crc32(table: array<bv32>, bytes: seq<bv8>) returns (r: bv32)
    requires IsTable(table[..])
    ensures r == Checksum(bytes)
  {
    hide FeedByte, FeedBytes, IsTable, Xor, Index;
    EmptyFeeds(0xFFFFFFFF);
    var c: bv32 := 0xFFFFFFFF;
    for i := 0 to |bytes|
      invariant c == FeedBytes(0xFFFFFFFF, bytes[..i])
    {
      FastByte(table[..], c, bytes[i]);
      OneMore(0xFFFFFFFF, bytes[..i], bytes[i]);
      assert bytes[..i + 1] == bytes[..i] + [bytes[i]];
      c := Xor(table[Index(c, bytes[i])], c >> 8);
    }
    assert bytes[..|bytes|] == bytes;
    r := Xor(c, 0xFFFFFFFF);
  }

  // ---------------------------------------------------------------- what the checksum detects

  function Up(x: bv32): bv32 { x << 8 }

  predicate Fits24(x: bv32) { x >> 24 == 0 }

  /** Up to four bytes as one word, first byte lowest. */
  function Word(w: seq<bv8>): bv32
    decreases |w|
  {
    if w == [] then 0 else Xor(w[0] as bv32, Up(Word(w[1..])))
  }

  lemma ByteApart(a: bv8, b: bv8, x: bv32, y: bv32)
    requires Xor(a as bv32, Up(x)) == Xor(b as bv32, Up(y)) && Fits24(x) && Fits24(y)
    ensures a == b && x == y
  {
  }

  lemma UpAndDown(x: bv32)
    requires x >> 24 == 0
    ensures (x << 8) >> 8 == x
  {
  }

  lemma WordGrows(a: bv8, x: bv32)
    ensures x >> 16 == 0 ==> ((a as bv32) ^ (x << 8)) >> 24 == 0
    ensures x >> 8 == 0 ==> ((a as bv32) ^ (x << 8)) >> 16 == 0
    ensures x == 0 ==> ((a as bv32) ^ (x << 8)) >> 8 == 0
  {
  }

  lemma {:induction false} WordIsShort(w: seq<bv8>)
    ensures |w| == 0 ==> Word(w) == 0
    ensures |w| == 1 ==> Word(w) >> 8 == 0
    ensures |w| == 2 ==> Word(w) >> 16 == 0
    ensures |w| == 3 ==> Word(w) >> 24 == 0
    decreases |w|
  {
    if w == [] {
    } else {
      WordIsShort(w[1..]);
      WordGrows(w[0], Word(w[1..]));
    }
  }

  lemma LastByteOut(c: bv32, byte: bv32, x: bv32)
    requires Fits24(x)
    ensures Xor(Shifts(Xor(c, byte), 8), x) == Shifts(Xor(c, Xor(byte, Up(x))), 8)
  {
    hide Xor, Shifts, Halves;
    ShiftsXor(Xor(c, byte), x << 8, 8);
    UpAndDown(x);
    LowByteClear(x);
    ClearEight(x << 8);
    ClearShifts(x << 8, 8);
    EightHalvesAre(x << 8);
    XorAssociates(c, byte, x << 8);
  }

  lemma LowByteClear(x: bv32)
    ensures (x << 8) & 0xFF == 0
  {
  }

  lemma XorAssociates(a: bv32, b: bv32, c: bv32)
    ensures Xor(Xor(a, b), c) == Xor(a, Xor(b, c))
  {
  }

  /** Up to four bytes leave the register as if they had entered as one word. */
  lemma {:induction false} FeedWord(c: bv32, w: seq<bv8>)
    requires |w| <= 4
    ensures FeedBytes(c, w) == Shifts(Xor(c, Word(w)), 8 * |w|)
    decreases |w|
  {
    hide Xor, FeedByte, Shift;
    if w == [] {
      XorZero(c);
    } else {
      var rest := Word(w[1..]);
      var next := FeedByte(c, w[0]);
      FeedWord(next, w[1..]);
      FeedByteIs(c, w[0]);
      WordIsShort(w[1..]);
      ShortWord(w[1..]);
      hide Word, Shifts, Up, Fits24;
      LastByteOut(c, w[0] as bv32, rest);
      ShiftsAdd(Xor(c, Word(w)), 8, 8 * |w[1..]|);
    }
  }

  lemma ShortWord(w: seq<bv8>)
    requires |w| <= 3
    ensures Fits24(Word(w))
  {
    WordIsShort(w);
    hide Word;
  }

  lemma {:induction false} WordInjective(v: seq<bv8>, w: seq<bv8>)
    requires |v| == |w| <= 4 && Word(v) == Word(w)
    ensures v == w
    decreases |v|
  {
    hide Xor, Up, Fits24;
    if v == [] {
    } else {
      ShortWord(v[1..]);
      ShortWord(w[1..]);
      ByteApart(v[0], w[0], Word(v[1..]), Word(w[1..]));
      WordInjective(v[1..], w[1..]);
      assert v == [v[0]] + v[1..] && w == [w[0]] + w[1..];
    }
  }

  lemma XorInjective(a: bv32, b: bv32, c: bv32)
    ensures Xor(a, c) == Xor(b, c) ==> a == b
    ensures Xor(c, a) == Xor(c, b) ==> a == b
  {
  }

  lemma {:induction false} FeedInjective(c: bv32, d: bv32, s: seq<bv8>)
    requires FeedBytes(c, s) == FeedBytes(d, s)
    ensures c == d
    decreases |s|
  {
    hide FeedByte, Xor, Shifts;
    if s == [] {
    } else {
      FeedInjective(FeedByte(c, s[0]), FeedByte(d, s[0]), s[1..]);
      FeedByteIs(c, s[0]);
      FeedByteIs(d, s[0]);
      ShiftsInjective(Xor(c, s[0] as bv32), Xor(d, s[0] as bv32), 8);
      XorInjective(c, d, s[0] as bv32);
    }
  }

  /** Two messages that differ only inside a window of four bytes have different checksums. */
  lemma WindowDetected(before: seq<bv8>, v: seq<bv8>, w: seq<bv8>, after: seq<bv8>)
    requires |v| == |w| <= 4 && v != w
    ensures Checksum(before + v + after) != Checksum(before + w + after)
  {
    hide FeedBytes, Xor, Shifts, Word;
    var c := FeedBytes(0xFFFFFFFF, before);
    if Checksum(before + v + after) == Checksum(before + w + after) {
      FeedBytesAppend(0xFFFFFFFF, before + v, after);
      FeedBytesAppend(0xFFFFFFFF, before + w, after);
      FeedBytesAppend(0xFFFFFFFF, before, v);
      FeedBytesAppend(0xFFFFFFFF, before, w);
      XorInjective(FeedBytes(0xFFFFFFFF, before + v + after), FeedBytes(0xFFFFFFFF, before + w + after), 0xFFFFFFFF);
      FeedInjective(FeedBytes(c, v), FeedBytes(c, w), after);
      FeedWord(c, v);
      FeedWord(c, w);
      ShiftsInjective(Xor(c, Word(v)), Xor(c, Word(w)), 8 * |v|);
      XorInjective(Word(v), Word(w), c);
      WordInjective(v, w);
    }
  }

  /** Messages of one length that differ in exactly one byte have different checksums. */
  lemma OneByteDetected(s: seq<bv8>, i: nat, byte: bv8)
    requires i < |s| && s[i] != byte
    ensures Checksum(s[i := byte]) != Checksum(s)
  {
    assert s == s[..i] + [s[i]] + s[i + 1..];
    assert s[i := byte] == s[..i] + [byte] + s[i + 1..];
    assert [s[i]][0] != [byte][0];
    WindowDetected(s[..i], [s[i]], [byte], s[i + 1..]);
  }

  lemma EightRight(c: bv32, k: nat)
    requires c & 0xFF == 0
    ensures Shifts(c, 8 + k) == Shifts(c >> 8, k)
  {
    hide Shifts, LowClear, Halves;
    ClearEight(c);
    ClearShifts(c, 8);
    EightHalvesAre(c);
    ShiftsAdd(c, 8, k);
  }

  lemma SevenRight()
    ensures Shifts(0x80, 7) == 1
  {
    assert Shifts(0x80, 7) == Shifts(0x40, 6) == Shifts(0x20, 5) == Shifts(0x10, 4);
    assert Shifts(0x10, 4) == Shifts(8, 3) == Shifts(4, 2) == Shifts(2, 1) == Shifts(1, 0);
  }

  lemma PolynomialCancels()
    ensures Shifts(0xDB710641, 32) == 1
  {
    assert Shift(0xDB710641) == 0x80000000;
    hide Shift;
    assert Shifts(0xDB710641, 32) == Shifts(0x80000000, 31);
    hide Shifts;
    EightRight(0x80000000, 23);
    EightRight(0x800000, 15);
    EightRight(0x8000, 7);
    SevenRight();
  }

  /** Four bytes are the limit: the polynomial itself, five bytes wide, goes unnoticed anywhere. */
  lemma FiveBytesCollide(before: seq<bv8>, after: seq<bv8>)
    ensures Checksum(before + [0x41, 0x06, 0x71, 0xDB, 0x01] + after) == Checksum(before + [0, 0, 0, 0, 0] + after)
  {
    hide FeedBytes, Xor, Shifts, FeedByte;
    var v, w: seq<bv8> := [0x41, 0x06, 0x71, 0xDB], [0, 0, 0, 0];
    var c := FeedBytes(0xFFFFFFFF, before);
    FeedWord(c, v);
    FeedWord(c, w);
    TwoWords();
    hide Word;
    ShiftsXor(c, 0xDB710641, 32);
    PolynomialCancels();
    var d := Shifts(c, 32);
    XorZero(c);
    FeedByteIs(Xor(d, 1), 1);
    FeedByteIs(d, 0);
    XorTwice(d, 1);
    XorZero(d);
    OneMore(c, v, 1);
    OneMore(c, w, 0);
    assert v + [1] == [0x41, 0x06, 0x71, 0xDB, 0x01] && w + [0] == [0, 0, 0, 0, 0];
    FeedBytesAppend(0xFFFFFFFF, before, v + [1]);
    FeedBytesAppend(0xFFFFFFFF, before, w + [0]);
    FeedBytesAppend(0xFFFFFFFF, before + (v + [1]), after);
    FeedBytesAppend(0xFFFFFFFF, before + (w + [0]), after);
  }

  lemma TwoWords()
    ensures Word([0x41, 0x06, 0x71, 0xDB]) == 0xDB710641 && Word([0, 0, 0, 0]) == 0
  {
  }
}
