/**
 Names of the assignments a batch creates: `b<length>-<batch>-<item>`.  Both parts may hold
 hyphens and digits, so the written length is what makes the name readable again.
 */
module RunIds {
  import opened Wrappers

  predicate IsDigit(c: char) { '0' <= c <= '9' }

  predicate IsIdChar(c: char) { 'A' <= c <= 'Z' || 'a' <= c <= 'z' || IsDigit(c) || c == '_' || c == '-' }

  predicate IsId(s: string, longest: nat) { 1 <= |s| <= longest && forall i :: 0 <= i < |s| ==> IsIdChar(s[i]) }

  const BATCH_LONGEST := 39
  const ITEM_LONGEST := 20
  const RUN_LONGEST := 64

  predicate BatchId(s: string) { IsId(s, BATCH_LONGEST) }
  predicate ItemId(s: string) { IsId(s, ITEM_LONGEST) }
  predicate RunId(s: string) { IsId(s, RUN_LONGEST) }

  function Digit(d: nat): char
    requires d < 10
  {
    '0' + (d as char)
  }

  function Decimal(n: nat): string {
    if n < 10 then [Digit(n)] else Decimal(n / 10) + [Digit(n % 10)]
  }

  function DigitValue(c: char): nat
    requires IsDigit(c)
  {
    (c - '0') as nat
  }

  function Encode(batch: string, item: string): string {
    "b" + Decimal(|batch|) + "-" + batch + "-" + item
  }

  // ---------------------------------------------------------------- reading a name back

  function FirstHyphen(s: string): (k: nat)
    ensures k <= |s|
    ensures forall i :: 0 <= i < k ==> s[i] != '-'
    ensures k < |s| ==> s[k] == '-'
  {
    if s == "" || s[0] == '-' then 0 else FirstHyphen(s[1..]) + 1
  }

  function Value(s: string): nat
    requires forall i :: 0 <= i < |s| ==> IsDigit(s[i])
  {
    if s == "" then 0 else 10 * Value(s[..|s| - 1]) + DigitValue(s[|s| - 1])
  }

  function Decode(s: string): Option<(string, string)> {
    if s == "" || s[0] != 'b' then None else
    var k := FirstHyphen(s[1..]);
    if k == |s| - 1 || exists i :: 0 <= i < k && !IsDigit(s[1..][i]) then None else
    var n := Value(s[1..][..k]);
    var rest := s[k + 2..];
    if n >= |rest| || rest[n] != '-' then None else Some((rest[..n], rest[n + 1..]))
  }

  lemma {:induction false} DecimalReads(n: nat)
    ensures |Decimal(n)| > 0 && (forall i :: 0 <= i < |Decimal(n)| ==> IsDigit(Decimal(n)[i]))
    ensures Value(Decimal(n)) == n
  {
    var s := Decimal(n);
    if n >= 10 {
      DecimalReads(n / 10);
      assert s[..|s| - 1] == Decimal(n / 10);
    } else {
      assert Value(s) == 10 * Value(s[..0]) + n;
    }
  }

  lemma {:induction false} HyphenAfter(digits: string, tail: string)
    requires forall i :: 0 <= i < |digits| ==> digits[i] != '-'
    ensures FirstHyphen(digits + "-" + tail) == |digits|
  {
    var s := digits + "-" + tail;
    assert s[|digits|] == '-';
    assert forall i :: 0 <= i < |digits| ==> s[i] == digits[i];
  }

  /** Reading a name back gives the batch and the item it was made from. */
  lemma DecodesWhatWasEncoded(batch: string, item: string)
    ensures Decode(Encode(batch, item)) == Some((batch, item))
  {
    hide Value, Decimal;
    var d, tail := Decimal(|batch|), batch + "-" + item;
    DecimalReads(|batch|);
    HyphenAfter(d, tail);
    var body := d + "-" + tail;
    var s := Encode(batch, item);
    assert s == "b" + body;
    assert s[1..] == body && body[..|d|] == d && s[|d| + 2..] == tail;
    assert forall i :: 0 <= i < |d| ==> body[i] == d[i];
    assert tail[..|batch|] == batch && tail[|batch|] == '-' && tail[|batch| + 1..] == item;
  }

  /** No two pairs share a name. */
  lemma NamesAreUnique(batch: string, item: string, batch': string, item': string)
    requires Encode(batch, item) == Encode(batch', item')
    ensures batch == batch' && item == item'
  {
    DecodesWhatWasEncoded(batch, item);
    DecodesWhatWasEncoded(batch', item');
  }

  function WithoutLength(batch: string, item: string): string { batch + "-" + item }

  /** Without the length, two different pairs would share a name. */
  lemma HyphensAloneAreAmbiguous()
    ensures BatchId("a") && ItemId("b-c") && BatchId("a-b") && ItemId("c")
    ensures WithoutLength("a", "b-c") == WithoutLength("a-b", "c")
  {
    assert WithoutLength("a", "b-c") == "a-b-c";
    assert WithoutLength("a-b", "c") == "a-b-c";
  }

  /** What may stand in a name, by code: letters, digits, the underscore and the hyphen. */
  lemma LegalNames(s: string, longest: nat)
    ensures IsId(s, longest) <==>
              && 0 < |s| <= longest
              && forall i :: 0 <= i < |s| ==>
                   var code := s[i] as int;
                   65 <= code <= 90 || 97 <= code <= 122 || 48 <= code <= 57 || code == 95 || code == 45
  {
  }

  /** Every name made from legal parts meets the dispatcher's rule, exactly at its limit for
      the longest parts. */
  lemma NamesFit(batch: string, item: string)
    requires BatchId(batch) && ItemId(item)
    ensures RunId(Encode(batch, item))
    ensures |batch| == BATCH_LONGEST && |item| == ITEM_LONGEST ==> |Encode(batch, item)| == RUN_LONGEST
  {
    var n := |batch|;
    DecimalReads(n);
    assert |Decimal(n)| == if n < 10 then 1 else 2;
  }
}
