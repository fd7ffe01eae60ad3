/**
 * Document identifiers. The store assigns each inserted document a fresh
 * ObjectId; the model numbers them with a counter. The routes only ever see
 * an id through `str(...)`, which for an ObjectId is its lower-case
 * hexadecimal text, 24 digits for the 12 bytes of a real ObjectId.
 */
module ObjectIds {

  /** The width of the text of a 12-byte ObjectId. */
  const TextWidth: nat := 24

  predicate IsHexDigit(c: char) {
    '0' <= c <= '9' || 'a' <= c <= 'f'
  }

  function DigitValue(c: char): (v: nat)
    ensures v < 16
  {
    if '0' <= c <= '9' then c as int - '0' as int
    else if 'a' <= c <= 'f' then c as int - 'a' as int + 10
    else 0
  }

  function HexDigit(v: nat): (c: char)
    requires v < 16
    ensures IsHexDigit(c) && DigitValue(c) == v
  {
    if v < 10 then ('0' as int + v) as char else ('a' as int + (v - 10)) as char
  }

  /** The shortest hexadecimal text of `n` (one digit for zero). */
  function Hex(n: nat): (s: string)
    ensures |s| >= 1
    ensures forall i :: 0 <= i < |s| ==> IsHexDigit(s[i])
    decreases n
  {
    if n < 16 then [HexDigit(n)] else Hex(n / 16) + [HexDigit(n % 16)]
  }

  function Zeros(k: nat): (s: string)
    ensures |s| == k
    ensures forall i :: 0 <= i < k ==> s[i] == '0'
  {
    if k == 0 then [] else Zeros(k - 1) + ['0']
  }

  /** `str(id)`: the hexadecimal text of an id, left-padded with zeros to
      at least TextWidth digits. */
  function IdText(n: nat): (s: string)
    ensures |s| >= TextWidth
    ensures forall i :: 0 <= i < |s| ==> IsHexDigit(s[i])
  {
    var h := Hex(n);
    if |h| < TextWidth then Zeros(TextWidth - |h|) + h else h
  }

  /** The value of a hexadecimal text, most significant digit first. */
  function ParseHex(s: string): nat {
    if s == [] then 0 else 16 * ParseHex(s[..|s| - 1]) + DigitValue(s[|s| - 1])
  }

  function Pow16(k: nat): (p: nat)
    ensures p >= 1
  {
    if k == 0 then 1 else 16 * Pow16(k - 1)
  }

  lemma {:induction false} ParseHexOfHex(n: nat)
    ensures ParseHex(Hex(n)) == n
    decreases n
  {
    if n >= 16 {
      var s := Hex(n);
      assert s[..|s| - 1] == Hex(n / 16);
      ParseHexOfHex(n / 16);
    }
  }

  lemma {:induction false} ParseHexOfZeros(k: nat)
    ensures ParseHex(Zeros(k)) == 0
  {
    if k > 0 {
      assert Zeros(k)[..k - 1] == Zeros(k - 1);
      ParseHexOfZeros(k - 1);
    }
  }

  /** Leading zeros do not change the value of a hexadecimal text. */
  lemma {:induction false} ParseHexLeadingZeros(k: nat, s: string)
    ensures ParseHex(Zeros(k) + s) == ParseHex(s)
  {
    if s == [] {
      assert Zeros(k) + s == Zeros(k);
      ParseHexOfZeros(k);
    } else {
      var t := Zeros(k) + s;
      assert t[..|t| - 1] == Zeros(k) + s[..|s| - 1];
      ParseHexLeadingZeros(k, s[..|s| - 1]);
    }
  }

  /** The text of an id determines the id: parsing it gives the id back. */
  lemma IdTextRoundTrip(n: nat)
    ensures ParseHex(IdText(n)) == n
  {
    var h := Hex(n);
    ParseHexOfHex(n);
    if |h| < TextWidth {
      ParseHexLeadingZeros(TextWidth - |h|, h);
    }
  }

  /** Distinct ids have distinct texts. */
  lemma IdTextInjective(m: nat, n: nat)
    requires m != n
    ensures IdText(m) != IdText(n)
  {
    IdTextRoundTrip(m);
    IdTextRoundTrip(n);
  }

  lemma {:induction false} HexFits(n: nat, k: nat)
    requires 1 <= k && n < Pow16(k)
    ensures |Hex(n)| <= k
    decreases n
  {
    if n >= 16 {
      assert k != 1;
      assert n / 16 < Pow16(k - 1);
      HexFits(n / 16, k - 1);
    }
  }

  /** Every id below 16^24 (the twelve bytes of an ObjectId) prints as
      exactly 24 hexadecimal digits. */
  lemma IdTextWidth(n: nat)
    requires n < Pow16(TextWidth)
    ensures |IdText(n)| == TextWidth
  {
    HexFits(n, TextWidth);
  }
}
