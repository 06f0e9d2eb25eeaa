/** Byte strings and their decimal rendering of numbers. */
module ByteStrings {

  newtype byte = x: int | 0 <= x < 256

  type Bytes = seq<byte>

  /** std::to_string on a non-negative integer. */
  function Decimal(n: nat): Bytes {
    if n < 10 then [(48 + n) as byte] else Decimal(n / 10) + [(48 + n % 10) as byte]
  }

  function DecimalInt(n: int): Bytes {
    if n < 0 then [45] + Decimal(-n) else Decimal(n)
  }

  function DigitValue(s: Bytes): int {
    if |s| == 0 then 0 else 10 * DigitValue(s[..|s| - 1]) + (s[|s| - 1] as int - 48)
  }

  predicate AllDigits(s: Bytes) {
    forall i :: 0 <= i < |s| ==> 48 <= s[i] <= 57
  }

  /** Decimal text consists of digits and reads back as the number. */
  lemma {:induction false} DecimalReads(n: nat)
    ensures |Decimal(n)| > 0 && AllDigits(Decimal(n)) && DigitValue(Decimal(n)) == n
  {
    if n < 10 {
      var s: Bytes := [(48 + n) as byte];
      assert s[..0] == [];
      assert DigitValue(s) == 10 * DigitValue(s[..0]) + n;
    } else {
      DecimalReads(n / 10);
      var s := Decimal(n);
      assert s[..|s| - 1] == Decimal(n / 10);
    }
  }

  lemma {:induction false} DigitsNonNegative(s: Bytes)
    requires AllDigits(s)
    ensures DigitValue(s) >= 0
  {
    if |s| > 0 {
      DigitsNonNegative(s[..|s| - 1]);
    }
  }

  lemma DecimalIntInjective(m: int, n: int)
    ensures DecimalInt(m) == DecimalInt(n) <==> m == n
  {
    DecimalReads(if m < 0 then -m else m);
    DecimalReads(if n < 0 then -n else n);
    assert Decimal(if m < 0 then -m else m)[0] >= 48;
    assert Decimal(if n < 0 then -n else n)[0] >= 48;
    if DecimalInt(m) == DecimalInt(n) && m < 0 && n < 0 {
      assert DecimalInt(m)[1..] == Decimal(-m) && DecimalInt(n)[1..] == Decimal(-n);
    }
  }
}
