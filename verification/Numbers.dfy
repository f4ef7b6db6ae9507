/**
  Integers as decimal text.
 */
module Numbers {

  predicate IsDigit(c: char) {
    '0' <= c <= '9'
  }

  function DigitOf(n: nat): char
    requires n < 10
  {
    (n + 48) as char
  }

  function DigitValue(c: char): int {
    c as int - 48
  }

  /** The decimal digits of n. */
  function Digits(n: nat): string {
    if n < 10 then [DigitOf(n)] else Digits(n / 10) + [DigitOf(n % 10)]
  }

  /** Signed decimal, as a printer of integers writes it. */
  function Decimal(n: int): string {
    if n < 0 then "-" + Digits(-n) else Digits(n)
  }

  predicate AllDigits(s: string) {
    forall i :: 0 <= i < |s| ==> IsDigit(s[i])
  }

  /** The number that a run of digits denotes; other characters are skipped. */
  function Value(s: string): int {
    if s == "" then 0
    else
      var n := |s| - 1;
      if IsDigit(s[n]) then Value(s[..n]) * 10 + DigitValue(s[n]) else Value(s[..n])
  }

  lemma {:induction false} DigitsDenote(n: nat)
    ensures Digits(n) != "" && AllDigits(Digits(n)) && Value(Digits(n)) == n
  {
    if n >= 10 {
      DigitsDenote(n / 10);
      var s := Digits(n);
      assert s[..|s| - 1] == Digits(n / 10);
    } else {
      assert Digits(n)[..0] == "";
    }
  }

  /** Three digits, padded with zeros. */
  function Pad3(n: nat): string
    requires n < 1000
  {
    [DigitOf(n / 100), DigitOf(n / 10 % 10), DigitOf(n % 10)]
  }

  lemma Pad3Denotes(n: nat)
    requires n < 1000
    ensures AllDigits(Pad3(n)) && Value(Pad3(n)) == n
  {
    hide Value, Pad3, DigitValue, AllDigits;
    PadDigits(n);
    ThreeDigits(Pad3(n));
  }

  lemma PadDigits(n: nat)
    requires n < 1000
    ensures AllDigits(Pad3(n)) && |Pad3(n)| == 3
    ensures DigitValue(Pad3(n)[0]) * 100 + DigitValue(Pad3(n)[1]) * 10 + DigitValue(Pad3(n)[2]) == n
  {
    assert DigitValue(DigitOf(n / 100)) == n / 100 && DigitValue(DigitOf(n / 10 % 10)) == n / 10 % 10;
  }

  lemma ThreeDigits(s: string)
    requires |s| == 3 && AllDigits(s)
    ensures Value(s) == DigitValue(s[0]) * 100 + DigitValue(s[1]) * 10 + DigitValue(s[2])
  {
    assert s[..2][..1] == s[..1] && s[..1][..0] == "";
    assert Value(s[..1]) == DigitValue(s[0]);
    assert Value(s[..2]) == DigitValue(s[0]) * 10 + DigitValue(s[1]);
  }

  /** A printed natural number is its digits. */
  lemma DecimalIsDigits(n: nat)
    ensures Decimal(n) == Digits(n) && AllDigits(Decimal(n)) && Value(Decimal(n)) == n && Decimal(n) != ""
  {
    DigitsDenote(n);
  }
}
