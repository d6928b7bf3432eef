/**
 * `date.toLocaleDateString("fr-CA")`, the text the date pickers put into the
 * pass and permission forms: `YYYY-MM-DD` with a zero-padded month and day.
 */
module Dates {
  import opened Wrappers
  import Validation

  /** A calendar date as the picker hands it over; the year is assumed to have four digits. */
  datatype Date = Date(year: int, month: int, day: int)

  predicate ValidDate(d: Date) {
    1000 <= d.year <= 9999 && 1 <= d.month <= 12 && 1 <= d.day <= 31
  }

  function DigitChar(n: int): char
    requires 0 <= n <= 9
  {
    ('0' as int + n) as char
  }

  function DigitValue(c: char): int {
    c as int - '0' as int
  }

  /** `n` written with exactly `width` decimal digits, most significant first, zero-padded. */
  function Padded(n: nat, width: nat): (r: string)
    ensures |r| == width
    ensures forall i :: 0 <= i < width ==> Validation.IsDigit(r[i])
  {
    if width == 0 then [] else Padded(n / 10, width - 1) + [DigitChar(n % 10)]
  }

  function Pow10(k: nat): nat {
    if k == 0 then 1 else 10 * Pow10(k - 1)
  }

  /** The number a run of decimal digits spells. */
  function NumberOf(s: string): int {
    if s == [] then 0 else 10 * NumberOf(s[..|s| - 1]) + DigitValue(s[|s| - 1])
  }

  lemma {:induction false} NumberOfPadded(n: nat, width: nat)
    requires n < Pow10(width)
    ensures NumberOf(Padded(n, width)) == n
  {
    if width > 0 {
      var r := Padded(n, width);
      assert r[..|r| - 1] == Padded(n / 10, width - 1);
      assert n / 10 < Pow10(width - 1);
      NumberOfPadded(n / 10, width - 1);
    }
  }

  /** The fr-CA date text. */
  function FrCa(d: Date): (r: string)
    requires ValidDate(d)
    ensures |r| == 10 && r[4] == '-' && r[7] == '-'
  {
    Padded(d.year, 4) + "-" + Padded(d.month, 2) + "-" + Padded(d.day, 2)
  }

  /** Reads `YYYY-MM-DD` back; `None` for any other text. */
  function ParseFrCa(s: string): Option<Date> {
    if |s| == 10 && s[4] == '-' && s[7] == '-'
       && (forall i :: 0 <= i < 10 && i != 4 && i != 7 ==> Validation.IsDigit(s[i]))
    then Some(Date(NumberOf(s[..4]), NumberOf(s[5..7]), NumberOf(s[8..])))
    else None
  }

  /** The text a picker stores always reads back as the picked date. */
  lemma ParseFrCaRoundTrip(d: Date)
    requires ValidDate(d)
    ensures ParseFrCa(FrCa(d)) == Some(d)
  {
    var y, m, dd := Padded(d.year, 4), Padded(d.month, 2), Padded(d.day, 2);
    var s := FrCa(d);
    assert s[..4] == y && s[5..7] == m && s[8..] == dd;
    assert Pow10(2) == 100 && Pow10(4) == 10000;
    NumberOfPadded(d.year, 4);
    NumberOfPadded(d.month, 2);
    NumberOfPadded(d.day, 2);
    forall i | 0 <= i < 10 && i != 4 && i != 7 ensures Validation.IsDigit(s[i]) {
      if i < 4 { assert s[i] == y[i]; }
      else if i < 7 { assert s[i] == m[i - 5]; }
      else { assert s[i] == dd[i - 8]; }
    }
  }
}
