/**
 * `format_number`, defined identically in both the app and the brand-safety
 * analyzer: Python's `f"{num:,}"` on an integer, i.e. the decimal digits with
 * a comma between every group of three counted from the right, and a leading
 * minus sign for negative numbers.
 */
module NumberFormat {

  predicate IsDigit(c: char) {
    '0' <= c <= '9'
  }

  function DigitChar(d: nat): (c: char)
    requires d < 10
    ensures IsDigit(c) && (c as int) - ('0' as int) == d
  {
    (('0' as int) + d) as char
  }

  function DigitValue(c: char): nat
    requires IsDigit(c)
  {
    (c as int) - ('0' as int)
  }

  /** The plain decimal representation of `n` (Python's `str(n)`). */
  function Decimal(n: nat): (s: string)
    ensures |s| > 0
    ensures forall i :: 0 <= i < |s| ==> IsDigit(s[i])
    ensures n > 0 ==> s[0] != '0'
    ensures n < 10 ==> |s| == 1
    decreases n
  {
    if n < 10 then [DigitChar(n)] else Decimal(n / 10) + [DigitChar(n % 10)]
  }

  /** The number a string of decimal digits denotes. */
  function DecimalValue(s: string): nat
    requires forall i :: 0 <= i < |s| ==> IsDigit(s[i])
  {
    if s == [] then 0 else DecimalValue(s[..|s| - 1]) * 10 + DigitValue(s[|s| - 1])
  }

  /** `Decimal` is a faithful representation: reading the digits back gives `n`. */
  lemma {:induction false} DecimalRoundTrip(n: nat)
    ensures DecimalValue(Decimal(n)) == n
    decreases n
  {
    var s := Decimal(n);
    if n >= 10 {
      DecimalRoundTrip(n / 10);
      assert s[..|s| - 1] == Decimal(n / 10);
    }
  }

  /** Exactly three digits, with leading zeros: a group after a comma. */
  function Pad3(m: nat): (s: string)
    requires m < 1000
    ensures |s| == 3 && forall i :: 0 <= i < 3 ==> IsDigit(s[i])
  {
    [DigitChar(m / 100), DigitChar((m / 10) % 10), DigitChar(m % 10)]
  }

  /**
   * From position `from` on, `s` holds only digits and commas, and a comma
   * stands exactly where the distance to the end is 3, 7, 11, ...: every
   * comma is followed by a group of three digits.
   */
  predicate CommaGrouped(s: string, from: nat) {
    forall i :: from <= i < |s| ==> (s[i] == ',' <==> (|s| - 1 - i) % 4 == 3) && (s[i] == ',' || IsDigit(s[i]))
  }

  /** Digits of `n` in groups of three from the right, separated by commas. */
  function Grouped(n: nat): (s: string)
    ensures |s| > 0 && IsDigit(s[0]) && CommaGrouped(s, 0)
    decreases n
  {
    if n < 1000 then
      var d := Decimal(n);
      assert |d| <= 3 by { DecimalLength(n); }
      d
    else
      var head := Grouped(n / 1000);
      CommaPositionsAppend(head, Pad3(n % 1000));
      head + "," + Pad3(n % 1000)
  }

  /** Appending a comma and a three-digit group keeps commas exactly at distances 3 mod 4 from the end. */
  lemma CommaPositionsAppend(head: string, tail: string)
    requires |tail| == 3 && forall i :: 0 <= i < 3 ==> IsDigit(tail[i])
    requires CommaGrouped(head, 0)
    ensures CommaGrouped(head + "," + tail, 0)
  {
    var s := head + "," + tail;
    forall i | 0 <= i < |s|
      ensures (s[i] == ',' <==> (|s| - 1 - i) % 4 == 3) && (s[i] == ',' || IsDigit(s[i]))
    {
      if i < |head| {
        assert s[i] == head[i];
        assert |s| - 1 - i == (|head| - 1 - i) + 4;
      } else if i > |head| {
        assert s[i] == tail[i - |head| - 1];
      }
    }
  }

  lemma {:induction false} DecimalLength(n: nat)
    requires n < 1000
    ensures |Decimal(n)| <= 3
  {
    if n >= 10 {
      DecimalLength(n / 10);
    }
  }

  /** The string with every comma deleted. */
  function RemoveCommas(s: string): string {
    if s == [] then [] else (if s[0] == ',' then [] else [s[0]]) + RemoveCommas(s[1..])
  }

  lemma {:induction false} RemoveCommasAppend(a: string, b: string)
    ensures RemoveCommas(a + b) == RemoveCommas(a) + RemoveCommas(b)
    decreases |a|
  {
    if a == [] {
      assert a + b == b;
    } else {
      var x := if a[0] == ',' then [] else [a[0]];
      assert (a + b)[0] == a[0];
      assert (a + b)[1..] == a[1..] + b;
      RemoveCommasAppend(a[1..], b);
      calc {
        RemoveCommas(a + b);
        x + RemoveCommas(a[1..] + b);
        x + (RemoveCommas(a[1..]) + RemoveCommas(b));
        (x + RemoveCommas(a[1..])) + RemoveCommas(b);
        RemoveCommas(a) + RemoveCommas(b);
      }
    }
  }

  lemma {:induction false} RemoveCommasNoComma(s: string)
    requires forall i :: 0 <= i < |s| ==> IsDigit(s[i])
    ensures RemoveCommas(s) == s
    decreases |s|
  {
    if s != [] {
      RemoveCommasNoComma(s[1..]);
    }
  }

  /** Peeling the last three digits off a number of four or more digits. */
  lemma DecimalSplit3(n: nat)
    requires n >= 1000
    ensures Decimal(n) == Decimal(n / 1000) + Pad3(n % 1000)
  {
    var q, r := n / 1000, n % 1000;
    assert n == 1000 * q + r;
    assert n / 10 == 100 * q + r / 10;
    assert n / 100 == 10 * q + r / 100;
    assert (n / 10) / 10 == n / 100;
    assert (n / 100) / 10 == q;
    assert (n / 100) % 10 == r / 100;
    assert (n / 10) % 10 == (r / 10) % 10;
    assert n % 10 == r % 10;
    assert Decimal(n) == Decimal(n / 10) + [DigitChar(n % 10)];
    assert Decimal(n / 10) == Decimal(n / 100) + [DigitChar((n / 10) % 10)];
    assert Decimal(n / 100) == Decimal(q) + [DigitChar((n / 100) % 10)];
  }

  /** Deleting the commas of the grouped form yields the plain decimal string. */
  lemma {:induction false} GroupedDigits(n: nat)
    ensures RemoveCommas(Grouped(n)) == Decimal(n)
    decreases n
  {
    if n < 1000 {
      RemoveCommasNoComma(Decimal(n));
    } else {
      var head, tail := Grouped(n / 1000), Pad3(n % 1000);
      GroupedDigits(n / 1000);
      RemoveCommasAppend(head + ",", tail);
      RemoveCommasAppend(head, ",");
      RemoveCommasNoComma(tail);
      DecimalSplit3(n);
    }
  }

  /** The magnitude of an integer. */
  function Abs(num: int): nat {
    if num < 0 then -num else num
  }

  /**
   * `format_number(num)`, i.e. `f"{num:,}"`: an optional minus sign, then the
   * digits of `|num|` with a comma exactly at the positions whose distance
   * from the end is 3, 7, 11, ..., so that deleting the commas gives back the
   * plain numeral (whose value is `|num|` by `DecimalRoundTrip`).
   */
  function FormatNumber(num: int): (s: string)
    ensures var sign := if num < 0 then "-" else "";
      && |s| > |sign| && s[..|sign|] == sign
      && IsDigit(s[|sign|]) && CommaGrouped(s, |sign|)
      && RemoveCommas(s) == sign + Decimal(Abs(num))
  {
    var digits := Grouped(Abs(num));
    GroupedDigits(Abs(num));
    if num < 0 then
      NegativeForm(digits);
      "-" + digits
    else
      digits
  }

  lemma NegativeForm(digits: string)
    requires CommaGrouped(digits, 0)
    ensures var s := "-" + digits;
      && s[..1] == "-" && CommaGrouped(s, 1)
      && RemoveCommas(s) == "-" + RemoveCommas(digits)
  {
    RemoveCommasAppend("-", digits);
    var s := "-" + digits;
    forall i | 1 <= i < |s|
      ensures (s[i] == ',' <==> (|s| - 1 - i) % 4 == 3) && (s[i] == ',' || IsDigit(s[i]))
    {
      assert s[i] == digits[i - 1];
    }
  }
}
