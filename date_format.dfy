/**
 * `formatDate` of the two edit forms: a date's components rendered as
 * `YYYY-MM-DDTHH:MM:SS` for a `datetime-local` input, every component but
 * the year left-padded with '0' to two digits. Both edit forms carry the
 * same definition, so it is modelled once.
 */
module DateFormat {

  /** The character of decimal digit `d`. */
  function Digit(d: nat): (c: char)
    requires d < 10
    ensures '0' <= c <= '9'
  {
    ('0' as int + d) as char
  }

  /** The value of a decimal digit character (0 for any other character). */
  function DigitValue(c: char): nat
  {
    if '0' <= c <= '9' then c as int - '0' as int else 0
  }

  /** `n.toString()` for a non-negative integer: its decimal digits, no leading zero. */
  function DecimalString(n: nat): (s: string)
    ensures |s| >= 1
    ensures forall k :: 0 <= k < |s| ==> '0' <= s[k] <= '9'
    ensures |s| > 1 ==> s[0] != '0'
  {
    if n < 10 then [Digit(n)] else DecimalString(n / 10) + [Digit(n % 10)]
  }

  /** Reads a string of decimal digits back as a number. */
  function ParseDecimal(s: string): nat
  {
    if |s| == 0 then 0 else ParseDecimal(s[..|s| - 1]) * 10 + DigitValue(s[|s| - 1])
  }

  /** Reading back what `toString` wrote gives the number again. */
  lemma {:induction false} DecimalRoundTrip(n: nat)
    ensures ParseDecimal(DecimalString(n)) == n
  {
    var s := DecimalString(n);
    if n >= 10 {
      DecimalRoundTrip(n / 10);
      assert s[..|s| - 1] == DecimalString(n / 10);
    }
  }

  /** The number of digits `toString` writes for one, two and four digit numbers. */
  lemma DecimalLength(n: nat)
    ensures n < 10 ==> |DecimalString(n)| == 1
    ensures 10 <= n < 100 ==> |DecimalString(n)| == 2
    ensures 1000 <= n < 10000 ==> |DecimalString(n)| == 4
  {
    if 1000 <= n < 10000 {
      assert |DecimalString(n / 10)| == 3 by {
        assert |DecimalString(n / 100)| == 2;
      }
    }
  }

  /** `s.padStart(width, fill)`: `fill` is prepended until `s` is `width` long; a longer `s` is kept. */
  function PadStart(s: string, width: nat, fill: char): (r: string)
    ensures |s| >= width ==> r == s
    ensures |s| < width ==> |r| == width
    ensures |r| >= |s| && r[|r| - |s|..] == s
    ensures forall k :: 0 <= k < |r| - |s| ==> r[k] == fill
  {
    if |s| >= width then s else seq(width - |s|, _ => fill) + s
  }

  /** `n.toString().padStart(2, '0')`. */
  function Pad2(n: nat): string
  {
    PadStart(DecimalString(n), 2, '0')
  }

  /** Below 100 the padded form is exactly the tens digit and the units digit. */
  lemma Pad2Digits(n: nat)
    requires n < 100
    ensures Pad2(n) == [Digit(n / 10), Digit(n % 10)]
    ensures ParseDecimal(Pad2(n)) == n
  {
    DecimalLength(n);
    if n >= 10 {
      assert DecimalString(n) == DecimalString(n / 10) + [Digit(n % 10)];
    }
    var p := Pad2(n);
    assert ParseDecimal(p) == ParseDecimal(p[..1]) * 10 + DigitValue(p[1]);
    assert ParseDecimal(p[..1]) == ParseDecimal(p[..1][..0]) * 10 + DigitValue(p[0]);
  }

  /**
   * `formatDate` from the components a `Date` reports: the full year, the
   * zero-based month, the day of the month, hours, minutes and seconds.
   */
  function FormatDate(year: nat, month: nat, day: nat, hours: nat, minutes: nat, seconds: nat): string
  {
    DecimalString(year) + "-" + Pad2(month + 1) + "-" + Pad2(day) + "T"
      + Pad2(hours) + ":" + Pad2(minutes) + ":" + Pad2(seconds)
  }

  /** The fifteen characters `formatDate` writes after the year, with every component in range. */
  function TimeTail(month: nat, day: nat, hours: nat, minutes: nat, seconds: nat): string
    requires month <= 11 && day < 100 && hours < 100 && minutes < 100 && seconds < 100
  {
    ['-', Digit((month + 1) / 10), Digit((month + 1) % 10),
     '-', Digit(day / 10), Digit(day % 10),
     'T', Digit(hours / 10), Digit(hours % 10),
     ':', Digit(minutes / 10), Digit(minutes % 10),
     ':', Digit(seconds / 10), Digit(seconds % 10)]
  }

  /** The separators and two-character fields after the year, as one sequence. */
  lemma TailLayout(a: string, b: string, c: string, d: string, e: string)
    requires |a| == 2 && |b| == 2 && |c| == 2 && |d| == 2 && |e| == 2
    ensures "-" + a + "-" + b + "T" + c + ":" + d + ":" + e
         == ['-', a[0], a[1], '-', b[0], b[1], 'T', c[0], c[1], ':', d[0], d[1], ':', e[0], e[1]]
  {
  }

  lemma FormatDateShape(year: nat, month: nat, day: nat, hours: nat, minutes: nat, seconds: nat)
    requires month <= 11 && day < 100 && hours < 100 && minutes < 100 && seconds < 100
    ensures FormatDate(year, month, day, hours, minutes, seconds)
         == DecimalString(year) + TimeTail(month, day, hours, minutes, seconds)
  {
    var ys := DecimalString(year);
    var a, b, c, d, e := Pad2(month + 1), Pad2(day), Pad2(hours), Pad2(minutes), Pad2(seconds);
    Pad2Digits(month + 1);
    Pad2Digits(day);
    Pad2Digits(hours);
    Pad2Digits(minutes);
    Pad2Digits(seconds);
    TailLayout(a, b, c, d, e);
    PrefixLayout(ys, a, b, c, d, e);
  }

  lemma PrefixLayout(ys: string, a: string, b: string, c: string, d: string, e: string)
    ensures ys + "-" + a + "-" + b + "T" + c + ":" + d + ":" + e
         == ys + ("-" + a + "-" + b + "T" + c + ":" + d + ":" + e)
  {
  }

  /** Two digits written for `n` read back as `n`. */
  lemma ReadTwoDigits(r: string, i: nat, n: nat)
    requires n < 100 && i + 2 <= |r|
    requires r[i] == Digit(n / 10) && r[i + 1] == Digit(n % 10)
    ensures ParseDecimal(r[i..i + 2]) == n
  {
    var f := r[i..i + 2];
    assert f[..1][..0] == [];
    assert ParseDecimal(f[..1]) == DigitValue(f[0]);
  }

  /**
   * `r` holds, from index `y` on, the fifteen characters that follow the
   * year: each component as two digits that read back as its value, with
   * '-', '-', 'T', ':' and ':' between them.
   */
  predicate TimeLayout(r: string, y: nat, month1: nat, day: nat, hours: nat, minutes: nat, seconds: nat)
  {
    && |r| == y + 15
    && r[y] == '-' && r[y + 3] == '-' && r[y + 6] == 'T' && r[y + 9] == ':' && r[y + 12] == ':'
    && ParseDecimal(r[y + 1..y + 3]) == month1
    && ParseDecimal(r[y + 4..y + 6]) == day
    && ParseDecimal(r[y + 7..y + 9]) == hours
    && ParseDecimal(r[y + 10..y + 12]) == minutes
    && ParseDecimal(r[y + 13..y + 15]) == seconds
  }

  /**
   * For any year, the output is the unpadded year followed by the fifteen
   * characters of TimeLayout, where the month shown is one more than the
   * zero-based month.
   */
  lemma FormatDateFields(year: nat, month: nat, day: nat, hours: nat, minutes: nat, seconds: nat)
    requires month <= 11 && 1 <= day <= 31 && hours <= 23 && minutes <= 59 && seconds <= 59
    ensures FormatDate(year, month, day, hours, minutes, seconds)[..|DecimalString(year)|] == DecimalString(year)
    ensures TimeLayout(FormatDate(year, month, day, hours, minutes, seconds), |DecimalString(year)|,
                       month + 1, day, hours, minutes, seconds)
  {
    FormatDateShape(year, month, day, hours, minutes, seconds);
    FieldsOfTail(FormatDate(year, month, day, hours, minutes, seconds), DecimalString(year),
                 month, day, hours, minutes, seconds);
  }

  lemma FieldsOfTail(r: string, ys: string, month: nat, day: nat, hours: nat, minutes: nat, seconds: nat)
    requires month <= 11 && day < 100 && hours < 100 && minutes < 100 && seconds < 100
    requires r == ys + TimeTail(month, day, hours, minutes, seconds)
    ensures |r| == |ys| + 15 && r[..|ys|] == ys
    ensures TimeLayout(r, |ys|, month + 1, day, hours, minutes, seconds)
  {
    var y := |ys|;
    assert r[..y] == ys;
    ReadTwoDigits(r, y + 1, month + 1);
    ReadTwoDigits(r, y + 4, day);
    ReadTwoDigits(r, y + 7, hours);
    ReadTwoDigits(r, y + 10, minutes);
    ReadTwoDigits(r, y + 13, seconds);
  }

  /**
   * For a four-digit year the output is 19 characters long: the year in
   * indices 0 to 3, '-' at 4 and 7, 'T' at 10 and ':' at 13 and 16.
   */
  lemma FormatDateLayout(year: nat, month: nat, day: nat, hours: nat, minutes: nat, seconds: nat)
    requires 1000 <= year <= 9999
    requires month <= 11 && 1 <= day <= 31 && hours <= 23 && minutes <= 59 && seconds <= 59
    ensures FormatDate(year, month, day, hours, minutes, seconds)[..4] == DecimalString(year)
    ensures ParseDecimal(DecimalString(year)) == year
    ensures TimeLayout(FormatDate(year, month, day, hours, minutes, seconds), 4,
                       month + 1, day, hours, minutes, seconds)
  {
    DecimalLength(year);
    DecimalRoundTrip(year);
    FormatDateFields(year, month, day, hours, minutes, seconds);
  }

  /** Single-digit components are padded with '0'. */
  lemma FormatDateExamplePadded()
    ensures FormatDate(2023, 0, 5, 9, 3, 7) == "2023-01-05T09:03:07"
  {
    assert DecimalString(2023) == "2023" by {
      assert DecimalString(2) == "2";
      assert DecimalString(20) == DecimalString(2) + [Digit(0)] == "20";
      assert DecimalString(202) == DecimalString(20) + [Digit(2)] == "202";
      assert DecimalString(2023) == DecimalString(202) + [Digit(3)];
    }
    FormatDateShape(2023, 0, 5, 9, 3, 7);
    assert TimeTail(0, 5, 9, 3, 7) == "-01-05T09:03:07";
  }

  /** A three-digit year is not padded. */
  lemma FormatDateExampleShortYear()
    ensures FormatDate(987, 11, 25, 23, 59, 59) == "987-12-25T23:59:59"
  {
    assert DecimalString(987) == "987" by {
      assert DecimalString(98) == "98";
    }
    FormatDateShape(987, 11, 25, 23, 59, 59);
    assert TimeTail(11, 25, 23, 59, 59) == "-12-25T23:59:59";
  }
}
