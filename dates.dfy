/** Months of the year and the part of `LocalDate.parse(text, ofPattern("yyyy-MM-dd"))`
    that the analyzer uses: the month, or a parse failure. */
module Dates {
  import opened Wrappers

  /** `java.time.Month`, by its value: 1 is JANUARY, 12 is DECEMBER. The enum's
      declaration order (used by `Month.values()` and by a `TreeMap<Month, _>`) is
      the order of these numbers. */
  type Month = m: int | 1 <= m <= 12 witness 1

  predicate IsDigit(c: char) {
    '0' <= c <= '9'
  }

  function DigitValue(c: char): (n: nat)
    requires IsDigit(c)
    ensures n < 10
  {
    c as int - '0' as int
  }

  function Digit(n: nat): (c: char)
    requires n < 10
    ensures IsDigit(c) && DigitValue(c) == n
  {
    ('0' as int + n) as char
  }

  /** The shape `dddd-dd-dd`: a four-digit year, a two-digit month and a two-digit day. */
  predicate IsDateShape(text: string) {
    && |text| == 10
    && IsDigit(text[0]) && IsDigit(text[1]) && IsDigit(text[2]) && IsDigit(text[3])
    && text[4] == '-'
    && IsDigit(text[5]) && IsDigit(text[6])
    && text[7] == '-'
    && IsDigit(text[8]) && IsDigit(text[9])
  }

  function YearField(text: string): nat
    requires IsDateShape(text)
  {
    1000 * DigitValue(text[0]) + 100 * DigitValue(text[1]) + 10 * DigitValue(text[2]) + DigitValue(text[3])
  }

  function MonthField(text: string): nat
    requires IsDateShape(text)
  {
    10 * DigitValue(text[5]) + DigitValue(text[6])
  }

  function DayField(text: string): nat
    requires IsDateShape(text)
  {
    10 * DigitValue(text[8]) + DigitValue(text[9])
  }

  /** The month of a `yyyy-MM-dd` date, or None where `LocalDate.parse` throws.
      Strict parsing demands the whole text and fixed-width month and day fields;
      the year of era must be at least 1, the month 1..12 and the day 1..31. The
      default SMART resolver clamps a day past the end of its month (February 30
      becomes the last day of February), so such a day is accepted. */
  function ParseMonth(text: string): (r: Option<Month>)
    ensures r.Some? <==> IsDateShape(text) && YearField(text) >= 1 && 1 <= MonthField(text) <= 12
                         && 1 <= DayField(text) <= 31
    ensures r.Some? ==> r.value == MonthField(text)
  {
    if IsDateShape(text) && YearField(text) >= 1 && 1 <= MonthField(text) <= 12 && 1 <= DayField(text) <= 31
    then Some(MonthField(text))
    else None
  }

  /** The zero-padded text `yyyy-MM-dd` of a year, month and day field. */
  function FormatDate(year: nat, month: nat, day: nat): (text: string)
    requires year < 10000 && month < 100 && day < 100
    ensures IsDateShape(text)
  {
    SplitDigits(year);
    Digits2(year / 100) + Digits2(year % 100) + ['-'] + Digits2(month) + ['-'] + Digits2(day)
  }

  /** The two decimal digits of a number below 100. */
  function Digits2(n: nat): (text: string)
    requires n < 100
    ensures |text| == 2 && IsDigit(text[0]) && IsDigit(text[1])
    ensures 10 * DigitValue(text[0]) + DigitValue(text[1]) == n
  {
    [Digit(n / 10), Digit(n % 10)]
  }

  lemma SplitDigits(n: nat)
    requires n < 10000
    ensures n / 100 < 100 && 100 * (n / 100) + n % 100 == n
  {
  }

  lemma FieldsOfFormatDate(year: nat, month: nat, day: nat)
    requires year < 10000 && month < 100 && day < 100
    ensures YearField(FormatDate(year, month, day)) == year
    ensures MonthField(FormatDate(year, month, day)) == month
    ensures DayField(FormatDate(year, month, day)) == day
  {
    SplitDigits(year);
    var text := FormatDate(year, month, day);
    var hi, lo := Digits2(year / 100), Digits2(year % 100);
    assert text[0] == hi[0] && text[1] == hi[1] && text[2] == lo[0] && text[3] == lo[1];
    assert YearField(text) == 100 * (10 * DigitValue(hi[0]) + DigitValue(hi[1])) + (10 * DigitValue(lo[0]) + DigitValue(lo[1]));
  }

  /** Every date written with a year 1..9999 and a day 1..31 parses to the month
      it was written with; a month field outside 1..12 is rejected. */
  lemma {:induction false} ParseFormatDate(year: nat, month: nat, day: nat)
    requires 1 <= year < 10000 && month < 100 && 1 <= day <= 31
    ensures ParseMonth(FormatDate(year, month, day)) == if 1 <= month <= 12 then Some(month) else None
  {
    FieldsOfFormatDate(year, month, day);
  }

  lemma Digits2Of(c0: char, c1: char)
    requires IsDigit(c0) && IsDigit(c1)
    ensures Digits2(10 * DigitValue(c0) + DigitValue(c1)) == [c0, c1]
  {
    var n := 10 * DigitValue(c0) + DigitValue(c1);
    assert n / 10 == DigitValue(c0) && n % 10 == DigitValue(c1);
  }

  lemma SplitHundreds(hi: nat, lo: nat)
    requires lo < 100
    ensures (100 * hi + lo) / 100 == hi && (100 * hi + lo) % 100 == lo
  {
  }

  /** Every text that parses is the formatted text of its own fields: nothing else
      (no sign, no extra characters, no other separator) is accepted. */
  lemma {:induction false} ParsedIsFormatted(text: string)
    requires ParseMonth(text).Some?
    ensures YearField(text) < 10000 && DayField(text) < 100
    ensures text == FormatDate(YearField(text), ParseMonth(text).value, DayField(text))
  {
    var hi := 10 * DigitValue(text[0]) + DigitValue(text[1]);
    var lo := 10 * DigitValue(text[2]) + DigitValue(text[3]);
    assert YearField(text) == 100 * hi + lo;
    SplitHundreds(hi, lo);
    Digits2Of(text[0], text[1]);
    Digits2Of(text[2], text[3]);
    Digits2Of(text[5], text[6]);
    Digits2Of(text[8], text[9]);
    assert text == [text[0], text[1]] + [text[2], text[3]] + ['-'] + [text[5], text[6]] + ['-'] + [text[8], text[9]];
  }

  /** The months of the keys of `m` that come before `upto`, in calendar order:
      the order in which a `TreeMap<Month, _>` visits its entries, and in which a
      loop over `Month.values()` meets the months present in a map. */
  function PresentMonthsBefore<V>(m: map<Month, V>, upto: int): seq<Month>
    requires 1 <= upto <= 13
    decreases upto
  {
    if upto == 1 then []
    else if upto - 1 in m then PresentMonthsBefore(m, upto - 1) + [upto - 1]
    else PresentMonthsBefore(m, upto - 1)
  }

  /** `PresentMonthsBefore(m, upto)` lists exactly the keys of `m` below `upto`,
      in increasing order. */
  lemma {:induction false} PresentMonthsBeforeExactly<V>(m: map<Month, V>, upto: int)
    requires 1 <= upto <= 13
    ensures forall i :: 0 <= i < |PresentMonthsBefore(m, upto)| ==>
      PresentMonthsBefore(m, upto)[i] in m && PresentMonthsBefore(m, upto)[i] < upto
    ensures forall i, j :: 0 <= i < j < |PresentMonthsBefore(m, upto)| ==>
      PresentMonthsBefore(m, upto)[i] < PresentMonthsBefore(m, upto)[j]
    ensures forall k :: k in m && k < upto ==> k in PresentMonthsBefore(m, upto)
  {
    if upto > 1 {
      PresentMonthsBeforeExactly(m, upto - 1);
    }
  }

  /** Months present in `m`, January first (each present month is listed: see
      `PresentMonthsComplete`). */
  function PresentMonths<V>(m: map<Month, V>): (months: seq<Month>)
    ensures forall i :: 0 <= i < |months| ==> months[i] in m
    ensures forall i, j :: 0 <= i < j < |months| ==> months[i] < months[j]
  {
    PresentMonthsBeforeExactly(m, 13);
    PresentMonthsBefore(m, 13)
  }

  /** Every month present in `m` is listed by `PresentMonths`. */
  lemma PresentMonthsComplete<V>(m: map<Month, V>, k: Month)
    requires k in m
    ensures exists i :: 0 <= i < |PresentMonths(m)| && PresentMonths(m)[i] == k
  {
    PresentMonthsBeforeExactly(m, 13);
    assert PresentMonths(m) == PresentMonthsBefore(m, 13);
    assert k in PresentMonthsBefore(m, 13);
  }
}
