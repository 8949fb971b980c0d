/** Calendar dates as the application stores them (`datetime.date`) and the
    `strftime` patterns it prints them with. */
module Dates {
  import opened PyValues

  type Year = y: nat | 1 <= y <= 9999 witness 1
  type Month = m: nat | 1 <= m <= 12 witness 1
  type Day = d: nat | 1 <= d <= 31 witness 1

  /** A `datetime.date`; the field ranges are those Python enforces. */
  datatype Date = Date(year: Year, month: Month, day: Day)

  /** A two-digit, zero-padded field (`%m`, `%d`). */
  function Pad2(n: nat): (s: string)
    requires n < 100
    ensures |s| == 2 && AllDigits(s)
  {
    [DigitChar(n / 10), DigitChar(n % 10)]
  }

  /** `%Y`: the year in decimal, as glibc prints it. */
  function YearText(d: Date): (s: string)
    ensures 1 <= |s| <= 4 && AllDigits(s)
  {
    DigitsBound(d.year, 4);
    IntToString(d.year)
  }

  /** `strftime('%Y-%m-%d')`: digits only, apart from the two dashes. */
  function IsoText(d: Date): (s: string)
    ensures 7 <= |s| <= 10
    ensures IsDigit(s[0]) && s[|s| - 3] == '-' && s[|s| - 6] == '-'
  {
    YearText(d) + "-" + Pad2(d.month) + "-" + Pad2(d.day)
  }

  /** `strftime('%d/%m/%Y')`. */
  function DayMonthYearText(d: Date): (s: string)
  {
    Pad2(d.day) + "/" + Pad2(d.month) + "/" + YearText(d)
  }

  /** `strftime('%m/%Y')`. */
  function MonthYearText(d: Date): (s: string)
  {
    Pad2(d.month) + "/" + YearText(d)
  }

  function Pow10(k: nat): (p: nat)
    ensures p >= 1
  {
    if k == 0 then 1 else 10 * Pow10(k - 1)
  }

  /** A number below `10^k` prints as at most `k` digits. */
  lemma {:induction false} DigitsBound(n: nat, k: nat)
    requires 1 <= k && n < Pow10(k)
    ensures |NatToDigits(n)| <= k
    decreases k
  {
    if n >= 10 {
      DigitsBound(n / 10, k - 1);
    }
  }

  /** Python's ordering of `datetime.date` values: by year, then month, then day. */
  predicate Before(a: Date, b: Date) {
    a.year < b.year
    || (a.year == b.year && a.month < b.month)
    || (a.year == b.year && a.month == b.month && a.day < b.day)
  }

  /** An integer sort key for a date. */
  function Key(d: Date): int {
    d.year * 10000 + d.month * 100 + d.day
  }

  /** The integer key orders dates exactly as Python compares them. */
  lemma KeyOrdersLikeDates(a: Date, b: Date)
    ensures Key(a) < Key(b) <==> Before(a, b)
  {
    if a.year < b.year {
      assert Key(a) <= a.year * 10000 + 1231;
      assert b.year * 10000 >= (a.year + 1) * 10000;
    } else if a.year > b.year {
      assert Key(b) <= b.year * 10000 + 1231;
      assert a.year * 10000 >= (b.year + 1) * 10000;
    }
  }
}
