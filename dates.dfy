/** Calendar dates: the Gregorian calendar moment uses to add days to "now",
    the `YYYY-MM-DD` rendering that names cache keys, and the ISO date-only
    form that `new Date(string)` reads for a birthday. */
module Dates {
  import opened Wrappers
  import opened Text

  datatype Date = Date(year: nat, month: nat, day: nat)

  predicate IsLeapYear(y: nat)
  {
    y % 4 == 0 && (y % 100 != 0 || y % 400 == 0)
  }

  function DaysInMonth(y: nat, m: nat): (n: nat)
    requires 1 <= m <= 12
    ensures 28 <= n <= 31
  {
    if m == 2 then (if IsLeapYear(y) then 29 else 28)
    else if m == 4 || m == 6 || m == 9 || m == 11 then 30
    else 31
  }

  /** A date that exists in the calendar. */
  predicate Valid(d: Date)
  {
    1 <= d.month <= 12 && 1 <= d.day <= DaysInMonth(d.year, d.month)
  }

  /** The day after `d`. */
  function NextDay(d: Date): (r: Date)
    requires Valid(d)
    ensures Valid(r)
    ensures r.year == d.year || (r.year == d.year + 1 && r.month == 1 && r.day == 1)
  {
    if d.day < DaysInMonth(d.year, d.month) then Date(d.year, d.month, d.day + 1)
    else if d.month < 12 then Date(d.year, d.month + 1, 1)
    else Date(d.year + 1, 1, 1)
  }

  /** `d` moved `n` days forward, as moment's `add(n, 'days')`. */
  function AddDays(d: Date, n: nat): (r: Date)
    requires Valid(d)
    ensures Valid(r)
    decreases n
  {
    if n == 0 then d else AddDays(NextDay(d), n - 1)
  }

  lemma {:induction false} AddDaysCompose(d: Date, m: nat, n: nat)
    requires Valid(d)
    ensures AddDays(AddDays(d, m), n) == AddDays(d, m + n)
    decreases m
  {
    if m > 0 {
      AddDaysCompose(NextDay(d), m - 1, n);
    }
  }

  /** A number that grows with the date, in calendar order. */
  function Serial(d: Date): nat
  {
    d.year * 416 + d.month * 32 + d.day
  }

  /** Moving forward never goes back, and moving at least one day goes
      forward. */
  lemma {:induction false} AddDaysAdvances(d: Date, n: nat)
    requires Valid(d)
    ensures Serial(d) <= Serial(AddDays(d, n))
    ensures n > 0 ==> Serial(d) < Serial(AddDays(d, n))
    decreases n
  {
    if n > 0 {
      AddDaysAdvances(NextDay(d), n - 1);
    }
  }

  /** Different day counts added to one date give different dates. */
  lemma AddDaysDistinct(d: Date, i: nat, j: nat)
    requires Valid(d) && i < j
    ensures AddDays(d, i) != AddDays(d, j)
  {
    AddDaysCompose(d, i, j - i);
    AddDaysAdvances(AddDays(d, i), j - i);
  }

  /** Two dates that fall on the same month and day, whatever their years. */
  predicate SameMonthDay(a: Date, b: Date)
  {
    a.month == b.month && a.day == b.day
  }

  /** moment's `format('YYYY-MM-DD')`: the year padded to at least four
      digits, month and day to two. */
  function Format(d: Date): (s: string)
    requires Valid(d)
    ensures |s| >= 10
  {
    ZeroPad(NatToString(d.year), 4) + "-" + ZeroPad(NatToString(d.month), 2) + "-"
      + ZeroPad(NatToString(d.day), 2)
  }

  /** Reads `Y...Y-MM-DD` (at least four year digits) into a date, as the
      ISO date-only form of `new Date(string)`: the month must be 1 to 12
      and the day 1 to 31, and a day past the month's end rolls over into
      the next month. `None` for any other text. */
  function Parse(s: string): (r: Option<Date>)
    ensures r.Some? ==> Valid(r.value)
  {
    if |s| < 10 || s[|s| - 6] != '-' || s[|s| - 3] != '-' then None
    else FromFields(s[..|s| - 6], s[|s| - 5..|s| - 3], s[|s| - 2..])
  }

  /** The date named by a year, a month and a day field: the day-th day
      counted from the first of the month. */
  function FromFields(y: string, mm: string, dd: string): (r: Option<Date>)
    ensures r.Some? ==> Valid(r.value)
  {
    if !IsDigits(y) || !IsDigits(mm) || !IsDigits(dd) then None
    else
      var month := DigitsValue(mm);
      var day := DigitsValue(dd);
      if 1 <= month <= 12 && 1 <= day <= 31 then Some(AddDays(Date(DigitsValue(y), month, 1), day - 1))
      else None
  }

  /** Moving forward inside a month only advances the day. */
  lemma {:induction false} AddDaysWithinMonth(d: Date, n: nat)
    requires Valid(d) && d.day + n <= DaysInMonth(d.year, d.month)
    ensures AddDays(d, n) == Date(d.year, d.month, d.day + n)
    decreases n
  {
    if n > 0 {
      AddDaysWithinMonth(NextDay(d), n - 1);
    }
  }

  /** The day-th day from the first of a month: the date itself when the
      month has that day, otherwise the day past the month's length in the
      next month. */
  lemma CountFromFirst(y: nat, m: nat, day: nat)
    requires 1 <= m <= 12 && 1 <= day <= 31
    ensures AddDays(Date(y, m, 1), day - 1)
      == if day <= DaysInMonth(y, m) then Date(y, m, day)
         else if m < 12 then Date(y, m + 1, day - DaysInMonth(y, m))
         else Date(y + 1, 1, day - 31)
  {
    var len := DaysInMonth(y, m);
    if day <= len {
      AddDaysWithinMonth(Date(y, m, 1), day - 1);
    } else {
      AddDaysCompose(Date(y, m, 1), len - 1, day - len);
      AddDaysWithinMonth(Date(y, m, 1), len - 1);
      var first := NextDay(Date(y, m, len));
      AddDaysWithinMonth(first, day - len - 1);
    }
  }

  lemma PadTwoDigits(n: nat)
    requires 1 <= n <= 31
    ensures |ZeroPad(NatToString(n), 2)| == 2
    ensures IsDigits(ZeroPad(NatToString(n), 2))
    ensures DigitsValue(ZeroPad(NatToString(n), 2)) == n
  {
    NatToStringValue(n);
    ZeroPadValue(NatToString(n), 2);
  }

  /** Splitting a `Y-M-D` text at its separators recovers the three parts. */
  lemma ParseParts(y: string, mm: string, dd: string)
    requires |y| >= 4 && |mm| == 2 && |dd| == 2
    ensures Parse(y + "-" + mm + "-" + dd) == FromFields(y, mm, dd)
  {
    var s := y + "-" + mm + "-" + dd;
    assert s[..|s| - 6] == y;
    assert s[|s| - 5..|s| - 3] == mm;
    assert s[|s| - 2..] == dd;
    assert s[|s| - 6] == '-' && s[|s| - 3] == '-';
  }

  /** A `YYYY-MM-DD` text with a month of 1 to 12 and a day of 1 to 31 is
      accepted; a day the month does not have rolls over into the next
      month (`2023-02-29` is the first of March). */
  lemma ParseRollsOver(y: nat, m: nat, day: nat)
    requires 1 <= m <= 12 && 1 <= day <= 31
    ensures Parse(ZeroPad(NatToString(y), 4) + "-" + ZeroPad(NatToString(m), 2) + "-" + ZeroPad(NatToString(day), 2))
      == Some(if day <= DaysInMonth(y, m) then Date(y, m, day)
              else if m < 12 then Date(y, m + 1, day - DaysInMonth(y, m))
              else Date(y + 1, 1, day - 31))
  {
    NatToStringValue(y);
    ZeroPadValue(NatToString(y), 4);
    PadTwoDigits(m);
    PadTwoDigits(day);
    ParseParts(ZeroPad(NatToString(y), 4), ZeroPad(NatToString(m), 2), ZeroPad(NatToString(day), 2));
    CountFromFirst(y, m, day);
  }

  /** Reading back a rendered date gives the date. */
  lemma ParseFormat(d: Date)
    requires Valid(d)
    ensures Parse(Format(d)) == Some(d)
  {
    ParseRollsOver(d.year, d.month, d.day);
  }

  /** Distinct dates render differently. */
  lemma FormatInjective(a: Date, b: Date)
    requires Valid(a) && Valid(b)
    requires Format(a) == Format(b)
    ensures a == b
  {
    ParseFormat(a);
    ParseFormat(b);
  }
}
