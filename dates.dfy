/** Calendar dates as the date-range validator of `utils.py` sees them:
    Python's `datetime.strptime(s, '%Y-%m-%d').date()`, the comparison of two
    dates and the number of days between them. A date is counted by its
    proleptic Gregorian day number, 1 for 0001-01-01. */
module Dates {
  import opened Text
  import opened Wrappers

  datatype Date = Date(year: int, month: int, day: int)

  predicate IsLeap(y: int)
  {
    y % 4 == 0 && (y % 100 != 0 || y % 400 == 0)
  }

  function DaysInMonth(y: int, m: int): (n: int)
    requires 1 <= m <= 12
    ensures 28 <= n <= 31
  {
    if m == 2 then (if IsLeap(y) then 29 else 28)
    else if m == 4 || m == 6 || m == 9 || m == 11 then 30
    else 31
  }

  function DaysInYear(y: int): int { if IsLeap(y) then 366 else 365 }

  /** The days of year `y` before the first of month `m`; month 13 stands
      for the whole year. */
  function DaysBeforeMonth(y: int, m: int): (n: int)
    requires 1 <= m <= 13
  {
    var table := [0, 31, 59, 90, 120, 151, 181, 212, 243, 273, 304, 334, 365];
    table[m - 1] + (if m > 2 && IsLeap(y) then 1 else 0)
  }

  /** The days of all the years before year `y`. */
  function DaysBeforeYear(y: int): (n: nat)
    requires y >= 1
    decreases y
  {
    if y == 1 then 0 else DaysBeforeYear(y - 1) + DaysInYear(y - 1)
  }

  /** What `datetime.date(y, m, d)` accepts. */
  predicate ValidDate(d: Date)
  {
    1 <= d.year <= 9999 && 1 <= d.month <= 12 && 1 <= d.day <= DaysInMonth(d.year, d.month)
  }

  /** `d.toordinal()`. */
  function Ordinal(d: Date): int
    requires ValidDate(d)
  {
    DaysBeforeYear(d.year) + DaysBeforeMonth(d.year, d.month) + d.day
  }

  /** Python's `a < b` on dates: year, then month, then day. */
  predicate Before(a: Date, b: Date)
  {
    a.year < b.year
    || (a.year == b.year && (a.month < b.month || (a.month == b.month && a.day < b.day)))
  }

  // ---------------------------------------------------------------------------
  // The calendar

  /** Each month's days follow on from the ones before it. */
  lemma {:induction false} MonthStep(y: int, m: int)
    requires 1 <= m <= 12
    ensures DaysBeforeMonth(y, m + 1) == DaysBeforeMonth(y, m) + DaysInMonth(y, m)
    ensures DaysBeforeMonth(y, 13) == DaysInYear(y)
  {
  }

  lemma {:induction false} MonthsIncrease(y: int, i: int, j: int)
    requires 1 <= i < j <= 13
    ensures DaysBeforeMonth(y, i) + DaysInMonth(y, i) <= DaysBeforeMonth(y, j)
    decreases j - i
  {
    MonthStep(y, i);
    if i + 1 < j {
      MonthsIncrease(y, i + 1, j);
    }
  }

  lemma {:induction false} YearsIncrease(i: int, j: int)
    requires 1 <= i < j
    ensures DaysBeforeYear(i) + DaysInYear(i) <= DaysBeforeYear(j)
    decreases j - i
  {
    if i + 1 < j {
      YearsIncrease(i + 1, j);
    }
  }

  /** A date's day number lies inside its own year. */
  lemma {:induction false} OrdinalInYear(d: Date)
    requires ValidDate(d)
    ensures DaysBeforeYear(d.year) < Ordinal(d) <= DaysBeforeYear(d.year) + DaysInYear(d.year)
  {
    if d.month < 12 {
      MonthsIncrease(d.year, d.month, 13);
    } else {
      MonthStep(d.year, 12);
    }
  }

  /** Comparing two dates field by field agrees with comparing their day
      numbers, so `start_date > end_date` and the day count agree. */
  lemma {:induction false} BeforeIffOrdinal(a: Date, b: Date)
    requires ValidDate(a) && ValidDate(b)
    ensures Before(a, b) <==> Ordinal(a) < Ordinal(b)
    ensures a == b <==> Ordinal(a) == Ordinal(b)
  {
    OrdinalInYear(a);
    OrdinalInYear(b);
    if a.year < b.year {
      YearsIncrease(a.year, b.year);
    } else if b.year < a.year {
      YearsIncrease(b.year, a.year);
    } else if a.month < b.month {
      MonthsIncrease(a.year, a.month, b.month);
    } else if b.month < a.month {
      MonthsIncrease(a.year, b.month, a.month);
    }
  }

  // ---------------------------------------------------------------------------
  // strptime with the format '%Y-%m-%d'

  /** Why `strptime` raises ValueError. */
  datatype DateError =
    | NoMatch(data: string)          // the text does not match the format
    | Unconverted(rest: string)      // text is left over after the day
    | YearOutOfRange(year: int)      // year 0000
    | DayOutOfRange                  // a day the month does not have

  datatype Parsed = Parsed(date: Date) | ParseError(error: DateError)

  predicate DigitAt(s: string, i: nat) { i < |s| && IsDigit(s[i]) }

  predicate InRange(s: string, i: nat, lo: char, hi: char) { i < |s| && lo <= s[i] <= hi }

  /** Where the month may end, alternative by alternative, as the pattern
      `1[0-2]|0[1-9]|[1-9]` tries them from position `i`. */
  function MonthEnds(s: string, i: nat): (ends: seq<nat>)
    ensures forall k :: 0 <= k < |ends| ==> i < ends[k] <= |s| && AllDigits(s[i..ends[k]])
  {
    (if i < |s| && s[i] == '1' && InRange(s, i + 1, '0', '2') then [i + 2] else [])
    + (if i < |s| && s[i] == '0' && InRange(s, i + 1, '1', '9') then [i + 2] else [])
    + (if InRange(s, i, '1', '9') then [i + 1] else [])
  }

  /** Where the day ends: the first alternative of
      `3[01]|[12]\d|0[1-9]|[1-9]| [1-9]` that matches at position `j`. */
  function DayEnd(s: string, j: nat): (e: Option<nat>)
    ensures e.Some? ==> j < e.value <= |s|
  {
    if j < |s| && s[j] == '3' && InRange(s, j + 1, '0', '1') then Some(j + 2)
    else if InRange(s, j, '1', '2') && DigitAt(s, j + 1) then Some(j + 2)
    else if j < |s| && s[j] == '0' && InRange(s, j + 1, '1', '9') then Some(j + 2)
    else if InRange(s, j, '1', '9') then Some(j + 1)
    else if j < |s| && s[j] == ' ' && InRange(s, j + 1, '1', '9') then Some(j + 2)
    else None
  }

  /** The regular expression's match from position 5: the first month
      alternative that is followed by `-` and a day. Returns the end of the
      month and the end of the day. */
  function MatchMonthDay(s: string, ends: seq<nat>): (r: Option<(nat, nat)>)
    requires forall k :: 0 <= k < |ends| ==> ends[k] <= |s|
    ensures r.Some? ==> r.value.0 in ends && r.value.0 < |s| && s[r.value.0] == '-'
                        && DayEnd(s, r.value.0 + 1) == Some(r.value.1)
    ensures r.None? ==> forall k :: 0 <= k < |ends| ==>
                          !(ends[k] < |s| && s[ends[k]] == '-' && DayEnd(s, ends[k] + 1).Some?)
  {
    if ends == [] then None
    else
      var e := ends[0];
      if e < |s| && s[e] == '-' && DayEnd(s, e + 1).Some? then Some((e, DayEnd(s, e + 1).value))
      else MatchMonthDay(s, ends[1..])
  }

  /** The day's digits: a leading space is dropped, as `int` drops it. */
  function DayDigits(s: string, j: nat, e: nat): (t: string)
    requires DayEnd(s, j) == Some(e)
    ensures AllDigits(t) && t != []
  {
    if s[j] == ' ' then s[j + 1..e] else s[j..e]
  }

  /** `datetime.strptime(s, '%Y-%m-%d').date()`. */
  function Strptime(s: string): (r: Parsed)
    ensures r.Parsed? ==> ValidDate(r.date)
  {
    if !(DigitAt(s, 0) && DigitAt(s, 1) && DigitAt(s, 2) && DigitAt(s, 3) && 4 < |s| && s[4] == '-') then
      ParseError(NoMatch(s))
    else
      var m := MatchMonthDay(s, MonthEnds(s, 5));
      if m.None? then ParseError(NoMatch(s))
      else
        var monthEnd, dayEnd := m.value.0, m.value.1;
        if dayEnd != |s| then ParseError(Unconverted(s[dayEnd..]))
        else
          var year := DigitsValue(s[..4]);
          assert Pow10(4) == 10000 by {
            assert Pow10(2) == 100;
          }
          DigitsValueBelow(s[..4]);
          var month := DigitsValue(s[5..monthEnd]);
          var day := DigitsValue(DayDigits(s, monthEnd + 1, dayEnd));
          if year == 0 then ParseError(YearOutOfRange(0))
          else if !(1 <= month <= 12 && 1 <= day <= DaysInMonth(year, month)) then ParseError(DayOutOfRange)
          else Parsed(Date(year, month, day))
  }

  /** `date.isoformat()`: four digits of year, two of month, two of day. */
  function IsoFormat(d: Date): (s: string)
    requires ValidDate(d)
    ensures |s| == 10
  {
    Digits2(d.year / 100) + Digits2(d.year % 100) + "-" + Digits2(d.month) + "-" + Digits2(d.day)
  }

  function Digits2(n: int): (s: string)
    requires 0 <= n < 100
    ensures |s| == 2 && AllDigits(s) && DigitsValue(s) == n
  {
    var s := [DigitChar(n / 10), DigitChar(n % 10)];
    assert s[..1] == [DigitChar(n / 10)] && s[..1][..0] == [];
    assert DigitsValue(s[..1]) == n / 10;
    assert DigitsValue(s) == (n / 10) * 10 + n % 10;
    s
  }

  /** `strptime` reads an ISO date back as the date it came from. */
  lemma {:induction false} StrptimeIsoFormat(d: Date)
    requires ValidDate(d)
    ensures Strptime(IsoFormat(d)) == Parsed(d)
  {
    var s := IsoFormat(d);
    IsoPieces(d);
    IsoYear(d.year, s[..4]);
    assert DigitAt(s, 0) && DigitAt(s, 1) && DigitAt(s, 2) && DigitAt(s, 3) by {
      assert forall k :: 0 <= k < 4 ==> s[k] == s[..4][k];
    }
    IsoMonthAt(s, d.month);
    IsoDayAt(s, d.day);
    var m := MatchMonthDay(s, MonthEnds(s, 5));
    assert m == Some((7, 10));
    assert DayDigits(s, 8, 10) == s[8..10];
  }

  /** Where the year, the month and the day sit in an ISO date. */
  lemma {:induction false} IsoPieces(d: Date)
    requires ValidDate(d)
    ensures var s := IsoFormat(d);
            s[..4] == Digits2(d.year / 100) + Digits2(d.year % 100) && s[4] == '-' && s[7] == '-'
            && s[5..7] == Digits2(d.month) && s[8..10] == Digits2(d.day)
  {
    var s := IsoFormat(d);
    var year, month, day := Digits2(d.year / 100) + Digits2(d.year % 100), Digits2(d.month), Digits2(d.day);
    assert s == year + "-" + month + "-" + day;
    assert s[..4] == year;
    assert s[5..7] == month;
    assert s[8..10] == day;
  }

  /** The four year digits read back as the year. */
  lemma {:induction false} IsoYear(y: int, t: string)
    requires 1 <= y <= 9999 && t == Digits2(y / 100) + Digits2(y % 100)
    ensures |t| == 4 && AllDigits(t) && DigitsValue(t) == y
  {
    DigitsValueAppend(Digits2(y / 100), Digits2(y % 100));
    assert Pow10(2) == 100 by {
      assert Pow10(2) == 10 * Pow10(1);
    }
  }

  /** A two-digit month from position 5 ends at 7, whichever alternative
      reads it. */
  lemma {:induction false} IsoMonthAt(s: string, month: int)
    requires 1 <= month <= 12 && |s| >= 10 && s[5..7] == Digits2(month) && s[7] == '-'
    ensures MonthEnds(s, 5) != [] && MonthEnds(s, 5)[0] == 7
  {
    assert s[5] == Digits2(month)[0] && s[6] == Digits2(month)[1];
  }

  /** A two-digit day from position 8 ends at 10. */
  lemma {:induction false} IsoDayAt(s: string, day: int)
    requires 1 <= day <= 31 && |s| >= 10 && s[8..10] == Digits2(day)
    ensures DayEnd(s, 8) == Some(10) && s[8] != ' '
  {
    assert s[8] == Digits2(day)[0] && s[9] == Digits2(day)[1];
  }

  /** Text after a complete ISO date is left unconverted: the day's first
      matching alternative already takes two digits. */
  lemma {:induction false} StrptimeIsoTrailing(d: Date, extra: string)
    requires ValidDate(d) && extra != []
    ensures Strptime(IsoFormat(d) + extra) == ParseError(Unconverted(extra))
  {
    var iso := IsoFormat(d);
    var s := iso + extra;
    IsoPieces(d);
    assert s[..10] == iso;
    assert s[..4] == iso[..4] && s[4] == '-' && s[7] == '-';
    assert s[5..7] == iso[5..7] && s[8..10] == iso[8..10];
    IsoYear(d.year, s[..4]);
    assert DigitAt(s, 0) && DigitAt(s, 1) && DigitAt(s, 2) && DigitAt(s, 3) by {
      assert forall k :: 0 <= k < 4 ==> s[k] == s[..4][k];
    }
    IsoMonthAt(s, d.month);
    IsoDayAt(s, d.day);
    assert MatchMonthDay(s, MonthEnds(s, 5)) == Some((7, 10));
    assert s[10..] == extra;
  }

  // ---------------------------------------------------------------------------
  // validate_date_range

  /** Why a date range is refused. */
  datatype RangeError = Required | BadFormat(error: DateError) | StartAfterEnd | TooLong

  /** The `(start, end, error)` triple: both dates with no error, or no
      dates and an error. */
  datatype RangeCheck = Accepted(start: Date, end: Date) | Rejected(error: RangeError)

  /** An argument Python finds falsy: missing or empty. */
  predicate Missing(v: Option<string>) { v.None? || v.value == "" }

  /** `validate_date_range(start_date_str, end_date_str)`. */
  function ValidateDateRange(start: Option<string>, end: Option<string>): (r: RangeCheck)
    ensures r == Rejected(Required) <==> Missing(start) || Missing(end)
    ensures !Missing(start) && !Missing(end) && Strptime(start.value).ParseError? ==> r == Rejected(BadFormat(Strptime(start.value).error))
    ensures !Missing(start) && !Missing(end) && Strptime(start.value).Parsed? && Strptime(end.value).ParseError?
            ==> r == Rejected(BadFormat(Strptime(end.value).error))
    ensures r.Accepted? ==> !Missing(start) && !Missing(end)
                            && Strptime(start.value) == Parsed(r.start) && Strptime(end.value) == Parsed(r.end)
  {
    if Missing(start) || Missing(end) then Rejected(Required)
    else
      var s, e := Strptime(start.value), Strptime(end.value);
      if s.ParseError? then Rejected(BadFormat(s.error))
      else if e.ParseError? then Rejected(BadFormat(e.error))
      else if Before(e.date, s.date) then Rejected(StartAfterEnd)
      else if Ordinal(e.date) - Ordinal(s.date) > 365 then Rejected(TooLong)
      else Accepted(s.date, e.date)
  }

  /** Once both dates parse, the range is accepted exactly when the end is
      on or after the start and at most 365 days later; a later start and a
      longer span are told apart. */
  lemma {:induction false} ValidateDateRangeSpan(start: string, end: string)
    requires start != "" && end != ""
    requires Strptime(start).Parsed? && Strptime(end).Parsed?
    ensures var a, b := Strptime(start).date, Strptime(end).date;
            var r := ValidateDateRange(Some(start), Some(end));
            && (r.Accepted? <==> Ordinal(a) <= Ordinal(b) <= Ordinal(a) + 365)
            && (r == Rejected(StartAfterEnd) <==> Ordinal(b) < Ordinal(a))
            && (r == Rejected(TooLong) <==> Ordinal(b) > Ordinal(a) + 365)
            && (r.Accepted? ==> r == Accepted(a, b))
  {
    BeforeIffOrdinal(Strptime(end).date, Strptime(start).date);
  }

  /** The same date twice is a valid range, and so is a span of exactly 365
      days. */
  lemma {:induction false} ValidateDateRangeBounds(a: Date, b: Date)
    requires ValidDate(a) && ValidDate(b)
    requires a == b || Ordinal(b) == Ordinal(a) + 365
    ensures ValidateDateRange(Some(IsoFormat(a)), Some(IsoFormat(b))) == Accepted(a, b)
  {
    StrptimeIsoFormat(a);
    StrptimeIsoFormat(b);
    ValidateDateRangeSpan(IsoFormat(a), IsoFormat(b));
  }

  /** The text of the error the validator returns; `repr` is Python's
      `repr` of a string, used by the no-match message. */
  function Message(e: RangeError, repr: string -> string): string
  {
    match e
    case Required => "Both start date and end date are required"
    case StartAfterEnd => "Start date cannot be after end date"
    case TooLong => "Date range cannot exceed 1 year"
    case BadFormat(x) => "Invalid date format. Use YYYY-MM-DD: " + Detail(x, repr)
  }

  /** `str(e)` of the ValueError `strptime` raises. */
  function Detail(x: DateError, repr: string -> string): string
  {
    match x
    case NoMatch(data) => "time data " + repr(data) + " does not match format '%Y-%m-%d'"
    case Unconverted(rest) => "unconverted data remains: " + rest
    case YearOutOfRange(y) => "year " + IntToString(y) + " is out of range"
    case DayOutOfRange => "day is out of range for month"
  }
}
