/**
 UTC timestamps as text (section 5.6 of RFC 3339, whole seconds, "Z"): a concrete printer and
 reader, and the proof that byte-wise order of the text is chronological order.
 */
module Rfc3339 {
  import opened Instants
  import opened Wrappers

  /** Text form of instants, as the rest of the program uses it. */
  datatype TimeCodec = TimeCodec(format: int -> string, parse: string -> Option<int>)

  /** Formatting and then parsing loses the sub-second part and nothing else. */
  ghost predicate Faithful(codec: TimeCodec) {
    forall t: int :: InRange(t) ==> codec.parse(codec.format(t)) == Some(Truncate(t))
  }

  // ---- The order of Go strings -------------------------------------------------------

  /** a < b on Go strings: byte by byte, a proper prefix first. */
  predicate Before(a: string, b: string) {
    if b == "" then false
    else if a == "" then true
    else if a[0] != b[0] then a[0] < b[0]
    else Before(a[1..], b[1..])
  }

  lemma {:induction false} BeforeConcat(a: string, b: string, x: string, y: string)
    requires |a| == |b|
    ensures Before(a + x, b + y) <==> (Before(a, b) || (a == b && Before(x, y)))
    ensures !Before(a, a)
  {
    if a == "" {
      assert a + x == x && b + y == y;
    } else {
      assert (a + x)[1..] == a[1..] + x && (b + y)[1..] == b[1..] + y;
      BeforeConcat(a[1..], b[1..], x, y);
      assert a == [a[0]] + a[1..] && b == [b[0]] + b[1..];
    }
  }

  lemma {:induction false} BeforeTotal(a: string, b: string)
    ensures a != b ==> (Before(a, b) <==> !Before(b, a))
    ensures a == b ==> !Before(a, b)
  {
    if a != "" && b != "" && a[0] == b[0] {
      BeforeTotal(a[1..], b[1..]);
      assert a == [a[0]] + a[1..] && b == [b[0]] + b[1..];
    }
  }

  lemma {:induction false} BeforeTransitive(a: string, b: string, c: string)
    requires Before(a, b) && Before(b, c)
    ensures Before(a, c)
  {
    if a != "" && a[0] == b[0] == c[0] {
      BeforeTransitive(a[1..], b[1..], c[1..]);
    }
  }

  // ---- Fixed-width decimal fields ----------------------------------------------------

  function Pow10(width: nat): nat {
    if width == 0 then 1 else 10 * Pow10(width - 1)
  }

  function Digit(d: nat): char
    requires d < 10
  {
    '0' + d as char
  }

  function Digits(n: nat, width: nat): string {
    if width == 0 then "" else Digits(n / 10, width - 1) + [Digit(n % 10)]
  }

  predicate IsDigit(c: char) { '0' <= c <= '9' }

  predicate AllDigits(s: string) {
    forall i :: 0 <= i < |s| ==> IsDigit(s[i])
  }

  function Number(s: string): nat
    requires AllDigits(s)
  {
    if s == "" then 0
    else
      assert IsDigit(s[|s| - 1]);
      10 * Number(s[..|s| - 1]) + (s[|s| - 1] as int - '0' as int)
  }

  lemma {:induction false} DigitsRead(n: nat, width: nat)
    requires n < Pow10(width)
    ensures |Digits(n, width)| == width
    ensures AllDigits(Digits(n, width))
    ensures Number(Digits(n, width)) == n
  {
    if width > 0 {
      DigitsRead(n / 10, width - 1);
      var s := Digits(n, width);
      assert s[..|s| - 1] == Digits(n / 10, width - 1);
    }
  }

  lemma {:induction false} DigitsOrder(m: nat, n: nat, width: nat)
    requires m < Pow10(width) && n < Pow10(width)
    ensures |Digits(m, width)| == |Digits(n, width)| == width
    ensures Before(Digits(m, width), Digits(n, width)) <==> m < n
    ensures Digits(m, width) == Digits(n, width) <==> m == n
  {
    DigitsRead(m, width);
    DigitsRead(n, width);
    if width > 0 {
      DigitsOrder(m / 10, n / 10, width - 1);
      BeforeConcat(Digits(m / 10, width - 1), Digits(n / 10, width - 1), [Digit(m % 10)], [Digit(n % 10)]);
    }
  }

  // ---- The proleptic Gregorian calendar, from year 0 ---------------------------------

  datatype Stamp = Stamp(year: nat, month: nat, day: nat, hour: nat, minute: nat, second: nat)

  predicate Leap(year: nat) {
    year % 4 == 0 && (year % 100 != 0 || year % 400 == 0)
  }

  function DaysInMonth(year: nat, month: nat): nat {
    if month == 2 then (if Leap(year) then 29 else 28)
    else if month in {4, 6, 9, 11} then 30
    else 31
  }

  /** Days from 1 January to the first day of the month; month 13 gives the length of the year. */
  function DaysBeforeMonth(year: nat, month: nat): nat
    requires 1 <= month <= 13
  {
    if month == 1 then 0 else DaysBeforeMonth(year, month - 1) + DaysInMonth(year, month - 1)
  }

  function DaysInYear(year: nat): (days: nat)
    ensures days >= 365
  {
    if Leap(year) then 366 else 365
  }

  function DaysBeforeYear(year: nat): nat {
    if year == 0 then 0 else DaysBeforeYear(year - 1) + DaysInYear(year - 1)
  }

  lemma YearLength(year: nat)
    ensures DaysBeforeMonth(year, 13) == DaysInYear(year)
  {
    assert DaysBeforeMonth(year, 2) == 31;
    assert DaysBeforeMonth(year, 3) == DaysInYear(year) - 306;
    assert DaysBeforeMonth(year, 5) == DaysBeforeMonth(year, 3) + 61;
    assert DaysBeforeMonth(year, 7) == DaysBeforeMonth(year, 5) + 61;
    assert DaysBeforeMonth(year, 9) == DaysBeforeMonth(year, 7) + 62;
    assert DaysBeforeMonth(year, 11) == DaysBeforeMonth(year, 9) + 61;
  }

  lemma {:induction false} MonthsGrow(year: nat, a: nat, b: nat)
    requires 1 <= a < b <= 13
    ensures DaysBeforeMonth(year, a) + DaysInMonth(year, a) <= DaysBeforeMonth(year, b)
  {
    if a + 1 < b {
      MonthsGrow(year, a, b - 1);
    }
  }

  lemma {:induction false} YearsGrow(a: nat, b: nat)
    requires a < b
    ensures DaysBeforeYear(a) + DaysInYear(a) <= DaysBeforeYear(b)
  {
    if a + 1 < b {
      YearsGrow(a, b - 1);
    }
  }

  predicate Valid(s: Stamp) {
    && s.year <= 9999
    && 1 <= s.month <= 12
    && 1 <= s.day <= DaysInMonth(s.year, s.month)
    && s.hour < 24 && s.minute < 60 && s.second < 60
  }

  function DayNumber(s: Stamp): int
    requires Valid(s)
  {
    DaysBeforeYear(s.year) + DaysBeforeMonth(s.year, s.month) + s.day - 1
  }

  /** Seconds since 0000-01-01T00:00:00Z. */
  function Seconds(s: Stamp): int
    requires Valid(s)
  {
    86400 * DayNumber(s) + 3600 * s.hour + 60 * s.minute + s.second
  }

  function YearOf(day: nat, year: nat): (r: nat)
    requires DaysBeforeYear(year) <= day
    ensures DaysBeforeYear(r) <= day < DaysBeforeYear(r) + DaysInYear(r)
    decreases day - DaysBeforeYear(year)
  {
    if day < DaysBeforeYear(year) + DaysInYear(year) then year
    else
      assert DaysBeforeYear(year + 1) == DaysBeforeYear(year) + DaysInYear(year);
      YearOf(day, year + 1)
  }

  function MonthOf(year: nat, dayOfYear: nat, month: nat): (r: nat)
    requires 1 <= month <= 12 && DaysBeforeMonth(year, month) <= dayOfYear < DaysBeforeMonth(year, 13)
    ensures 1 <= r <= 12 && DaysBeforeMonth(year, r) <= dayOfYear < DaysBeforeMonth(year, r) + DaysInMonth(year, r)
    decreases 12 - month
  {
    if dayOfYear < DaysBeforeMonth(year, month) + DaysInMonth(year, month) then month
    else
      assert DaysBeforeMonth(year, month + 1) == DaysBeforeMonth(year, month) + DaysInMonth(year, month);
      MonthOf(year, dayOfYear, month + 1)
  }

  /** The calendar reading of a number of seconds since year 0. */
  function StampOf(seconds: nat): Stamp {
    var day, rest := seconds / 86400, seconds % 86400;
    var year := YearOf(day, 0);
    YearLength(year);
    var dayOfYear := day - DaysBeforeYear(year);
    var month := MonthOf(year, dayOfYear, 1);
    Stamp(year, month, dayOfYear - DaysBeforeMonth(year, month) + 1, rest / 3600, rest % 3600 / 60, rest % 60)
  }

  // Year 0 is a leap year, so Go's zero time lies this many seconds after the start of year 0.
  const ZERO_TIME_SECONDS := 366 * 86400

  /** Instants whose UTC year is between 0000 and 9999. */
  ghost predicate InRange(instant: int) {
    0 <= SecondsOf(instant) && YearOf(SecondsOf(instant) / 86400, 0) <= 9999
  }

  function SecondsOf(instant: int): int {
    instant / SECOND + ZERO_TIME_SECONDS
  }

  lemma StampOfSeconds(seconds: nat)
    requires YearOf(seconds / 86400, 0) <= 9999
    ensures Valid(StampOf(seconds)) && Seconds(StampOf(seconds)) == seconds
  {
    YearLength(YearOf(seconds / 86400, 0));
  }

  // ---- Printing and reading ----------------------------------------------------------

  const WIDTHS: seq<nat> := [4, 2, 2, 2, 2, 2]
  const SEPARATORS := "--T::Z"

  function Fields(s: Stamp): seq<nat> {
    [s.year, s.month, s.day, s.hour, s.minute, s.second]
  }

  ghost predicate Fits(fields: seq<nat>, widths: seq<nat>) {
    |fields| == |widths| && forall i :: 0 <= i < |fields| ==> fields[i] < Pow10(widths[i])
  }

  /** Each field in its width, followed by its separator. */
  function Print(fields: seq<nat>, widths: seq<nat>, separators: string): string
    requires |fields| == |widths| == |separators|
  {
    if fields == [] then ""
    else Digits(fields[0], widths[0]) + ([separators[0]] + Print(fields[1..], widths[1..], separators[1..]))
  }

  function Read(s: string, widths: seq<nat>, separators: string): Option<seq<nat>>
    requires |widths| == |separators|
    decreases |widths|, s
  {
    if widths == [] then (if s == "" then Some([]) else None)
    else
      var w := widths[0];
      if |s| <= w || s[w] != separators[0] || !AllDigits(s[..w]) then None
      else
        match Read(s[w + 1..], widths[1..], separators[1..])
        case None => None
        case Some(rest) => Some([Number(s[..w])] + rest)
  }

  lemma FieldsFit(s: Stamp)
    requires Valid(s)
    ensures Fits(Fields(s), WIDTHS)
  {
  }

  ghost predicate LexLess(a: seq<nat>, b: seq<nat>)
    requires |a| == |b|
  {
    a != [] && (a[0] < b[0] || (a[0] == b[0] && LexLess(a[1..], b[1..])))
  }

  lemma {:induction false} PrintOrder(a: seq<nat>, b: seq<nat>, widths: seq<nat>, separators: string)
    requires Fits(a, widths) && Fits(b, widths) && |widths| == |separators|
    ensures Before(Print(a, widths, separators), Print(b, widths, separators)) <==> LexLess(a, b)
  {
    if a != [] {
      var w, sep := widths[0], [separators[0]];
      var x, y := Print(a[1..], widths[1..], separators[1..]), Print(b[1..], widths[1..], separators[1..]);
      PrintOrder(a[1..], b[1..], widths[1..], separators[1..]);
      DigitsOrder(a[0], b[0], w);
      BeforeConcat(sep, sep, x, y);
      BeforeConcat(Digits(a[0], w), Digits(b[0], w), sep + x, sep + y);
      assert Print(a, widths, separators) == Digits(a[0], w) + (sep + x);
      assert Print(b, widths, separators) == Digits(b[0], w) + (sep + y);
    }
  }

  lemma {:induction false} ReadPrinted(fields: seq<nat>, widths: seq<nat>, separators: string)
    requires Fits(fields, widths) && |widths| == |separators|
    ensures Read(Print(fields, widths, separators), widths, separators) == Some(fields)
  {
    if fields == [] {
      assert widths == [];
    } else {
      ReadPrinted(fields[1..], widths[1..], separators[1..]);
      var w := widths[0];
      DigitsRead(fields[0], w);
      var s := Print(fields, widths, separators);
      assert s[..w] == Digits(fields[0], w);
      assert s[w + 1..] == Print(fields[1..], widths[1..], separators[1..]);
      assert [Number(s[..w])] + fields[1..] == fields;
    }
  }

  lemma SecondsOrder(a: Stamp, b: Stamp)
    requires Valid(a) && Valid(b)
    ensures LexLess(Fields(a), Fields(b)) ==> Seconds(a) < Seconds(b)
    ensures !LexLess(Fields(a), Fields(b)) ==> Seconds(b) <= Seconds(a)
  {
    DayOrder(a, b);
    DayOrder(b, a);
    LexUnfold(Fields(a), Fields(b));
  }

  lemma LexUnfold(a: seq<nat>, b: seq<nat>)
    requires |a| == |b| == 6
    ensures LexLess(a, b) <==>
            a[0] < b[0] || (a[0] == b[0] && (a[1] < b[1] || (a[1] == b[1] && (a[2] < b[2] || (a[2] == b[2] &&
            (a[3] < b[3] || (a[3] == b[3] && (a[4] < b[4] || (a[4] == b[4] && a[5] < b[5])))))))))
  {
    var x, y := a[3..], b[3..];
    assert LexLess(x[2..], y[2..]) <==> x[2] < y[2];
    assert LexLess(x[1..], y[1..]) <==> x[1] < y[1] || (x[1] == y[1] && LexLess(x[1..][1..], y[1..][1..]));
    assert LexLess(a[2..], b[2..]) <==> a[2] < b[2] || (a[2] == b[2] && LexLess(a[2..][1..], b[2..][1..]));
    assert LexLess(a[1..], b[1..]) <==> a[1] < b[1] || (a[1] == b[1] && LexLess(a[1..][1..], b[1..][1..]));
    assert a[1..][1..] == a[2..] && b[1..][1..] == b[2..] && a[2..][1..] == x && b[2..][1..] == y;
    assert x[1..][1..] == x[2..] && y[1..][1..] == y[2..];
  }

  lemma DayOrder(a: Stamp, b: Stamp)
    requires Valid(a) && Valid(b)
    ensures a.year < b.year ==> DayNumber(a) < DayNumber(b)
    ensures a.year == b.year && a.month < b.month ==> DayNumber(a) < DayNumber(b)
  {
    if a.year < b.year {
      YearsGrow(a.year, b.year);
      MonthsGrow(a.year, a.month, 13);
      YearLength(a.year);
    } else if a.year == b.year && a.month < b.month {
      MonthsGrow(a.year, a.month, b.month);
    }
  }

  /** time.RFC3339 in UTC. */
  function FormatUtc(instant: int): string {
    var seconds := SecondsOf(instant);
    if seconds < 0 then "" else Print(Fields(StampOf(seconds)), WIDTHS, SEPARATORS)
  }

  function ParseUtc(s: string): Option<int> {
    match Read(s, WIDTHS, SEPARATORS)
    case None => None
    case Some(f) =>
      if |f| != 6 then None
      else
        var stamp := Stamp(f[0], f[1], f[2], f[3], f[4], f[5]);
        if Valid(stamp) then Some((Seconds(stamp) - ZERO_TIME_SECONDS) * SECOND) else None
  }

  const UTC := TimeCodec(FormatUtc, ParseUtc)

  /** On printed timestamps the byte-wise comparison of the text is the comparison of the instants,
      to the second. */
  lemma TextOrderIsTimeOrder(t: int, u: int)
    requires InRange(t) && InRange(u)
    ensures Before(FormatUtc(t), FormatUtc(u)) <==> Truncate(t) < Truncate(u)
    ensures FormatUtc(t) != ""
  {
    var a, b := StampOf(SecondsOf(t)), StampOf(SecondsOf(u));
    StampOfSeconds(SecondsOf(t));
    StampOfSeconds(SecondsOf(u));
    FieldsFit(a);
    FieldsFit(b);
    PrintOrder(Fields(a), Fields(b), WIDTHS, SEPARATORS);
    SecondsOrder(a, b);
  }

  lemma ParsePrinted(s: Stamp)
    requires Valid(s)
    ensures ParseUtc(Print(Fields(s), WIDTHS, SEPARATORS)) == Some((Seconds(s) - ZERO_TIME_SECONDS) * SECOND)
  {
    FieldsFit(s);
    var f := Fields(s);
    ReadPrinted(f, WIDTHS, SEPARATORS);
    assert s == Stamp(f[0], f[1], f[2], f[3], f[4], f[5]);
  }

  lemma TruncateIsSeconds(t: int)
    ensures (SecondsOf(t) - ZERO_TIME_SECONDS) * SECOND == Truncate(t)
  {
  }

  lemma FormatUnfolds(t: int)
    requires SecondsOf(t) >= 0
    ensures FormatUtc(t) == Print(Fields(StampOf(SecondsOf(t))), WIDTHS, SEPARATORS)
  {
  }

  lemma UtcRoundTrip(t: int, text: string)
    requires InRange(t) && text == FormatUtc(t)
    ensures ParseUtc(text) == Some(Truncate(t))
  {
    FormatUnfolds(t);
    StampOfSeconds(SecondsOf(t));
    var stamp := StampOf(SecondsOf(t));
    ParsePrinted(stamp);
    TruncateIsSeconds(t);
  }

  /** The concrete printer and reader meet the assumption the rest of the proofs make of a codec. */
  lemma UtcFaithful()
    ensures Faithful(UTC)
  {
    forall t: int | InRange(t)
      ensures UTC.parse(UTC.format(t)) == Some(Truncate(t))
    {
      UtcRoundTrip(t, UTC.format(t));
    }
  }

  // ---- The calendar itself ---------------------------------------------------------------

  /** The days before a year of the Gregorian calendar, by arithmetic alone. */
  lemma {:induction false} DaysBeforeYearClosed(year: nat)
    ensures DaysBeforeYear(year) == 365 * year + (year + 3) / 4 - (year + 99) / 100 + (year + 399) / 400
  {
    if year > 0 {
      DaysBeforeYearClosed(year - 1);
      LeapStep(year - 1);
    }
  }

  lemma LeapStep(year: nat)
    ensures (year + 4) / 4 == (year + 3) / 4 + if year % 4 == 0 then 1 else 0
    ensures (year + 100) / 100 == (year + 99) / 100 + if year % 100 == 0 then 1 else 0
    ensures (year + 400) / 400 == (year + 399) / 400 + if year % 400 == 0 then 1 else 0
    ensures year % 100 == 0 ==> year % 4 == 0
    ensures year % 400 == 0 ==> year % 100 == 0
  {
    RoundUp(year, 4);
    RoundUp(year, 100);
    RoundUp(year, 400);
    CenturiesDivide(year);
  }

  lemma CenturiesDivide(year: nat)
    ensures year % 100 == 0 ==> year % 4 == 0
    ensures year % 400 == 0 ==> year % 100 == 0
  {
    var q, p := year / 100, year / 400;
    assert year % 100 == 0 ==> year == 4 * (25 * q);
    assert year % 400 == 0 ==> year == 100 * (4 * p);
  }

  lemma RoundUp(n: nat, k: nat)
    requires k in {4, 100, 400}
    ensures (n + k) / k == (n + k - 1) / k + if n % k == 0 then 1 else 0
  {
    var q, rest := n / k, n % k;
    if k == 4 {
      assert n == 4 * q + rest;
    } else if k == 100 {
      assert n == 100 * q + rest;
    } else {
      assert n == 400 * q + rest;
    }
  }

  /** The calendar repeats every 400 years. */
  lemma FourCenturies(year: nat)
    ensures DaysBeforeYear(year + 400) == DaysBeforeYear(year) + 146097
  {
    DaysBeforeYearClosed(year);
    DaysBeforeYearClosed(year + 400);
    CenturyStep(year);
  }

  lemma CenturyStep(year: nat)
    ensures (year + 403) / 4 == (year + 3) / 4 + 100
    ensures (year + 499) / 100 == (year + 99) / 100 + 4
    ensures (year + 799) / 400 == (year + 399) / 400 + 1
  {
  }

  /** The lengths of the months, February's being what the length of the year leaves it. */
  lemma MonthLengths(year: nat)
    ensures var feb := if DaysBeforeYear(year + 1) - DaysBeforeYear(year) == 366 then 29 else 28;
            seq(12, i requires 0 <= i < 12 => DaysInMonth(year, i + 1)) == [31, feb, 31, 30, 31, 30, 31, 31, 30, 31, 30, 31]
    ensures DaysBeforeYear(year + 1) - DaysBeforeYear(year) in {365, 366}
  {
  }

  lemma YearIs(day: nat, year: nat)
    requires DaysBeforeYear(year) <= day < DaysBeforeYear(year) + DaysInYear(year)
    ensures YearOf(day, 0) == year
  {
    var found := YearOf(day, 0);
    if found < year {
      YearsGrow(found, year);
    } else if year < found {
      YearsGrow(year, found);
    }
  }

  /** Every date is the calendar reading of its own seconds. */
  lemma StampOfDate(s: Stamp)
    requires Valid(s)
    ensures StampOf(Seconds(s)) == s
  {
    assert Seconds(s) / 86400 == DayNumber(s);
    MonthsGrow(s.year, s.month, 13);
    YearLength(s.year);
    YearIs(DayNumber(s), s.year);
    var t := StampOf(Seconds(s));
    StampOfSeconds(Seconds(s));
    SecondsOrder(s, t);
    SecondsOrder(t, s);
    LexUnfold(Fields(s), Fields(t));
    LexUnfold(Fields(t), Fields(s));
  }

  /** Days before each month of a common year. */
  const MONTH_STARTS: seq<nat> := [0, 31, 59, 90, 120, 151, 181, 212, 243, 273, 304, 334]

  lemma MonthStarts(year: nat, month: nat)
    requires 1 <= month <= 12
    ensures DaysBeforeMonth(year, month) ==
            MONTH_STARTS[month - 1] + if month > 2 && DaysBeforeYear(year + 1) - DaysBeforeYear(year) == 366 then 1 else 0
    decreases month
  {
    if month > 1 {
      MonthStarts(year, month - 1);
    }
  }

  /** Seconds from 0001-01-01T00:00:00Z to the date, by arithmetic alone. */
  function SinceYearOne(s: Stamp): int
    requires 1 <= s.month <= 12
  {
    var leapYear := s.year % 4 == 0 && (s.year % 100 != 0 || s.year % 400 == 0);
    var days := 365 * s.year + (s.year + 3) / 4 - (s.year + 99) / 100 + (s.year + 399) / 400 - 366
                + MONTH_STARTS[s.month - 1] + (if leapYear && s.month > 2 then 1 else 0) + s.day - 1;
    86400 * days + 3600 * s.hour + 60 * s.minute + s.second
  }

  /** A year has a leap day if it is divisible by 4, and not by 100 unless by 400. */
  lemma LeapYears(year: nat)
    ensures DaysBeforeYear(year + 1) - DaysBeforeYear(year) == 366 <==>
            year % 4 == 0 && (year % 100 != 0 || year % 400 == 0)
  {
    DaysBeforeYearClosed(year);
    DaysBeforeYearClosed(year + 1);
    LeapStep(year);
  }

  lemma SecondsByArithmetic(s: Stamp)
    requires Valid(s)
    ensures Seconds(s) == SinceYearOne(s) + 366 * 86400
  {
    DaysBeforeYearClosed(s.year);
    LeapYears(s.year);
    MonthStarts(s.year, s.month);
  }

  /** The text of a date: each field in its width, and the separators of section 5.6 of RFC 3339. */
  function DateText(s: Stamp): string {
    Digits(s.year, 4) + ("-" + (Digits(s.month, 2) + ("-" + (Digits(s.day, 2) + ("T" +
    (Digits(s.hour, 2) + (":" + (Digits(s.minute, 2) + (":" + (Digits(s.second, 2) + "Z"))))))))))
  }

  lemma PrintOne(field: nat, rest: seq<nat>, width: nat, widths: seq<nat>, separator: char, separators: string)
    requires |rest| == |widths| == |separators|
    ensures Print([field] + rest, [width] + widths, [separator] + separators) ==
            Digits(field, width) + ([separator] + Print(rest, widths, separators))
  {
    assert ([field] + rest)[1..] == rest && ([width] + widths)[1..] == widths && ([separator] + separators)[1..] == separators;
  }

  lemma PrintIsDateText(s: Stamp)
    ensures Print(Fields(s), WIDTHS, SEPARATORS) == DateText(s)
  {
    PrintOne(s.second, [], 2, [], 'Z', "");
    PrintOne(s.minute, [s.second], 2, [2], ':', "Z");
    PrintOne(s.hour, [s.minute, s.second], 2, [2, 2], ':', ":Z");
    PrintOne(s.day, [s.hour, s.minute, s.second], 2, [2, 2, 2], 'T', "::Z");
    PrintOne(s.month, [s.day, s.hour, s.minute, s.second], 2, [2, 2, 2, 2], '-', "T::Z");
    PrintOne(s.year, [s.month, s.day, s.hour, s.minute, s.second], 4, [2, 2, 2, 2, 2], '-', "-T::Z");
    assert [s.second] + [] == [s.second] && [2] + [] == [2] && ['Z'] + "" == "Z" && "Z" + "" == "Z";
    assert [s.minute] + [s.second] == [s.minute, s.second];
    assert Fields(s) == [s.year] + [s.month, s.day, s.hour, s.minute, s.second];
  }

  lemma InstantOfSecond(seconds: int, nanos: nat)
    requires nanos < 1_000_000_000
    ensures SecondsOf(1_000_000_000 * seconds + nanos) == seconds + 366 * 86400
  {
  }

  lemma PrintsAt(s: Stamp, seconds: int, nanos: nat)
    requires Valid(s) && Seconds(s) == seconds + 366 * 86400 && nanos < 1_000_000_000
    ensures FormatUtc(1_000_000_000 * seconds + nanos) == DateText(s)
  {
    InstantOfSecond(seconds, nanos);
    StampOfDate(s);
    FormatUnfolds(1_000_000_000 * seconds + nanos);
    PrintIsDateText(s);
  }

  /** The printer prints the real date: any instant of a second is printed as the year, month, day,
      hour, minute and second that arithmetic assigns to it. */
  lemma PrintsDate(s: Stamp, seconds: int, nanos: nat)
    requires Valid(s) && seconds == SinceYearOne(s) && nanos < 1_000_000_000
    ensures FormatUtc(1_000_000_000 * seconds + nanos) == DateText(s)
  {
    assert Seconds(s) == seconds + 366 * 86400 by {
      SecondsByArithmetic(s);
    }
    PrintsAt(s, seconds, nanos);
  }

  lemma SmallNumbers()
    ensures Digits(0, 2) == "00" && Digits(1, 2) == "01" && Digits(7, 2) == "07"
  {
    assert Digits(0, 1) == "0";
  }

  lemma Digits1()
    ensures Digits(1, 4) == "0001"
  {
    assert Digits(0, 2) == "00" && Digits(0, 3) == "000";
  }

  lemma Digits1970()
    ensures Digits(1970, 4) == "1970"
  {
    assert Digits(1, 1) == "1";
    assert Digits(19, 2) == "19";
    assert Digits(197, 3) == "197";
  }

  lemma Digits2024()
    ensures Digits(2024, 4) == "2024"
  {
    assert Digits(2, 1) == "2";
    assert Digits(20, 2) == "20";
    assert Digits(202, 3) == "202";
  }

  const YEAR_ONE := Stamp(1, 1, 1, 0, 0, 0)
  const EPOCH := Stamp(1970, 1, 1, 0, 0, 0)
  const SUMMER := Stamp(2024, 7, 1, 0, 0, 0)

  lemma Midnight()
    ensures "T" + ("00" + (":" + ("00" + (":" + ("00" + "Z"))))) == "T00:00:00Z"
  {
  }

  /** The text of the first of a month, at midnight. */
  lemma FirstOfMonth(s: Stamp, year: string, month: string)
    requires s.day == 1 && s.hour == s.minute == s.second == 0 && Digits(s.year, 4) == year && Digits(s.month, 2) == month
    ensures DateText(s) == year + ("-" + (month + ("-" + ("01" + "T00:00:00Z"))))
  {
    SmallNumbers();
    Midnight();
  }

  lemma Concatenated()
    ensures "0001" + ("-" + ("01" + ("-" + ("01" + "T00:00:00Z")))) == "0001-01-01T00:00:00Z"
    ensures "1970" + ("-" + ("01" + ("-" + ("01" + "T00:00:00Z")))) == "1970-01-01T00:00:00Z"
    ensures "2024" + ("-" + ("07" + ("-" + ("01" + "T00:00:00Z")))) == "2024-07-01T00:00:00Z"
  {
  }

  lemma KnownTexts()
    ensures DateText(YEAR_ONE) == "0001-01-01T00:00:00Z"
    ensures DateText(EPOCH) == "1970-01-01T00:00:00Z"
    ensures DateText(SUMMER) == "2024-07-01T00:00:00Z"
  {
    Concatenated();
    SmallNumbers();
    Digits1();
    Digits1970();
    Digits2024();
    FirstOfMonth(YEAR_ONE, "0001", "01");
    FirstOfMonth(EPOCH, "1970", "01");
    FirstOfMonth(SUMMER, "2024", "07");
  }

  lemma KnownSeconds()
    ensures SinceYearOne(YEAR_ONE) == 0 && SinceYearOne(EPOCH) == 62135596800 && SinceYearOne(SUMMER) == 63855388800
    ensures Valid(YEAR_ONE) && Valid(EPOCH) && Valid(SUMMER)
  {
  }

  /** Three dates in full: Go's zero time, the Unix epoch, and a summer day of a leap year. */
  lemma KnownDates()
    ensures FormatUtc(0) == "0001-01-01T00:00:00Z"
    ensures FormatUtc(62135596800_000000000) == "1970-01-01T00:00:00Z"
    ensures FormatUtc(63855388800_000000000) == "2024-07-01T00:00:00Z"
  {
    KnownTexts();
    KnownSeconds();
    PrintsDate(YEAR_ONE, 0, 0);
    PrintsDate(EPOCH, 62135596800, 0);
    PrintsDate(SUMMER, 63855388800, 0);
  }
}
