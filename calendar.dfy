/**
  The weekday helper `get_weekday` (bot.py:223-249): the event date "dd.mm"
  is placed in the current year, rolled to the next year when it has already
  passed, and named by its weekday, with "невідомий день" for text that is
  not a date. Python's proleptic Gregorian `datetime` is modelled by day
  counts; the current time is a parameter.
 */
module Calendar {
  import opened Wrappers
  import opened Text
  import opened Numerals

  datatype Date = Date(year: int, month: int, day: int)

  /** A wall-clock instant: its date and the microseconds since midnight. */
  datatype DateTime = DateTime(date: Date, micros: int)

  const MinYear: int := 1
  const MaxYear: int := 9999
  const MicrosPerDay: int := 86_400_000_000

  predicate IsLeap(y: int) {
    y % 4 == 0 && (y % 100 != 0 || y % 400 == 0)
  }

  function DaysInMonth(y: int, m: int): int
    requires 1 <= m <= 12
  {
    if m == 2 then (if IsLeap(y) then 29 else 28)
    else if m == 4 || m == 6 || m == 9 || m == 11 then 30
    else 31
  }

  /** What `datetime.datetime(year, month, day)` accepts without ValueError. */
  predicate ValidDate(d: Date) {
    MinYear <= d.year <= MaxYear && 1 <= d.month <= 12 && 1 <= d.day <= DaysInMonth(d.year, d.month)
  }

  predicate ValidDateTime(t: DateTime) {
    ValidDate(t.date) && 0 <= t.micros < MicrosPerDay
  }

  function DaysBeforeYear(y: int): int
    requires y >= 1
  {
    var p := y - 1;
    p * 365 + p / 4 - p / 100 + p / 400
  }

  function DaysBeforeMonth(y: int, m: int): int
    requires 1 <= m <= 12
  {
    (match m
     case 1 => 0 case 2 => 31 case 3 => 59 case 4 => 90 case 5 => 120 case 6 => 151
     case 7 => 181 case 8 => 212 case 9 => 243 case 10 => 273 case 11 => 304 case _ => 334)
    + (if m > 2 && IsLeap(y) then 1 else 0)
  }

  /** `date.toordinal()`: 1 January of year 1 is day 1. */
  function Ordinal(d: Date): int
    requires ValidDate(d)
  {
    DaysBeforeYear(d.year) + DaysBeforeMonth(d.year, d.month) + d.day
  }

  /** `date.weekday()`: Monday is 0 and Sunday is 6. */
  function Weekday(d: Date): (w: int)
    requires ValidDate(d)
    ensures 0 <= w < 7
  {
    (Ordinal(d) + 6) % 7
  }

  /** The calendar's next day, by months and years rather than by day counts. */
  function NextDay(d: Date): Date
    requires ValidDate(d)
  {
    if d.day < DaysInMonth(d.year, d.month) then Date(d.year, d.month, d.day + 1)
    else if d.month < 12 then Date(d.year, d.month + 1, 1)
    else Date(d.year + 1, 1, 1)
  }

  /** A year has 365 days, or 366 when it is a leap year. */
  lemma DaysBeforeNextYear(y: int)
    requires y >= 1
    ensures DaysBeforeYear(y + 1) == DaysBeforeYear(y) + 365 + (if IsLeap(y) then 1 else 0)
  {
    var p := y - 1;
    assert (p + 1) / 4 == p / 4 + (if y % 4 == 0 then 1 else 0);
    assert (p + 1) / 100 == p / 100 + (if y % 100 == 0 then 1 else 0);
    assert (p + 1) / 400 == p / 400 + (if y % 400 == 0 then 1 else 0);
  }

  /** The day count agrees with the calendar: the next day is one day later. */
  lemma OrdinalNextDay(d: Date)
    requires ValidDate(d) && ValidDate(NextDay(d))
    ensures Ordinal(NextDay(d)) == Ordinal(d) + 1
  {
    if d.day == DaysInMonth(d.year, d.month) && d.month == 12 {
      DaysBeforeNextYear(d.year);
    }
  }

  /** Weekdays advance by one each day, Sunday wrapping to Monday. */
  lemma WeekdayNextDay(d: Date)
    requires ValidDate(d) && ValidDate(NextDay(d))
    ensures Weekday(NextDay(d)) == (Weekday(d) + 1) % 7
  {
    OrdinalNextDay(d);
    ShiftWeekday(Ordinal(d), 1);
  }

  /** Moving `k` days on moves the weekday by `k` modulo 7. */
  lemma ShiftWeekday(o: int, k: int)
    ensures (o + k + 6) % 7 == ((o + 6) % 7 + k) % 7
  {
  }

  /** The same day and month a year later is 365 or 366 days later. */
  lemma OrdinalNextYear(d: Date)
    requires ValidDate(d) && ValidDate(Date(d.year + 1, d.month, d.day))
    ensures var diff := Ordinal(Date(d.year + 1, d.month, d.day)) - Ordinal(d);
      diff == 365 || diff == 366
  {
    DaysBeforeNextYear(d.year);
  }

  /** The same day and month falls on a different weekday a year later. */
  lemma WeekdayNextYearDiffers(d: Date)
    requires ValidDate(d) && ValidDate(Date(d.year + 1, d.month, d.day))
    ensures Weekday(Date(d.year + 1, d.month, d.day)) != Weekday(d)
  {
    var o := Ordinal(d);
    var k := Ordinal(Date(d.year + 1, d.month, d.day)) - o;
    OrdinalNextYear(d);
    ShiftWeekday(o, k);
  }

  /** Strict calendar order of dates. */
  predicate Precedes(a: Date, b: Date) {
    || a.year < b.year
    || (a.year == b.year && (a.month < b.month || (a.month == b.month && a.day < b.day)))
  }

  /** `datetime(y, m, d) < now`: midnight of `d` lies before the instant `now`. */
  predicate MidnightBefore(d: Date, now: DateTime) {
    Precedes(d, now.date) || (d == now.date && now.micros > 0)
  }

  const UnknownDay: string := "невідомий день"

  const WeekdayNames: seq<string> :=
    ["Понеділок", "Вівторок", "Середа", "Четвер", "П’ятниця", "Субота", "Неділя"]

  /** `day, month = map(int, date_str.split('.'))`; None where that raises. */
  function ParseDayMonth(s: string): Option<(int, int)> {
    var parts := Split(s, '.');
    if |parts| != 2 then None
    else
      match (ParseInt(parts[0]), ParseInt(parts[1]))
      case (Some(day), Some(month)) => Some((day, month))
      case _ => None
  }

  /** The range of a C `int`, which `datetime`'s arguments are converted to. */
  predicate InCInt(x: int) {
    -0x8000_0000 <= x <= 0x7fff_ffff
  }

  datatype EventDay =
    | Unparsed             // the text is not two integers separated by '.'
    | Overflow             // a part does not fit a C int: OverflowError escapes
    | InvalidThisYear      // no such day in the current year: ValueError
    | ThisYear(d: Date)    // the date in the current year

  /** Lines 225-234: the event date in the current year, or why there is none. */
  function ParseEventDay(s: string, year: int): (r: EventDay)
    ensures r.ThisYear? ==> ValidDate(r.d) && r.d.year == year
  {
    match ParseDayMonth(s)
    case None => Unparsed
    case Some((day, month)) =>
      if !InCInt(month) || !InCInt(day) then Overflow
      else if !ValidDate(Date(year, month, day)) then InvalidThisYear
      else ThisYear(Date(year, month, day))
  }

  /** Lines 235-239: a past date moves to next year unless that date does not exist. */
  function RollForward(d: Date, past: bool): Date {
    var next := Date(d.year + 1, d.month, d.day);
    if past && ValidDate(next) then next else d
  }

  /** The result of `get_weekday`: a name, or an exception that escapes it. */
  datatype Answer = Returns(name: string) | RaisesOverflow

  function NameDay(e: EventDay, now: DateTime, sameDayIsPast: bool): Answer {
    match e
    case Unparsed => Returns(UnknownDay)
    case InvalidThisYear => Returns(UnknownDay)
    case Overflow => RaisesOverflow
    case ThisYear(d) =>
      var past := if sameDayIsPast then MidnightBefore(d, now) else Precedes(d, now.date);
      var chosen := RollForward(d, past);
      if ValidDate(chosen) then Returns(WeekdayNames[Weekday(chosen)]) else Returns(UnknownDay)
  }

  /** `get_weekday` as written: midnight of the event day is compared with the current instant. */
  function GetWeekdayAsWritten(s: string, now: DateTime): Answer {
    NameDay(ParseEventDay(s, now.date.year), now, true)
  }

  /** `get_weekday` comparing calendar dates, so the event day itself counts as upcoming. */
  function GetWeekday(s: string, now: DateTime): Answer {
    NameDay(ParseEventDay(s, now.date.year), now, false)
  }

  /** No weekday name is the sentinel, so it never stands for a real day. */
  lemma NameDayUnknownExactly(e: EventDay, now: DateTime, sameDayIsPast: bool)
    requires e.ThisYear? ==> ValidDate(e.d)
    ensures NameDay(e, now, sameDayIsPast) == Returns(UnknownDay) <==> e.Unparsed? || e.InvalidThisYear?
    ensures NameDay(e, now, sameDayIsPast) == RaisesOverflow <==> e.Overflow?
  {
    if e.ThisYear? {
      assert forall i :: 0 <= i < 7 ==> WeekdayNames[i] != UnknownDay by {
        assert |UnknownDay| == 14;
        assert forall i :: 0 <= i < 7 ==> |WeekdayNames[i]| < 14;
      }
    }
  }

  /**
    The sentinel is returned exactly when the text is not "day.month" in
    integers or names no day of the current year; the helper raises exactly
    when a part does not fit a C int.
   */
  lemma UnknownDayExactly(s: string, now: DateTime)
    ensures GetWeekdayAsWritten(s, now) == Returns(UnknownDay) <==>
      || ParseDayMonth(s).None?
      || (var (day, month) := ParseDayMonth(s).value;
          InCInt(month) && InCInt(day) && !ValidDate(Date(now.date.year, month, day)))
    ensures GetWeekdayAsWritten(s, now) == RaisesOverflow <==>
      ParseDayMonth(s).Some? && (var (day, month) := ParseDayMonth(s).value; !InCInt(month) || !InCInt(day))
    ensures GetWeekday(s, now) == Returns(UnknownDay) <==>
      || ParseDayMonth(s).None?
      || (var (day, month) := ParseDayMonth(s).value;
          InCInt(month) && InCInt(day) && !ValidDate(Date(now.date.year, month, day)))
    ensures GetWeekday(s, now) == RaisesOverflow <==>
      ParseDayMonth(s).Some? && (var (day, month) := ParseDayMonth(s).value; !InCInt(month) || !InCInt(day))
  {
    NameDayUnknownExactly(ParseEventDay(s, now.date.year), now, true);
    NameDayUnknownExactly(ParseEventDay(s, now.date.year), now, false);
  }

  /**
    A date text that opens with an ASCII separator U+001C to U+001F is no
    date: `int()` does not skip the separator, so the sentinel comes back.
   */
  lemma SeparatorPaddedDateUnknown(c: char, rest: string, now: DateTime)
    requires '\U{1C}' <= c <= '\U{1F}'
    ensures ParseDayMonth([c] + rest) == None
    ensures GetWeekdayAsWritten([c] + rest, now) == Returns(UnknownDay)
    ensures GetWeekday([c] + rest, now) == Returns(UnknownDay)
  {
    var s := [c] + rest;
    assert s[1..] == rest;
    assert Split(s, '.')[0] == [c] + Split(rest, '.')[0];
    SeparatorNotSkipped(c, Split(rest, '.')[0]);
  }

  /** A date already gone this year is named by its weekday next year. */
  lemma PastDateRollsToNextYear(e: EventDay, now: DateTime)
    requires e.ThisYear? && ValidDateTime(now)
    requires Precedes(e.d, now.date) && ValidDate(Date(e.d.year + 1, e.d.month, e.d.day))
    ensures NameDay(e, now, false) == Returns(WeekdayNames[Weekday(Date(e.d.year + 1, e.d.month, e.d.day))])
    ensures NameDay(e, now, true) == NameDay(e, now, false)
  {
  }

  /**
    The date that is named is never before today, except for 29 February
    after it has passed in a leap year, which has no next-year date.
   */
  lemma NamedDateNotPast(d: Date, today: Date)
    requires ValidDate(d) && ValidDate(today) && d.year == today.year
    ensures var chosen := RollForward(d, Precedes(d, today));
      !Precedes(chosen, today) || (chosen == d && !ValidDate(Date(d.year + 1, d.month, d.day)))
    ensures !Precedes(d, today) ==> RollForward(d, Precedes(d, today)) == d
  {
  }

  /**
    A date still to come keeps its own year and is named by its own weekday:
    as written, while its midnight has not passed; comparing dates, while it
    is not before today, so on the event day itself too.
   */
  lemma UpcomingDateKeepsYear(d: Date, now: DateTime)
    requires ValidDate(d) && ValidDateTime(now) && d.year == now.date.year
    ensures !MidnightBefore(d, now) ==> NameDay(ThisYear(d), now, true) == Returns(WeekdayNames[Weekday(d)])
    ensures !Precedes(d, now.date) ==> NameDay(ThisYear(d), now, false) == Returns(WeekdayNames[Weekday(d)])
  {
  }

  /**
    As written, on the event day itself any moment after midnight counts as
    past, so the helper names the weekday of the date a year later, which is
    always a different weekday.
   */
  lemma EventDayRollsAsWritten(d: Date, now: DateTime)
    requires ValidDate(d) && ValidDateTime(now)
    requires now.date == d && now.micros > 0
    requires ValidDate(Date(d.year + 1, d.month, d.day))
    ensures NameDay(ThisYear(d), now, true) == Returns(WeekdayNames[Weekday(Date(d.year + 1, d.month, d.day))])
    ensures NameDay(ThisYear(d), now, false) == Returns(WeekdayNames[Weekday(d)])
    ensures NameDay(ThisYear(d), now, true) != NameDay(ThisYear(d), now, false)
  {
    var next := Date(d.year + 1, d.month, d.day);
    WeekdayNextYearDiffers(d);
    assert forall i, j :: 0 <= i < j < 7 ==> WeekdayNames[i] != WeekdayNames[j] by {
      assert WeekdayNames[0][0] != WeekdayNames[1][0];
    }
  }

  lemma DefaultDateSplits()
    ensures Split("18.02", '.') == ["18", "02"]
  {
    assert "18.02" == "18" + ['.'] + "02";
    SplitAtSeparator("18", '.', "02");
    SplitNoSeparator("02", '.');
  }

  lemma DefaultDayParses()
    ensures ParseInt("18") == Some(18)
  {
    assert "18" == ['1', '8'];
    TwoDigitsValue('1', '8');
    ParseDigits("18");
  }

  lemma DefaultMonthParses()
    ensures ParseInt("02") == Some(2)
  {
    assert "02" == ['0', '2'];
    TwoDigitsValue('0', '2');
    ParseDigits("02");
  }

  /** The default event date "18.02" reads as day 18 of month 2. */
  lemma DefaultDateParses()
    ensures ParseDayMonth("18.02") == Some((18, 2))
  {
    DefaultDateSplits();
    DefaultDayParses();
    DefaultMonthParses();
  }

  /**
    On 18 February 2025 (a Tuesday) at 10:00, for the event date "18.02" (see
    DefaultDateParses), the helper as written names Wednesday, the weekday of
    18 February 2026; comparing dates names Tuesday.
   */
  lemma EventDayExample(s: string)
    requires ParseDayMonth(s) == Some((18, 2))
    ensures GetWeekdayAsWritten(s, DateTime(Date(2025, 2, 18), 36_000_000_000)) == Returns("Середа")
    ensures GetWeekday(s, DateTime(Date(2025, 2, 18), 36_000_000_000)) == Returns("Вівторок")
  {
    var now := DateTime(Date(2025, 2, 18), 36_000_000_000);
    assert ParseEventDay(s, 2025) == ThisYear(Date(2025, 2, 18));
    EventDayNames(now);
  }

  lemma EventDayNames(now: DateTime)
    requires now == DateTime(Date(2025, 2, 18), 36_000_000_000)
    ensures NameDay(ThisYear(Date(2025, 2, 18)), now, true) == Returns("Середа")
    ensures NameDay(ThisYear(Date(2025, 2, 18)), now, false) == Returns("Вівторок")
  {
    assert Weekday(Date(2025, 2, 18)) == 1;
    assert Weekday(Date(2026, 2, 18)) == 2;
  }
}
