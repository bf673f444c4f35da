/** The calendar and the text of times, in plain terms. */
module CalendarLaws {
  import opened Common
  import opened Digits
  import opened Calendar

  predicate Leap(y: int) { y % 4 == 0 && (y % 100 != 0 || y % 400 == 0) }

  function MonthLength(y: int, m: int): int {
    if m == 2 then if Leap(y) then 29 else 28 else if m == 4 || m == 6 || m == 9 || m == 11 then 30 else 31
  }

  function NextDay(c: Civil): Civil {
    if c.day < MonthLength(c.year, c.month) then Civil(c.year, c.month, c.day + 1)
    else if c.month < 12 then Civil(c.year, c.month + 1, 1)
    else Civil(c.year + 1, 1, 1)
  }

  lemma OneMore(n: int, k: int)
    requires k in {4, 100, 400}
    ensures (n + 1) / k - n / k == if (n + 1) % k == 0 then 1 else 0
  {}

  /** A year from March to February has the length of the year its February lies in. */
  lemma LeapLength(y: int)
    ensures YearStart(y + 1) - YearStart(y) == if Leap(y + 1) then 366 else 365
  {
    OneMore(y, 4);
    OneMore(y, 100);
    OneMore(y, 400);
  }

  lemma OneSplit(days: int, y: int, m: int, d: int, y': int, m': int, d': int)
    requires Splits(days, y, m, d) && Splits(days, y', m', d')
    ensures y == y' && m == m' && d == d'
  {
    MonthsAreOrdered(days, y, m, d, days, y', m', d');
    MonthsAreOrdered(days, y', m', d', days, y, m, d);
    hide YearStart;
  }

  /** The days of the months from March on. */
  lemma MonthDays(mp: int, y: int)
    requires 0 <= mp <= 10
    ensures (153 * (mp + 1) + 2) / 5 - (153 * mp + 2) / 5 == MonthLength(y, if mp < 10 then mp + 3 else mp - 9)
  {}

  lemma NextSplit(days: int, y: int, mp: int, d: int)
    requires Splits(days, y, mp, d)
    ensures d <= MonthLength(if mp < 10 then y else y + 1, if mp < 10 then mp + 3 else mp - 9)
    ensures if d < MonthLength(if mp < 10 then y else y + 1, if mp < 10 then mp + 3 else mp - 9) then
              Splits(days + 1, y, mp, d + 1)
            else if mp < 11 then Splits(days + 1, y, mp + 1, 1)
            else Splits(days + 1, y + 1, 0, 1)
  {
    hide YearStart, Leap;
    LeapLength(y);
    LeapLength(y + 1);
    if mp < 11 { MonthDays(mp, if mp < 10 then y else y + 1); }
  }

  lemma DateOf(c: Civil, y: int, mp: int)
    requires 1 <= c.month <= 12 && MarchBased(c) == (y, mp)
    ensures c == Civil(if mp < 10 then y else y + 1, if mp < 10 then mp + 3 else mp - 9, c.day)
  {}

  lemma NextDayIs(c: Civil, c': Civil, mp: int, mp': int, y: int, y': int)
    requires 0 <= mp <= 11 && 0 <= mp' <= 11
    requires c == Civil(if mp < 10 then y else y + 1, if mp < 10 then mp + 3 else mp - 9, c.day)
    requires c' == Civil(if mp' < 10 then y' else y' + 1, if mp' < 10 then mp' + 3 else mp' - 9, c'.day)
    requires c.day <= MonthLength(c.year, c.month)
    requires if c.day < MonthLength(c.year, c.month) then y' == y && mp' == mp && c'.day == c.day + 1
             else if mp < 11 then y' == y && mp' == mp + 1 && c'.day == 1
             else y' == y + 1 && mp' == 0 && c'.day == 1
    ensures c' == NextDay(c)
  {
    hide MonthLength;
  }

  lemma SplitMonth(days: int, y: int, mp: int, d: int)
    requires Splits(days, y, mp, d)
    ensures 0 <= mp <= 11
  {}

  /** The days since 1970 are the days of the calendar, one after another. */
  lemma DayByDay(days: nat)
    ensures CivilFromDays(0) == Civil(1970, 1, 1)
    ensures CivilFromDays(days + 1) == NextDay(CivilFromDays(days))
  {
    hide *;
    KnownDates();
    CivilSplits(days);
    CivilSplits(days + 1);
    var c, c' := CivilFromDays(days), CivilFromDays(days + 1);
    var (y, mp) := MarchBased(c);
    var (y', mp') := MarchBased(c');
    SplitMonth(days, y, mp, c.day);
    SplitMonth(days + 1, y', mp', c'.day);
    NextSplit(days, y, mp, c.day);
    DateOf(c, y, mp);
    DateOf(c', y', mp');
    if c.day < MonthLength(c.year, c.month) {
      OneSplit(days + 1, y', mp', c'.day, y, mp, c.day + 1);
    } else if mp < 11 {
      OneSplit(days + 1, y', mp', c'.day, y, mp + 1, 1);
    } else {
      OneSplit(days + 1, y', mp', c'.day, y + 1, 0, 1);
    }
    NextDayIs(c, c', mp, mp', y, y');
  }

  /** The text of a time before the year 10000, character by character. */
  lemma TextOfTime(secs: nat)
    requires secs < 253402300800
    ensures var b, c := Format(secs), CivilFromDays(secs / 86400);
            && |b| == 20 && b[4] == '-' as int && b[7] == '-' as int && b[10] == 'T' as int
            && b[13] == ':' as int && b[16] == ':' as int && b[19] == 'Z' as int
            && AllDigits(b[0..4]) && DigitsValue(b[0..4]) == c.year
            && AllDigits(b[5..7]) && DigitsValue(b[5..7]) == c.month
            && AllDigits(b[8..10]) && DigitsValue(b[8..10]) == c.day
            && AllDigits(b[11..13]) && DigitsValue(b[11..13]) == secs % 86400 / 3600
            && AllDigits(b[14..16]) && DigitsValue(b[14..16]) == secs % 3600 / 60
            && AllDigits(b[17..19]) && DigitsValue(b[17..19]) == secs % 60
  {
    hide *;
    var days := secs / 86400;
    var c := CivilFromDays(days);
    FourDigitYears(days);
    CivilSplits(days);
    DayFits(days, c);
    ClockParts(secs);
    Powers();
    PaddedValue(c.year, 4);
    PaddedValue(c.month, 2);
    PaddedValue(c.day, 2);
    PaddedValue(secs % 86400 / 3600, 2);
    PaddedValue(secs % 3600 / 60, 2);
    PaddedValue(secs % 60, 2);
    FormatIs(secs);
    LayoutFields(Padded(c.year, 4), Padded(c.month, 2), Padded(c.day, 2), Padded(secs % 86400 / 3600, 2),
                 Padded(secs % 3600 / 60, 2), Padded(secs % 60, 2));
    EndsInZ(Padded(c.year, 4), Padded(c.month, 2), Padded(c.day, 2), Padded(secs % 86400 / 3600, 2),
            Padded(secs % 3600 / 60, 2), Padded(secs % 60, 2));
  }

  lemma Powers()
    ensures Pow10(2) == 100 && Pow10(4) == 10000 && END_OF_9999 == 253402300800
  {}

  lemma DayFits(days: int, c: Civil)
    requires var (y, mp) := MarchBased(c); Splits(days, y, mp, c.day)
    ensures 1 <= c.day <= 31
  {}

  lemma FormatIs(secs: nat)
    ensures var c := CivilFromDays(secs / 86400);
            c.year >= 0 && c.month >= 0 && c.day >= 0 ==>
            Format(secs) == Layout(Padded(c.year, 4), Padded(c.month, 2), Padded(c.day, 2),
                                   Padded(secs % 86400 / 3600, 2), Padded(secs % 3600 / 60, 2), Padded(secs % 60, 2))
  {
    hide CivilFromDays, Padded, Layout;
  }

  lemma EndsInZ(y: seq<byte>, m: seq<byte>, d: seq<byte>, h: seq<byte>, i: seq<byte>, s: seq<byte>)
    ensures var b := Layout(y, m, d, h, i, s); b != [] && b[|b| - 1] == 'Z' as int
  {
    var s1 := s + Mark('Z');
    assert s1[|s1| - 1] == 'Z' as int;
    var i1 := i + (Mark(':') + s1);
    assert i1[|i1| - 1] == 'Z' as int;
    var h1 := h + (Mark(':') + i1);
    assert h1[|h1| - 1] == 'Z' as int;
    var d1 := d + (Mark('T') + h1);
    assert d1[|d1| - 1] == 'Z' as int;
    var m1 := m + (Mark('-') + d1);
    assert m1[|m1| - 1] == 'Z' as int;
  }

  lemma DigitsRead(s: seq<byte>)
    requires s != [] && |s| <= 4 && AllDigits(s)
    ensures ParseInt(s) == Some(DigitsValue(s))
  {
    assert IsDigit(s[0]);
    FewDigits(s);
  }

  lemma FewDigits(s: seq<byte>)
    requires AllDigits(s) && |s| <= 4
    ensures DigitsValue(s) < 10000
  {
    NumberBounds(s);
    assert Pow10(0) == 1 && Pow10(1) == 10 && Pow10(2) == 100 && Pow10(3) == 1000 && Pow10(4) == 10000;
  }

  /**
   * Any text with these fields in these places, whatever follows the seconds, is read as that
   * time of that day; a leap second is let through, and no later hour, minute or second.
   */
  lemma TimesRead(b: seq<byte>, day: nat)
    requires |b| >= 19 && b[4] == '-' as int && b[7] == '-' as int && b[10] == 'T' as int
    requires b[13] == ':' as int && b[16] == ':' as int
    requires AllDigits(b[0..4]) && AllDigits(b[5..7]) && AllDigits(b[8..10])
    requires AllDigits(b[11..13]) && AllDigits(b[14..16]) && AllDigits(b[17..19])
    requires CivilFromDays(day) == Civil(DigitsValue(b[0..4]), DigitsValue(b[5..7]), DigitsValue(b[8..10]))
    ensures var h, m, s := DigitsValue(b[11..13]), DigitsValue(b[14..16]), DigitsValue(b[17..19]);
            ParseIso(b) == if h <= 23 && m <= 59 && s <= 60 then Some(day * 86400 + h * 3600 + m * 60 + s) else None
  {
    hide *;
    DigitsRead(b[0..4]);
    DigitsRead(b[5..7]);
    DigitsRead(b[8..10]);
    DigitsRead(b[11..13]);
    DigitsRead(b[14..16]);
    DigitsRead(b[17..19]);
    CivilRoundTrip(day);
    CivilSplits(day);
    DayFits(day, CivilFromDays(day));
    ReadsTo(b, DigitsValue(b[0..4]), DigitsValue(b[5..7]), DigitsValue(b[8..10]), DigitsValue(b[11..13]),
            DigitsValue(b[14..16]), DigitsValue(b[17..19]));
  }

  lemma ReadsTo(b: seq<byte>, year: nat, month: nat, day: nat, h: nat, m: nat, s: nat)
    requires |b| >= 19 && b[4] == '-' as int && b[7] == '-' as int && b[10] == 'T' as int
    requires b[13] == ':' as int && b[16] == ':' as int
    requires ParseInt(b[0..4]) == Some(year) && ParseInt(b[5..7]) == Some(month) && ParseInt(b[8..10]) == Some(day)
    requires ParseInt(b[11..13]) == Some(h) && ParseInt(b[14..16]) == Some(m) && ParseInt(b[17..19]) == Some(s)
    requires 1 <= month <= 12 && 1 <= day <= 31
    ensures ParseIso(b) == if h <= 23 && m <= 59 && s <= 60 then
        Some(DaysFromCivil(year, month, day) * 86400 + h * 3600 + m * 60 + s) else None
  {
    hide ParseInt, DaysFromCivil;
  }
}
