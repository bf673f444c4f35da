/**
 * Timestamps: the formatter (days to civil date, written in `work.rs` and again in
 * `security.rs`) and the parser (civil date to days, in `gate.rs`).
 */
module Calendar {
  import opened Common
  import opened Digits

  // ---------- the formatter ----------

  datatype Civil = Civil(year: int, month: int, day: int)

  /** Years start in March; day 0 of an era is the first of March of a year divisible by 400. */
  function YearOfEra(doe: int): int {
    (doe - doe / 1460 + doe / 36524 - doe / 146096) / 365
  }

  function CivilFromDays(days: nat): Civil {
    var shifted := days + 719468;
    var era := shifted / 146097;
    var doe := shifted % 146097;
    var yoe := YearOfEra(doe);
    var doy := doe - (365 * yoe + yoe / 4 - yoe / 100);
    var mp := (5 * doy + 2) / 153;
    var day := doy - (153 * mp + 2) / 5 + 1;
    var month := if mp < 10 then mp + 3 else mp - 9;
    Civil(yoe + era * 400 + (if month <= 2 then 1 else 0), month, day)
  }

  function PaddedInt(n: int, width: nat): seq<byte> {
    if n >= 0 then Padded(n, width) else []
  }

  function Mark(c: char): seq<byte>
    requires (c as int) < 128
  {
    [c as int]
  }

  function Layout(year: seq<byte>, month: seq<byte>, day: seq<byte>,
                  hour: seq<byte>, minute: seq<byte>, second: seq<byte>): seq<byte> {
    year + (Mark('-') + (month + (Mark('-') + (day + (Mark('T') + (hour + (Mark(':') + (minute
    + (Mark(':') + (second + Mark('Z')))))))))))
  }

  function Format(secs: nat): seq<byte> {
    var date := CivilFromDays(secs / 86400);
    var (hour, minute, second) := (secs % 86400 / 3600, secs % 3600 / 60, secs % 60);
    Layout(PaddedInt(date.year, 4), PaddedInt(date.month, 2), PaddedInt(date.day, 2),
           Padded(hour, 2), Padded(minute, 2), Padded(second, 2))
  }

  // ---------- the parser ----------

  /** Rust's `i64::from_str`: an optional sign, then at least one digit. */
  function ParseInt(s: seq<byte>): Option<int> {
    var signed := s != [] && (s[0] == '+' as int || s[0] == '-' as int);
    var digits := if signed then s[1..] else s;
    if digits == [] || !AllDigits(digits) then None
    else
      var v := if signed && s[0] == '-' as int then -DigitsValue(digits) else DigitsValue(digits);
      if -0x8000_0000_0000_0000 <= v < 0x8000_0000_0000_0000 then Some(v) else None
  }

  function DaysFromCivil(year: int, month: int, day: int): int {
    var y := if month <= 2 then year - 1 else year;
    var era := y / 400;
    var yoe := y - era * 400;
    var mp := (month + 9) % 12;
    var doy := (153 * mp + 2) / 5 + day - 1;
    var doe := yoe * 365 + yoe / 4 - yoe / 100 + doy;
    era * 146097 + doe - 719468
  }

  /** `YYYY-MM-DDTHH:MM:SS`, anything after it ignored. */
  function ParseIso(b: seq<byte>): Option<int> {
    if |b| < 19 || b[4] != '-' as int || b[7] != '-' as int || b[10] != 'T' as int
       || b[13] != ':' as int || b[16] != ':' as int then None
    else
      match (ParseInt(b[0..4]), ParseInt(b[5..7]), ParseInt(b[8..10]),
             ParseInt(b[11..13]), ParseInt(b[14..16]), ParseInt(b[17..19]))
      case (Some(year), Some(month), Some(day), Some(hour), Some(minute), Some(second)) =>
        if !(1 <= month <= 12) || !(1 <= day <= 31) || hour > 23 || minute > 59 || second > 60 then None
        else Some(DaysFromCivil(year, month, day) * 86400 + hour * 3600 + minute * 60 + second)
      case _ => None
  }

  // ---------- the division of an era ----------

  /** Days from the first of March of year 0 to that of year `y`. */
  function YearStart(y: int): int {
    365 * y + y / 4 - y / 100 + y / 400
  }

  /** The formula finds the year, given the year's centuries, four-year spans and remainder. */
  lemma YearFormula(c: int, k: int, j: int, doy: int)
    requires 0 <= c <= 3 && 0 <= k <= 24 && 0 <= j <= 3
    requires 0 <= doy <= 365
    requires doy == 365 ==> j == 3 && (k < 24 || c == 3)
    ensures YearOfEra(36524 * c + 1461 * k + 365 * j + doy) == 100 * c + 4 * k + j
  {
    var rest := 1461 * k + 365 * j + doy;
    var doe := 36524 * c + rest;
    var last := if c == 3 && rest == 36524 then 1 else 0;
    assert doe / 36524 == c + last;
    assert doe / 146096 == last;
    var d := if 24 * c + k + 365 * j + doy >= 1460 then 1 else 0;
    assert doe == 1460 * (25 * c + k) + (24 * c + k + 365 * j + doy);
    assert doe / 1460 == 25 * c + k + d;
  }

  /** Centuries, four-year spans, years and days of a day of the era. */
  lemma Decompose(doe: int) returns (c: int, k: int, j: int, doy: int)
    requires 0 <= doe < 146097
    ensures 0 <= c <= 3 && 0 <= k <= 24 && 0 <= j <= 3 && 0 <= doy <= 365
    ensures doy == 365 ==> j == 3 && (k < 24 || c == 3)
    ensures doe == 36524 * c + 1461 * k + 365 * j + doy
  {
    c := if doe / 36524 > 3 then 3 else doe / 36524;
    var r := doe - 36524 * c;
    k := if r / 1461 > 24 then 24 else r / 1461;
    var r2 := r - 1461 * k;
    j := if r2 / 365 > 3 then 3 else r2 / 365;
    doy := r2 - 365 * j;
  }

  /** Every day of an era lies in the year the formula names. */
  lemma YearOfEraIsRight(doe: int)
    requires 0 <= doe < 146097
    ensures var y := YearOfEra(doe); 0 <= y < 400 && YearStart(y) <= doe < YearStart(y + 1)
  {
    hide YearOfEra;
    var c, k, j, doy := Decompose(doe);
    YearFormula(c, k, j, doy);
    var y := 100 * c + 4 * k + j;
    assert y / 4 == 25 * c + k && y / 100 == c && y / 400 == 0;
    YearStartNext(c, k, j);
  }

  lemma YearStartNext(c: int, k: int, j: int)
    requires 0 <= c <= 3 && 0 <= k <= 24 && 0 <= j <= 3
    ensures var y := 100 * c + 4 * k + j;
            YearStart(y + 1) - YearStart(y) == if j == 3 && (k < 24 || c == 3) then 366 else 365
  {
    var y := 100 * c + 4 * k + j;
    assert y / 4 == 25 * c + k && y / 100 == c && y / 400 == 0;
    assert (y + 1) / 4 == 25 * c + k + (if j == 3 then 1 else 0);
    assert (y + 1) / 100 == c + (if j == 3 && k == 24 then 1 else 0);
    assert (y + 1) / 400 == (if j == 3 && k == 24 && c == 3 then 1 else 0);
  }

  /** A date as the formatter sees it: a year starting in March, a month from March on, and a day. */
  ghost predicate Splits(days: int, y: int, mp: int, day: int) {
    && 0 <= mp <= 11 && 1 <= day <= 31
    && days + 719468 == YearStart(y) + (153 * mp + 2) / 5 + day - 1
    && days + 719468 < YearStart(y + 1)
    && (153 * mp + 2) / 5 + day - 1 < (153 * (mp + 1) + 2) / 5
  }

  function MarchBased(c: Civil): (int, int) {
    if c.month <= 2 then (c.year - 1, c.month + 9) else (c.year, c.month - 3)
  }

  lemma CivilSplits(days: nat)
    ensures var c := CivilFromDays(days);
            var (y, mp) := MarchBased(c);
            1 <= c.month <= 12 && Splits(days, y, mp, c.day)
  {
    hide YearOfEra, YearStart;
    var doe := (days + 719468) % 146097;
    var era := (days + 719468) / 146097;
    var yoe := YearOfEra(doe);
    YearOfEraIsRight(doe);
    EraStart(era, yoe);
    EraStart(era, yoe + 1);
    YearLength(yoe);
    YearStartInEra(yoe);
    MonthOfDay(doe - YearStart(yoe));
  }

  lemma YearLength(y: int)
    ensures 365 <= YearStart(y + 1) - YearStart(y) <= 366
  {
    hide YearStart;
    var era, yoe := y / 400, y % 400;
    YearStartNext(yoe / 100, yoe % 100 / 4, yoe % 4);
    EraStart(era, yoe);
    EraStart(era, yoe + 1);
  }

  /** The month formula and its inverse. */
  lemma MonthOfDay(doy: int)
    requires 0 <= doy <= 365
    ensures var mp := (5 * doy + 2) / 153;
            && 0 <= mp <= 11
            && (153 * mp + 2) / 5 <= doy < (153 * (mp + 1) + 2) / 5
            && doy - (153 * mp + 2) / 5 < 31
  {}

  lemma YearStartInEra(yoe: int)
    requires 0 <= yoe < 400
    ensures YearStart(yoe) == 365 * yoe + yoe / 4 - yoe / 100
  {}

  lemma EraStart(era: int, yoe: int)
    ensures YearStart(400 * era + yoe) == 146097 * era + YearStart(yoe)
  {
    assert (400 * era + yoe) / 4 == 100 * era + yoe / 4;
    assert (400 * era + yoe) / 100 == 4 * era + yoe / 100;
    assert (400 * era + yoe) / 400 == era + yoe / 400;
  }

  /** The parser's arithmetic inverts the formatter's, for every day since the epoch. */
  lemma CivilRoundTrip(days: nat)
    ensures var c := CivilFromDays(days); DaysFromCivil(c.year, c.month, c.day) == days
  {
    hide CivilFromDays, YearStart;
    var c := CivilFromDays(days);
    CivilSplits(days);
    var (y, mp) := MarchBased(c);
    var era, yoe := y / 400, y % 400;
    EraStart(era, yoe);
    YearStartInEra(yoe);
    assert (c.month + 9) % 12 == mp;
  }

  // ---------- timestamps ----------

  /** The first second of year 10000, which no longer fits the four-digit year. */
  const END_OF_9999 := 253402300800

  lemma MonthsAreOrdered(a: int, ya: int, ma: int, da: int, b: int, yb: int, mb: int, db: int)
    requires Splits(a, ya, ma, da) && Splits(b, yb, mb, db)
    ensures 12 * ya + ma < 12 * yb + mb ==> a < b
  {
    if ya < yb {
      YearsAreOrdered(ya + 1, yb);
    } else if ya == yb && ma < mb {
      assert 153 * (ma + 1) <= 153 * mb;
    }
  }

  lemma {:induction false} YearsAreOrdered(y: int, z: int)
    requires y <= z
    ensures YearStart(y) <= YearStart(z)
    decreases z - y
  {
    if y < z {
      YearLength(y);
      YearsAreOrdered(y + 1, z);
    }
  }

  function CompareDate(a: Civil, b: Civil): Ordering {
    CompareInt(a.year, b.year).Then(CompareInt(a.month, b.month)).Then(CompareInt(a.day, b.day))
  }

  /** Civil dates are ordered as the days they name. */
  lemma DatesAreOrdered(a: nat, b: nat)
    ensures CompareDate(CivilFromDays(a), CivilFromDays(b)) == CompareInt(a, b)
  {
    hide CivilFromDays, YearStart;
    var c, d := CivilFromDays(a), CivilFromDays(b);
    CivilSplits(a);
    CivilSplits(b);
    var (ya, ma) := MarchBased(c);
    var (yb, mb) := MarchBased(d);
    assert 12 * ya + ma == 12 * c.year + c.month - 3 && 12 * yb + mb == 12 * d.year + d.month - 3;
    MonthsAreOrdered(a, ya, ma, c.day, b, yb, mb, d.day);
    MonthsAreOrdered(b, yb, mb, d.day, a, ya, ma, c.day);
  }

  lemma FourDigitYears(days: nat)
    ensures var c := CivilFromDays(days);
            c.year >= 1970 && (c.year < 10000 <==> days < END_OF_9999 / 86400)
  {
    hide CivilFromDays;
    DatesAreOrdered(days, END_OF_9999 / 86400);
    DatesAreOrdered(0, days);
    KnownDates();
    CivilSplits(days);
  }

  lemma KnownDates()
    ensures CivilFromDays(0) == Civil(1970, 1, 1)
    ensures CivilFromDays(END_OF_9999 / 86400) == Civil(10000, 1, 1)
  {
    assert YearOfEra(135080) == 369;
    assert YearOfEra(146037) == 399;
    hide YearOfEra;
    assert 0 + 719468 == 4 * 146097 + 135080;
    assert END_OF_9999 / 86400 + 719468 == 24 * 146097 + 146037;
  }

  lemma ParsePadded(n: nat, width: nat)
    requires 0 < width && n < 10000
    ensures ParseInt(Padded(n, width)) == Some(n)
  {
    PaddedValue(n, width);
    assert IsDigit(Padded(n, width)[0]);
  }

  lemma ParseLayout(y: nat, m: nat, d: nat, h: nat, i: nat, s: nat)
    requires y < 10000 && m < 100 && d < 100 && h < 100 && i < 100 && s < 100
    ensures ParseIso(Layout(Padded(y, 4), Padded(m, 2), Padded(d, 2), Padded(h, 2), Padded(i, 2), Padded(s, 2)))
            == if 1 <= m <= 12 && 1 <= d <= 31 && h <= 23 && i <= 59 && s <= 60
               then Some(DaysFromCivil(y, m, d) * 86400 + h * 3600 + i * 60 + s) else None
  {
    hide Padded, ParseInt, DaysFromCivil, Layout;
    assert Pow10(2) == 100 && Pow10(4) == 10000;
    PaddedValue(y, 4);
    PaddedValue(m, 2);
    PaddedValue(d, 2);
    PaddedValue(h, 2);
    PaddedValue(i, 2);
    PaddedValue(s, 2);
    LayoutFields(Padded(y, 4), Padded(m, 2), Padded(d, 2), Padded(h, 2), Padded(i, 2), Padded(s, 2));
    ParsePadded(y, 4);
    ParsePadded(m, 2);
    ParsePadded(d, 2);
    ParsePadded(h, 2);
    ParsePadded(i, 2);
    ParsePadded(s, 2);
  }

  lemma LayoutFields(y: seq<byte>, m: seq<byte>, d: seq<byte>, h: seq<byte>, i: seq<byte>, s: seq<byte>)
    requires |y| == 4 && |m| == |d| == |h| == |i| == |s| == 2
    ensures var b := Layout(y, m, d, h, i, s);
            && |b| == 20 && b[4] == b[7] == '-' as int && b[10] == 'T' as int && b[13] == b[16] == ':' as int
            && b[0..4] == y && b[5..7] == m && b[8..10] == d && b[11..13] == h && b[14..16] == i && b[17..19] == s
  {
    var b := Layout(y, m, d, h, i, s);
    var s1 := s + Mark('Z');
    var i1 := i + (Mark(':') + s1);
    var h1 := h + (Mark(':') + i1);
    var d1 := d + (Mark('T') + h1);
    assert b[8..] == d1 && b[11..] == h1 && b[14..] == i1 && b[17..] == s1;
    assert b[17..19] == s1[..2] && b[14..16] == i1[..2] && b[11..13] == h1[..2] && b[8..10] == d1[..2];
  }

  /** A year of five digits or more pushes the first dash out of place. */
  lemma LongYearUnreadable(y: nat, rest: seq<byte>)
    requires y >= 10000
    ensures ParseIso(Padded(y, 4) + rest) == None
  {
    hide Padded;
    assert Pow10(4) == 10000;
    PaddedValue(y, 4);
    assert (Padded(y, 4) + rest)[4] == Padded(y, 4)[4];
    assert IsDigit(Padded(y, 4)[4]);
  }

  /**
   * Parsing a formatted time gives the time back for every second of a year of
   * four digits, and for no second after that.
   */
  lemma TimestampRoundTrip(secs: nat)
    ensures ParseIso(Format(secs)) == Some(secs) <==> secs < 253402300800
  {
    hide CivilFromDays, DaysFromCivil, Padded, ParseIso;
    var days := secs / 86400;
    var c := CivilFromDays(days);
    FourDigitYears(days);
    CivilSplits(days);
    ClockParts(secs);
    if c.year >= 10000 {
      LongYearUnreadable(c.year, Format(secs)[|Padded(c.year, 4)|..]);
      assert Format(secs) == Padded(c.year, 4) + Format(secs)[|Padded(c.year, 4)|..];
    } else {
      ParseLayout(c.year, c.month, c.day, secs % 86400 / 3600, secs % 3600 / 60, secs % 60);
      CivilRoundTrip(days);
    }
  }

  /** One zero-padded field and its mark, in front of what follows. */
  lemma FieldsSort(m: nat, n: nat, width: nat, c: char, p: seq<byte>, q: seq<byte>)
    requires 0 < width && m < Pow10(width) && n < Pow10(width) && (c as int) < 128
    ensures CompareSeq(Padded(m, width) + (Mark(c) + p), Padded(n, width) + (Mark(c) + q))
            == CompareInt(m, n).Then(CompareSeq(p, q))
  {
    hide Padded, CompareSeq;
    PaddedValue(m, width);
    PaddedValue(n, width);
    SameLengthIsNumeric(Padded(m, width), Padded(n, width));
    CompareConcat(Padded(m, width), Mark(c) + p, Padded(n, width), Mark(c) + q);
    CompareConcat(Mark(c), p, Mark(c), q);
    CompareSeqReverses(Mark(c), Mark(c));
  }

  lemma LayoutsSort(y: nat, m: nat, d: nat, h: nat, i: nat, s: nat, y': nat, m': nat, d': nat, h': nat, i': nat,
      s': nat)
    requires y < 10000 && m < 100 && d < 100 && h < 100 && i < 100 && s < 100
    requires y' < 10000 && m' < 100 && d' < 100 && h' < 100 && i' < 100 && s' < 100
    ensures CompareSeq(Layout(Padded(y, 4), Padded(m, 2), Padded(d, 2), Padded(h, 2), Padded(i, 2), Padded(s, 2)),
                       Layout(Padded(y', 4), Padded(m', 2), Padded(d', 2), Padded(h', 2), Padded(i', 2), Padded(s', 2)))
            == CompareInt(y, y').Then(CompareInt(m, m')).Then(CompareInt(d, d'))
               .Then(CompareInt(h, h')).Then(CompareInt(i, i')).Then(CompareInt(s, s'))
  {
    hide Padded, CompareSeq, CompareInt;
    assert Pow10(2) == 100 && Pow10(4) == 10000;
    var z: seq<byte> := [];
    assert Mark('Z') + z == Mark('Z');
    CompareSeqReverses(z, z);
    FieldsSort(s, s', 2, 'Z', z, z);
    var (s1, t1) := (Padded(s, 2) + Mark('Z'), Padded(s', 2) + Mark('Z'));
    FieldsSort(i, i', 2, ':', s1, t1);
    var (s2, t2) := (Padded(i, 2) + (Mark(':') + s1), Padded(i', 2) + (Mark(':') + t1));
    FieldsSort(h, h', 2, ':', s2, t2);
    var (s3, t3) := (Padded(h, 2) + (Mark(':') + s2), Padded(h', 2) + (Mark(':') + t2));
    FieldsSort(d, d', 2, 'T', s3, t3);
    var (s4, t4) := (Padded(d, 2) + (Mark('T') + s3), Padded(d', 2) + (Mark('T') + t3));
    FieldsSort(m, m', 2, '-', s4, t4);
    FieldsSort(y, y', 4, '-', Padded(m, 2) + (Mark('-') + s4), Padded(m', 2) + (Mark('-') + t4));
  }

  /** Formatted times sort as byte strings the way the times do. */
  lemma TimestampsSort(s: nat, t: nat)
    requires s < 253402300800 && t < 253402300800
    ensures CompareSeq(Format(s), Format(t)) == CompareInt(s, t)
  {
    hide CivilFromDays, Padded, CompareSeq, Layout;
    var a, b := CivilFromDays(s / 86400), CivilFromDays(t / 86400);
    FourDigitYears(s / 86400);
    FourDigitYears(t / 86400);
    CivilSplits(s / 86400);
    CivilSplits(t / 86400);
    ClockOrder(s, t);
    ClockParts(s);
    ClockParts(t);
    DatesAreOrdered(s / 86400, t / 86400);
    LayoutsSort(a.year, a.month, a.day, s % 86400 / 3600, s % 3600 / 60, s % 60,
                b.year, b.month, b.day, t % 86400 / 3600, t % 3600 / 60, t % 60);
  }

  /** Days, hours, minutes and seconds, in that order, decide which time is earlier. */
  lemma ClockOrder(s: nat, t: nat)
    ensures CompareInt(s, t)
            == CompareInt(s / 86400, t / 86400).Then(CompareInt(s % 86400 / 3600, t % 86400 / 3600))
               .Then(CompareInt(s % 3600 / 60, t % 3600 / 60)).Then(CompareInt(s % 60, t % 60))
  {
    ClockParts(s);
    ClockParts(t);
  }

  lemma ClockParts(s: nat)
    ensures s == 86400 * (s / 86400) + 3600 * (s % 86400 / 3600) + 60 * (s % 3600 / 60) + s % 60
    ensures s % 86400 / 3600 < 24 && s % 3600 / 60 < 60
  {
    assert s % 86400 % 3600 == s % 3600;
    assert s % 3600 % 60 == s % 60;
  }
}
