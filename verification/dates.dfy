/**
  `parse_envelope_date`: the envelope's `date` text read with the fixed pattern
  `YYYY-MM-DD HH:MM+hh:mm` (chrono's `%Y-%m-%d %H:%M%:z`) as an instant, counted in minutes
  since 1970-01-01 00:00 UTC. Comparing two parsed dates compares these instants.
*/
module Dates {
  import opened Wrappers
  import opened Records

  function DigitValue(c: char): Option<nat> {
    if '0' <= c <= '9' then Some(c as int - '0' as int) else None
  }

  function DigitChar(d: nat): char
    requires d < 10
  {
    ('0' as int + d) as char
  }

  function Pow10(n: nat): nat {
    if n == 0 then 1 else 10 * Pow10(n - 1)
  }

  /** The decimal number written by the `width` characters at `start`, if they are all digits. */
  function Number(s: string, start: nat, width: nat): Option<nat>
    requires start + width <= |s|
    decreases width
  {
    if width == 0 then Some(0)
    else
      match Number(s, start, width - 1)
      case None => None
      case Some(high) =>
        match DigitValue(s[start + width - 1])
        case None => None
        case Some(d) => Some(high * 10 + d)
  }

  /** A date-time with its UTC offset (`east` is true for `+`). */
  datatype Stamp = Stamp(year: nat, month: nat, day: nat, hour: nat, minute: nat,
                         east: bool, offsetHours: nat, offsetMinutes: nat)

  predicate IsLeapYear(y: int) {
    y % 4 == 0 && (y % 100 != 0 || y % 400 == 0)
  }

  function DaysInMonth(y: int, m: nat): nat
    requires 1 <= m <= 12
  {
    if m == 2 then (if IsLeapYear(y) then 29 else 28)
    else if m == 4 || m == 6 || m == 9 || m == 11 then 30
    else 31
  }

  /** The calendar and offset ranges chrono accepts: a real day, a time of day, an offset under 24 hours. */
  predicate ValidStamp(st: Stamp) {
    && st.year < 10000
    && 1 <= st.month <= 12 && 1 <= st.day <= DaysInMonth(st.year, st.month)
    && st.hour < 24 && st.minute < 60
    && st.offsetHours < 24 && st.offsetMinutes < 60
  }

  /** Days from 1970-01-01 to the given proleptic Gregorian date. */
  function DaysFromCivil(y: int, m: nat, d: nat): int
    requires 1 <= m <= 12
  {
    var y' := if m <= 2 then y - 1 else y;
    var era := y' / 400;
    var yoe := y' - era * 400;
    var mp := (m + 9) % 12;
    var doy := (153 * mp + 2) / 5 + d - 1;
    var doe := yoe * 365 + yoe / 4 - yoe / 100 + doy;
    era * 146097 + doe - 719468
  }

  /** The next day of the same month is one day later. */
  lemma NextDayIsOneLater(y: int, m: nat, d: nat)
    requires 1 <= m <= 12
    ensures DaysFromCivil(y, m, d + 1) == DaysFromCivil(y, m, d) + 1
  {
  }

  /**
    Days from 1970-03-01 to March 1 of year `y` in the algorithm of `DaysFromCivil`, whose
    years begin in March so that the leap day ends them.
  */
  function MarchFirst(y: int): int {
    var era := y / 400;
    var yoe := y - era * 400;
    era * 146097 + yoe * 365 + yoe / 4 - yoe / 100
  }

  /** Division by one of the leap-year divisors is determined by a quotient and a remainder in range. */
  lemma DivModOf(x: int, d: int, q: int, r: int)
    requires d == 4 || d == 100 || d == 400
    requires 0 <= r < d && x == q * d + r
    ensures x / d == q && x % d == r
  {
    if d == 4 {
      assert x == q * 4 + r;
    } else if d == 100 {
      assert x == q * 100 + r;
    } else {
      assert x == q * 400 + r;
    }
  }

  /** Where year `era * 400 + yoe + 1` falls in its era, and so in the leap-year rule. */
  lemma EraPosition(era: int, yoe: int)
    requires 0 <= yoe < 399
    ensures var y := era * 400 + yoe;
      && y / 400 == era && (y + 1) / 400 == era && (y + 1) % 400 == yoe + 1
      && (y + 1) % 4 == (yoe + 1) % 4 && (y + 1) % 100 == (yoe + 1) % 100
  {
    var y := era * 400 + yoe;
    DivModOf(y, 400, era, yoe);
    DivModOf(y + 1, 400, era, yoe + 1);
    DivModOf(y + 1, 4, era * 100 + (yoe + 1) / 4, (yoe + 1) % 4);
    DivModOf(y + 1, 100, era * 4 + (yoe + 1) / 100, (yoe + 1) % 100);
  }

  /** Inside one 400-year era, a year's length in the algorithm's count of days. */
  lemma MarchYearInEra(era: int, yoe: int)
    requires 0 <= yoe < 399
    ensures var y := era * 400 + yoe;
      MarchFirst(y + 1) == MarchFirst(y) + (if IsLeapYear(y + 1) then 366 else 365)
  {
    EraPosition(era, yoe);
    var yoe' := yoe + 1;
    assert yoe' / 4 == yoe / 4 + (if yoe' % 4 == 0 then 1 else 0);
    assert yoe' / 100 == yoe / 100 + (if yoe' % 100 == 0 then 1 else 0);
  }

  /** The last year of an era ends with a leap day. */
  lemma MarchYearAtEraEnd(era: int)
    ensures var y := era * 400 + 399;
      MarchFirst(y + 1) == MarchFirst(y) + 366 && IsLeapYear(y + 1)
  {
    var y := era * 400 + 399;
    assert y / 400 == era;
    assert y + 1 == (era + 1) * 400 && (y + 1) / 400 == era + 1;
    assert (y + 1) % 400 == 0;
    assert (y + 1) % 4 == 0 by {
      assert y + 1 == ((era + 1) * 100) * 4;
    }
  }

  /** The year from March of `y` to February of `y + 1` has 366 days exactly when `y + 1` is a leap year. */
  lemma MarchYearLength(y: int)
    ensures MarchFirst(y + 1) == MarchFirst(y) + (if IsLeapYear(y + 1) then 366 else 365)
  {
    var era := y / 400;
    var yoe := y - era * 400;
    if yoe == 399 {
      MarchYearAtEraEnd(era);
    } else {
      MarchYearInEra(era, yoe);
    }
  }

  /** Days from March 1 to the first of month `m` in the algorithm's March-based year. */
  function MonthStart(m: nat): int
    requires 1 <= m <= 12
  {
    (153 * ((m + 9) % 12) + 2) / 5
  }

  /** `DaysFromCivil` counts from the March 1 that opens the date's March-based year. */
  lemma CivilFromMarch(y: int, m: nat, d: nat)
    requires 1 <= m <= 12
    ensures DaysFromCivil(y, m, d) == MarchFirst(if m <= 2 then y - 1 else y) + MonthStart(m) + d - 1 - 719468
  {
  }

  /** Apart from February, a month's length is the step between consecutive month starts. */
  lemma MonthStartStep(y: int, m: nat)
    requires 1 <= m < 12 && m != 2
    ensures MonthStart(m + 1) == MonthStart(m) + DaysInMonth(y, m)
  {
    if m == 1 {
      assert MonthStart(2) == 337 && MonthStart(1) == 306;
    } else if m == 3 {
      assert MonthStart(4) == 31 && MonthStart(3) == 0;
    } else if m == 4 {
      assert MonthStart(5) == 61 && MonthStart(4) == 31;
    } else if m == 5 {
      assert MonthStart(6) == 92 && MonthStart(5) == 61;
    } else if m == 6 {
      assert MonthStart(7) == 122 && MonthStart(6) == 92;
    } else if m == 7 {
      assert MonthStart(8) == 153 && MonthStart(7) == 122;
    } else if m == 8 {
      assert MonthStart(9) == 184 && MonthStart(8) == 153;
    } else if m == 9 {
      assert MonthStart(10) == 214 && MonthStart(9) == 184;
    } else if m == 10 {
      assert MonthStart(11) == 245 && MonthStart(10) == 214;
    } else {
      assert MonthStart(12) == 275 && MonthStart(11) == 245;
    }
  }

  /** The first of the next month is one day after the last of this month. */
  lemma NextMonthIsOneLater(y: int, m: nat)
    requires 1 <= m < 12
    ensures DaysFromCivil(y, m + 1, 1) == DaysFromCivil(y, m, DaysInMonth(y, m)) + 1
  {
    CivilFromMarch(y, m + 1, 1);
    CivilFromMarch(y, m, DaysInMonth(y, m));
    if m == 2 {
      MarchYearLength(y - 1);
      assert MonthStart(3) == 0 && MonthStart(2) == 337;
    } else {
      MonthStartStep(y, m);
    }
  }

  /** New Year's Day is one day after the 31st of December. */
  lemma NextYearIsOneLater(y: int)
    ensures DaysFromCivil(y + 1, 1, 1) == DaysFromCivil(y, 12, 31) + 1
  {
  }

  /** Minutes since the epoch, in UTC. */
  function Instant(st: Stamp): int
    requires 1 <= st.month <= 12
  {
    var local := DaysFromCivil(st.year, st.month, st.day) * 1440 + st.hour * 60 + st.minute;
    var offset := st.offsetHours * 60 + st.offsetMinutes;
    if st.east then local - offset else local + offset
  }

  /** The fields of the fixed pattern, when the separators are in place and every field is digits. */
  function Fields(s: string): Option<Stamp> {
    if |s| != 22 || s[4] != '-' || s[7] != '-' || s[10] != ' ' || s[13] != ':'
       || (s[16] != '+' && s[16] != '-') || s[19] != ':' then None
    else
      match (Number(s, 0, 4), Number(s, 5, 2), Number(s, 8, 2), Number(s, 11, 2),
             Number(s, 14, 2), Number(s, 17, 2), Number(s, 20, 2))
      case (Some(y), Some(mo), Some(d), Some(h), Some(mi), Some(oh), Some(om)) =>
        Some(Stamp(y, mo, d, h, mi, s[16] == '+', oh, om))
      case _ => None
  }

  /** `DateTime::parse_from_str(value, "%Y-%m-%d %H:%M%:z")`, as an instant. */
  function ParseDate(s: string): (r: Option<int>)
    ensures r.Some? <==> Fields(s).Some? && ValidStamp(Fields(s).value)
    ensures r.Some? ==> r.value == Instant(Fields(s).value)
  {
    match Fields(s)
    case None => None
    case Some(st) => if ValidStamp(st) then Some(Instant(st)) else None
  }

  /** `parse_envelope_date`: a missing date and an unparseable one both give `None`. */
  function ParseEnvelopeDate(e: Envelope): (r: Option<int>)
    ensures e.date.None? ==> r.None?
    ensures e.date.Some? ==> r == ParseDate(e.date.value)
  {
    match e.date
    case None => None
    case Some(text) => ParseDate(text)
  }

  /** `v` written with exactly `width` digits, zero-padded. */
  function Pad(v: nat, width: nat): (r: string)
    requires v < Pow10(width)
    ensures |r| == width
  {
    if width == 0 then "" else Pad(v / 10, width - 1) + [DigitChar(v % 10)]
  }

  /** The sign of an offset as written in the pattern. */
  function SignText(east: bool): string {
    if east then "+" else "-"
  }

  /** The canonical text of a date-time in the pattern. */
  function Format(st: Stamp): (r: string)
    requires ValidStamp(st)
    ensures |r| == 22
  {
    Pad(st.year, 4) + "-" + Pad(st.month, 2) + "-" + Pad(st.day, 2) + " "
    + Pad(st.hour, 2) + ":" + Pad(st.minute, 2)
    + SignText(st.east) + Pad(st.offsetHours, 2) + ":" + Pad(st.offsetMinutes, 2)
  }

  /** A field written by `Pad` reads back as its value. */
  lemma {:induction false} NumberReadsPad(s: string, start: nat, width: nat, v: nat)
    requires v < Pow10(width) && start + width <= |s|
    requires s[start..start + width] == Pad(v, width)
    ensures Number(s, start, width) == Some(v)
    decreases width
  {
    if width > 0 {
      assert s[start..start + width - 1] == s[start..start + width][..width - 1];
      NumberReadsPad(s, start, width - 1, v / 10);
      assert s[start + width - 1] == s[start..start + width][width - 1];
      assert DigitValue(DigitChar(v % 10)) == Some(v % 10);
    }
  }

  /** Each field of the written pattern reads back as the stamp's own value. */
  lemma FormatYearRead(st: Stamp)
    requires ValidStamp(st)
    ensures Number(Format(st), 0, 4) == Some(st.year)
  {
    assert Format(st)[0..4] == Pad(st.year, 4);
    NumberReadsPad(Format(st), 0, 4, st.year);
  }

  lemma FormatMonthRead(st: Stamp)
    requires ValidStamp(st)
    ensures Number(Format(st), 5, 2) == Some(st.month)
  {
    assert Format(st)[5..7] == Pad(st.month, 2);
    NumberReadsPad(Format(st), 5, 2, st.month);
  }

  lemma FormatDayRead(st: Stamp)
    requires ValidStamp(st)
    ensures Number(Format(st), 8, 2) == Some(st.day)
  {
    assert Format(st)[8..10] == Pad(st.day, 2);
    NumberReadsPad(Format(st), 8, 2, st.day);
  }

  lemma FormatHourRead(st: Stamp)
    requires ValidStamp(st)
    ensures Number(Format(st), 11, 2) == Some(st.hour)
  {
    assert Format(st)[11..13] == Pad(st.hour, 2);
    NumberReadsPad(Format(st), 11, 2, st.hour);
  }

  lemma FormatMinuteRead(st: Stamp)
    requires ValidStamp(st)
    ensures Number(Format(st), 14, 2) == Some(st.minute)
  {
    assert Format(st)[14..16] == Pad(st.minute, 2);
    NumberReadsPad(Format(st), 14, 2, st.minute);
  }

  lemma FormatOffsetHoursRead(st: Stamp)
    requires ValidStamp(st)
    ensures Number(Format(st), 17, 2) == Some(st.offsetHours)
  {
    assert Format(st)[17..19] == Pad(st.offsetHours, 2);
    NumberReadsPad(Format(st), 17, 2, st.offsetHours);
  }

  lemma FormatOffsetMinutesRead(st: Stamp)
    requires ValidStamp(st)
    ensures Number(Format(st), 20, 2) == Some(st.offsetMinutes)
  {
    assert Format(st)[20..22] == Pad(st.offsetMinutes, 2);
    NumberReadsPad(Format(st), 20, 2, st.offsetMinutes);
  }

  /** Every valid date-time, written in the pattern, parses back to its own instant. */
  lemma FormatParses(st: Stamp)
    requires ValidStamp(st)
    ensures Fields(Format(st)) == Some(st)
    ensures ParseDate(Format(st)) == Some(Instant(st))
  {
    FormatYearRead(st);
    FormatMonthRead(st);
    FormatDayRead(st);
    FormatHourRead(st);
    FormatMinuteRead(st);
    FormatOffsetHoursRead(st);
    FormatOffsetMinutesRead(st);
    var s := Format(st);
    assert s[4] == '-' && s[7] == '-' && s[10] == ' ' && s[13] == ':' && s[19] == ':';
    assert s[16] == (if st.east then '+' else '-');
  }

  /** Only text of exactly the pattern's length can parse. */
  lemma ParsedTextHasPatternLength(s: string)
    requires ParseDate(s).Some?
    ensures |s| == 22 && s[10] == ' ' && (s[16] == '+' || s[16] == '-')
  {
  }

  lemma ExamplePads()
    ensures Pad(2024, 4) == "2024"
    ensures Pad(0, 2) == "00" && Pad(1, 2) == "01" && Pad(2, 2) == "02" && Pad(3, 2) == "03"
    ensures Pad(5, 2) == "05" && Pad(9, 2) == "09" && Pad(10, 2) == "10"
  {
    assert Pad(2, 1) == "2";
    assert Pad(20, 2) == "20";
    assert Pad(202, 3) == "202";
  }

  /** Day counts of the example dates, a leap year's March included. */
  lemma ExampleDays()
    ensures DaysFromCivil(2024, 1, 1) == 19723
    ensures DaysFromCivil(2024, 3, 5) == 19787
  {
    assert (2024 - 1) / 400 == 5 && 2024 / 400 == 5;
  }

  /** Worked instants: 2024-01-01 10:00 UTC. */
  lemma JanuaryInstant()
    ensures Instant(Stamp(2024, 1, 1, 10, 0, true, 0, 0)) == 28401720
  {
    ExampleDays();
    assert 19723 * 1440 == 28401120;
  }

  /** 2024-03-05 09:00 UTC, after a leap day. */
  lemma MarchInstant()
    ensures Instant(Stamp(2024, 3, 5, 9, 0, true, 0, 0)) == 28493820
  {
    ExampleDays();
    assert 19787 * 1440 == 28493280;
  }

  /** 10:00 at offset +02:00 is two hours before 10:00 UTC. */
  lemma EastOffsetInstant()
    ensures Instant(Stamp(2024, 1, 1, 10, 0, true, 2, 0)) == 28401600
  {
    ExampleDays();
    assert 19723 * 1440 == 28401120;
  }

  /** The texts of the worked instants; with `FormatParses` each text parses to its instant. */
  lemma JanuaryText()
    ensures Format(Stamp(2024, 1, 1, 10, 0, true, 0, 0)) == "2024-01-01 10:00+00:00"
  {
    ExamplePads();
  }

  lemma MarchText()
    ensures Format(Stamp(2024, 3, 5, 9, 0, true, 0, 0)) == "2024-03-05 09:00+00:00"
  {
    ExamplePads();
  }

  lemma EastOffsetText()
    ensures Format(Stamp(2024, 1, 1, 10, 0, true, 2, 0)) == "2024-01-01 10:00+02:00"
  {
    ExamplePads();
  }
}
