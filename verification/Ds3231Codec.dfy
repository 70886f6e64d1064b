/** The calendar arithmetic and register codec of adapters/ds3231_adapter.py. */
module Ds3231Codec {
  import opened Options
  import opened Bytes

  datatype DateTime = DateTime(year: int, month: int, day: int, hour: int, minute: int, second: int)

  predicate Leap(year: int) {
    year % 4 == 0 && (year % 100 != 0 || year % 400 == 0)
  }

  function DaysInMonth(year: int, month: int): (days: int)
    ensures 28 <= days <= 31
  {
    if month == 2 then (if Leap(year) then 29 else 28) else if month in {4, 6, 9, 11} then 30 else 31
  }

  function DaysInYear(year: int): int {
    if Leap(year) then 366 else 365
  }

  predicate ValidDateTime(d: DateTime) {
    && 2000 <= d.year <= 2099 && 1 <= d.month <= 12 && 1 <= d.day <= DaysInMonth(d.year, d.month)
    && 0 <= d.hour <= 23 && 0 <= d.minute <= 59 && 0 <= d.second <= 59
  }

  function DaysBeforeYear(year: int): (days: int)
    ensures days >= 0
    decreases year
  {
    if year <= 2000 then 0 else DaysBeforeYear(year - 1) + DaysInYear(year - 1)
  }

  function DaysBeforeMonth(year: int, month: int): (days: int)
    ensures days >= 0
    decreases month
  {
    if month <= 1 then 0 else DaysBeforeMonth(year, month - 1) + DaysInMonth(year, month - 1)
  }

  function DaysSince2000(d: DateTime): int {
    DaysBeforeYear(d.year) + DaysBeforeMonth(d.year, d.month) + d.day - 1
  }

  method CountDays(d: DateTime) returns (days: int)
    requires ValidDateTime(d)
    ensures days == DaysSince2000(d)
  {
    days := 0;
    var current := 2000;
    while current < d.year
      invariant 2000 <= current <= d.year && days == DaysBeforeYear(current)
    {
      days := days + (if Leap(current) then 366 else 365);
      current := current + 1;
    }
    var month := 1;
    while month < d.month
      invariant 1 <= month <= d.month && days == DaysBeforeYear(d.year) + DaysBeforeMonth(d.year, month)
    {
      days := days + DaysInMonth(d.year, month);
      month := month + 1;
    }
    days := days + d.day - 1;
  }

  function Seconds(d: DateTime): int {
    DaysSince2000(d) * 86400 + d.hour * 3600 + d.minute * 60 + d.second
  }

  function IsoWeekday(d: DateTime): int {
    (DaysSince2000(d) + 5) % 7 + 1
  }

  // ---------------------------------------------------------------- monotonicity

  predicate EarlierDate(a: DateTime, b: DateTime) {
    a.year < b.year || (a.year == b.year && (a.month < b.month || (a.month == b.month && a.day < b.day)))
  }

  predicate EarlierTime(a: DateTime, b: DateTime) {
    a.hour < b.hour || (a.hour == b.hour && (a.minute < b.minute || (a.minute == b.minute && a.second < b.second)))
  }

  predicate Earlier(a: DateTime, b: DateTime) {
    EarlierDate(a, b) || (a.year == b.year && a.month == b.month && a.day == b.day && EarlierTime(a, b))
  }

  lemma {:induction false} MonthsGrow(year: int, m: int, n: int)
    requires 1 <= m < n
    ensures DaysBeforeMonth(year, m) + DaysInMonth(year, m) <= DaysBeforeMonth(year, n)
    decreases n
  {
    if m < n - 1 { MonthsGrow(year, m, n - 1); }
  }

  lemma WholeYear(year: int)
    ensures DaysBeforeMonth(year, 12) + DaysInMonth(year, 12) == DaysInYear(year)
  {
    assert DaysBeforeMonth(year, 3) == 31 + DaysInMonth(year, 2);
    assert DaysBeforeMonth(year, 6) == DaysBeforeMonth(year, 3) + 92;
    assert DaysBeforeMonth(year, 9) == DaysBeforeMonth(year, 6) + 92;
    assert DaysBeforeMonth(year, 12) == DaysBeforeMonth(year, 9) + 91;
  }

  lemma {:induction false} YearsGrow(y: int, z: int)
    requires 2000 <= y < z
    ensures DaysBeforeYear(y) + DaysInYear(y) <= DaysBeforeYear(z)
    decreases z
  {
    if y < z - 1 { YearsGrow(y, z - 1); }
  }

  lemma DayOfYearFits(d: DateTime)
    requires ValidDateTime(d)
    ensures DaysBeforeMonth(d.year, d.month) + d.day <= DaysInYear(d.year)
  {
    WholeYear(d.year);
    if d.month < 12 { MonthsGrow(d.year, d.month, 12); }
  }

  lemma DaysIncrease(a: DateTime, b: DateTime)
    requires ValidDateTime(a) && ValidDateTime(b) && EarlierDate(a, b)
    ensures DaysSince2000(a) < DaysSince2000(b)
  {
    if a.year < b.year {
      DayOfYearFits(a);
      YearsGrow(a.year, b.year);
    } else if a.month < b.month {
      MonthsGrow(a.year, a.month, b.month);
    }
  }

  /** Later moments have more seconds. */
  lemma SecondsIncrease(a: DateTime, b: DateTime)
    requires ValidDateTime(a) && ValidDateTime(b) && Earlier(a, b)
    ensures Seconds(a) < Seconds(b)
  {
    if EarlierDate(a, b) { DaysIncrease(a, b); }
  }

  /** Seconds identify the moment: no two valid moments share them. */
  lemma SecondsAreInjective(a: DateTime, b: DateTime)
    requires ValidDateTime(a) && ValidDateTime(b) && Seconds(a) == Seconds(b)
    ensures a == b
  {
    if Earlier(a, b) { SecondsIncrease(a, b); }
    if Earlier(b, a) { SecondsIncrease(b, a); }
  }

  // ---------------------------------------------------------------- the civil calendar

  /** The last day of its month; in these years every fourth one is a leap year. */
  predicate LastOfMonth(d: DateTime) {
    if d.month == 2 then d.day == (if d.year % 4 == 0 then 29 else 28)
    else if d.month == 4 || d.month == 6 || d.month == 9 || d.month == 11 then d.day == 30
    else d.day == 31
  }

  function NextDay(d: DateTime): DateTime {
    if !LastOfMonth(d) then d.(day := d.day + 1)
    else if d.month < 12 then d.(month := d.month + 1, day := 1)
    else d.(year := d.year + 1, month := 1, day := 1)
  }

  /** One second later. */
  function Tick(d: DateTime): DateTime {
    if d.second < 59 then d.(second := d.second + 1)
    else if d.minute < 59 then d.(minute := d.minute + 1, second := 0)
    else if d.hour < 23 then d.(hour := d.hour + 1, minute := 0, second := 0)
    else NextDay(d).(hour := 0, minute := 0, second := 0)
  }

  lemma LastIsLength(d: DateTime)
    requires ValidDateTime(d)
    ensures LastOfMonth(d) <==> d.day == DaysInMonth(d.year, d.month)
  {
  }

  lemma NextDayCounts(d: DateTime)
    requires ValidDateTime(d) && d.year < 2099
    ensures ValidDateTime(NextDay(d)) && DaysSince2000(NextDay(d)) == DaysSince2000(d) + 1
  {
    LastIsLength(d);
    if d.month == 12 {
      WholeYear(d.year);
      assert DaysBeforeMonth(d.year + 1, 1) == 0;
    } else {
      assert DaysBeforeMonth(d.year, d.month + 1) == DaysBeforeMonth(d.year, d.month) + DaysInMonth(d.year, d.month);
    }
  }

  lemma SameDay(d: DateTime, h: int, m: int, s: int)
    ensures DaysSince2000(d.(hour := h, minute := m, second := s)) == DaysSince2000(d)
  {
  }

  lemma FirstDay()
    ensures DaysSince2000(DateTime(2000, 1, 1, 0, 0, 0)) == 0
  {
  }

  function SecondOfDay(d: DateTime): int {
    d.hour * 3600 + d.minute * 60 + d.second
  }

  predicate Midnight(d: DateTime) {
    d.hour == 23 && d.minute == 59 && d.second == 59
  }

  lemma TickWithinDay(d: DateTime)
    requires ValidDateTime(d) && !Midnight(d)
    ensures var t := Tick(d);
            t == d.(hour := t.hour, minute := t.minute, second := t.second) && SecondOfDay(t) == SecondOfDay(d) + 1 && ValidDateTime(t)
  {
    hide DaysInMonth;
  }

  lemma TickIntoDay(d: DateTime)
    requires ValidDateTime(d) && Midnight(d) && d.year < 2099
    ensures Tick(d) == NextDay(d).(hour := 0, minute := 0, second := 0) && ValidDateTime(Tick(d)) && SecondOfDay(d) == 86399
    ensures SecondOfDay(Tick(d)) == 0
  {
    hide DaysSince2000;
    NextDayCounts(d);
  }

  lemma SecondsOfDay(d: DateTime)
    ensures Seconds(d) == DaysSince2000(d) * 86400 + SecondOfDay(d)
  {
  }

  /** The seconds count civil time: each tick of the calendar adds one, from none at the beginning of the year 2000. */
  lemma SecondsCountTicks(d: DateTime)
    requires ValidDateTime(d) && d.year < 2099
    ensures ValidDateTime(Tick(d)) && Seconds(Tick(d)) == Seconds(d) + 1
  {
    hide DaysSince2000, NextDay, DaysInMonth, Tick, ValidDateTime, Midnight, Seconds, SecondOfDay;
    var t := Tick(d);
    SecondsOfDay(d);
    SecondsOfDay(t);
    if Midnight(d) {
      TickIntoDay(d);
      NextDayCounts(d);
      SameDay(NextDay(d), 0, 0, 0);
    } else {
      TickWithinDay(d);
      SameDay(d, t.hour, t.minute, t.second);
    }
  }

  lemma SecondsBegin()
    ensures Seconds(DateTime(2000, 1, 1, 0, 0, 0)) == 0
  {
    FirstDay();
  }

  /** The 1st of January 2000 was a Saturday, and weekdays follow each other. */
  lemma WeekdaysFollow(d: DateTime)
    requires ValidDateTime(d) && d.year < 2099
    ensures IsoWeekday(DateTime(2000, 1, 1, 0, 0, 0)) == 6
    ensures IsoWeekday(NextDay(d)) == IsoWeekday(d) % 7 + 1
  {
    hide DaysSince2000, NextDay, ValidDateTime;
    NextDayCounts(d);
    FirstDay();
    DayAfterDay(DaysSince2000(d));
  }

  lemma DayAfterDay(days: int)
    ensures (days + 1 + 5) % 7 + 1 == ((days + 5) % 7 + 1) % 7 + 1
  {
  }

  // ---------------------------------------------------------------- registers

  function EncodeBcd(value: int): (b: byte)
    requires 0 <= value <= 99
  {
    value / 10 * 16 + value % 10
  }

  function DecodeBcd(b: byte, minimum: int, maximum: int): Option<int> {
    var tens, units := b / 16, b % 16;
    if tens > 9 || units > 9 then None
    else if tens * 10 + units < minimum || tens * 10 + units > maximum then None
    else Some(tens * 10 + units)
  }

  predicate Bit(b: byte, weight: int)
    requires weight > 0
  {
    b / weight % 2 == 1
  }

  function EncodeTime(d: DateTime): (raw: seq<byte>)
    requires ValidDateTime(d)
    ensures |raw| == 7
  {
    [EncodeBcd(d.second), EncodeBcd(d.minute), EncodeBcd(d.hour), EncodeBcd(IsoWeekday(d)), EncodeBcd(d.day), EncodeBcd(d.month),
     EncodeBcd(d.year - 2000)]
  }

  /** Twelve- or twenty-four-hour form. */
  function DecodeHour(b: byte): Option<int> {
    if b >= 0x80 then None
    else if Bit(b, 0x40) then
      match DecodeBcd(b % 0x20, 1, 12)
      case None => None
      case Some(h) => Some(h % 12 + (if Bit(b, 0x20) then 12 else 0))
    else DecodeBcd(b % 0x40, 0, 23)
  }

  /** The register block as a valid moment; None for every malformed or impossible block. */
  function DecodeTime(raw: seq<byte>): (d: Option<DateTime>)
    ensures d.Some? ==> ValidDateTime(d.value)
  {
    if |raw| != 7 || raw[0] >= 0x80 || raw[1] >= 0x80 || raw[3] < 1 || raw[3] > 7 || raw[4] >= 0x40 || raw[5] >= 0x20 then None
    else
      var second, minute, hour := DecodeBcd(raw[0], 0, 59), DecodeBcd(raw[1], 0, 59), DecodeHour(raw[2]);
      var day, month, year := DecodeBcd(raw[4], 1, 31), DecodeBcd(raw[5], 1, 12), DecodeBcd(raw[6], 0, 99);
      if second.None? || minute.None? || hour.None? || day.None? || month.None? || year.None? then None
      else
        var d := DateTime(2000 + year.value, month.value, day.value, hour.value, minute.value, second.value);
        if ValidDateTime(d) then Some(d) else None
  }

  lemma BcdRoundTrip(value: int, minimum: int, maximum: int)
    requires 0 <= minimum <= value <= maximum <= 99
    ensures DecodeBcd(EncodeBcd(value), minimum, maximum) == Some(value) && EncodeBcd(value) / 16 == value / 10
  {
  }

  lemma SmallBcd(value: int)
    requires 0 <= value <= 59
    ensures EncodeBcd(value) < 0x80 && (value <= 31 ==> EncodeBcd(value) < 0x40) && (value <= 12 ==> EncodeBcd(value) < 0x20)
  {
  }

  /** Two decimal digits in one byte. */
  predicate Bcd(b: byte, value: int) {
    b / 16 <= 9 && b % 16 <= 9 && b / 16 * 10 + b % 16 == value
  }

  /** The order of the registers, each in two decimal digits, the weekday counted from Monday. */
  lemma RegisterLayout(d: DateTime)
    requires ValidDateTime(d)
    ensures var raw := EncodeTime(d);
            && Bcd(raw[0], d.second) && Bcd(raw[1], d.minute) && Bcd(raw[2], d.hour) && Bcd(raw[3], IsoWeekday(d))
            && Bcd(raw[4], d.day) && Bcd(raw[5], d.month) && Bcd(raw[6], d.year - 2000)
  {
    hide DaysSince2000, EncodeBcd, Bcd;
    DigitsOf(d.second);
    DigitsOf(d.minute);
    DigitsOf(d.hour);
    DigitsOf(IsoWeekday(d));
    DigitsOf(d.day);
    DigitsOf(d.month);
    DigitsOf(d.year - 2000);
  }

  lemma DigitsOf(value: int)
    requires 0 <= value <= 99
    ensures Bcd(EncodeBcd(value), value)
  {
  }

  /** What is written for a valid moment reads back as that moment. */
  lemma DecodeEncode(d: DateTime)
    requires ValidDateTime(d)
    ensures DecodeTime(EncodeTime(d)) == Some(d)
  {
    hide DecodeBcd, DecodeHour, DaysSince2000;
    BcdRoundTrip(d.second, 0, 59);
    BcdRoundTrip(d.minute, 0, 59);
    BcdRoundTrip(d.hour, 0, 23);
    BcdRoundTrip(d.day, 1, 31);
    BcdRoundTrip(d.month, 1, 12);
    BcdRoundTrip(d.year - 2000, 0, 99);
    SmallBcd(d.second);
    SmallBcd(d.minute);
    SmallBcd(d.hour);
    SmallBcd(d.day);
    SmallBcd(d.month);
    HourForm(d.hour);
  }

  lemma HourForm(hour: int)
    requires 0 <= hour <= 23
    ensures DecodeHour(EncodeBcd(hour)) == Some(hour)
  {
    hide DecodeBcd, EncodeBcd;
    SmallBcd(hour);
    BcdRoundTrip(hour, 0, 23);
    LowBits(EncodeBcd(hour));
  }

  /** The marks of an hour register, and what is below them. */
  lemma LowBits(b: byte)
    requires b < 0x80
    ensures Bit(b, 0x40) <==> b >= 0x40
    ensures b < 0x40 ==> b % 0x40 == b
    ensures 0x40 <= b < 0x60 ==> !Bit(b, 0x20) && b % 0x20 == b - 0x40
    ensures 0x60 <= b ==> Bit(b, 0x20) && b % 0x20 == b - 0x60
  {
    assert b / 0x40 == if b < 0x40 then 0 else 1;
    assert b / 0x20 == if b < 0x20 then 0 else if b < 0x40 then 1 else if b < 0x60 then 2 else 3;
  }

  predicate ShowsHour(b: byte, hour: int) {
    || (0 <= hour <= 23 && b == EncodeBcd(hour))
    || exists h :: 1 <= h <= 12 && ((b == 0x40 + EncodeBcd(h) && hour == h % 12) || (b == 0x60 + EncodeBcd(h) && hour == h % 12 + 12))
  }

  /** An hour register is read as an hour exactly in these two forms: BCD of 0 to 23, or the twelve-hour mark, the afternoon
      mark and BCD of 1 to 12, where 12 stands for the beginning of its half of the day. */
  lemma HourForms(b: byte, hour: int)
    ensures DecodeHour(b) == Some(hour) <==> ShowsHour(b, hour)
  {
    hide DecodeBcd, EncodeBcd, DecodeHour;
    if DecodeHour(b) == Some(hour) { DecodedHourShows(b, hour); }
    if ShowsHour(b, hour) {
      if 0 <= hour <= 23 && b == EncodeBcd(hour) {
        HourForm(hour);
      } else {
        var h :| 1 <= h <= 12 && ((b == 0x40 + EncodeBcd(h) && hour == h % 12) || (b == 0x60 + EncodeBcd(h) && hour == h % 12 + 12));
        TwelveHourForm(h);
      }
    }
  }

  lemma DecodedHourShows(b: byte, hour: int)
    requires DecodeHour(b) == Some(hour)
    ensures ShowsHour(b, hour)
  {
    hide DecodeBcd, EncodeBcd;
    LowBits(b);
    BcdIsExact(b % 0x40, 0, 23);
    BcdIsExact(b % 0x20, 1, 12);
    if b >= 0x40 {
      var h := DecodeBcd(b % 0x20, 1, 12).value;
      assert EncodeBcd(h) == b % 0x20;
    }
  }

  lemma TwelveHourForm(h: int)
    requires 1 <= h <= 12
    ensures EncodeBcd(h) < 0x20 && DecodeHour(0x40 + EncodeBcd(h)) == Some(h % 12) && DecodeHour(0x60 + EncodeBcd(h)) == Some(h % 12 + 12)
  {
    hide DecodeBcd, EncodeBcd;
    SmallBcd(h);
    BcdRoundTrip(h, 1, 12);
    LowBits(0x40 + EncodeBcd(h));
    LowBits(0x60 + EncodeBcd(h));
  }

  /** Only the BCD form of a value decodes to it. */
  lemma BcdIsExact(b: byte, minimum: int, maximum: int)
    requires 0 <= minimum && maximum <= 99
    ensures var v := DecodeBcd(b, minimum, maximum); v.Some? ==> minimum <= v.value <= maximum && EncodeBcd(v.value) == b
  {
    var tens, units := b / 16, b % 16;
    assert b == tens * 16 + units;
    if tens <= 9 && units <= 9 {
      TensAndUnits(tens, units);
    }
  }

  lemma TensAndUnits(tens: int, units: int)
    requires 0 <= tens <= 9 && 0 <= units <= 9
    ensures (tens * 10 + units) / 10 == tens && (tens * 10 + units) % 10 == units
  {
  }
}
