/** Instants as text: nanoseconds since the epoch to a civil date and time. */
module Calendar {

  // ----- The proleptic Gregorian calendar -----

  datatype Date = Date(year: int, month: int, day: int)

  predicate IsLeap(y: int) {
    y % 4 == 0 && (y % 100 != 0 || y % 400 == 0)
  }

  function DaysInMonth(y: int, m: int): int {
    if m == 2 then (if IsLeap(y) then 29 else 28)
    else if m == 4 || m == 6 || m == 9 || m == 11 then 30
    else 31
  }

  predicate ValidDate(d: Date) {
    1 <= d.month <= 12 && 1 <= d.day <= DaysInMonth(d.year, d.month)
  }

  function NextDate(d: Date): Date {
    if d.day < DaysInMonth(d.year, d.month) then d.(day := d.day + 1)
    else if d.month < 12 then Date(d.year, d.month + 1, 1)
    else Date(d.year + 1, 1, 1)
  }

  /** The leap days before 1 January of the year. */
  function LeapDays(y: int): int {
    (y - 1) / 4 - (y - 1) / 100 + (y - 1) / 400
  }

  function DaysBefore(y: int, m: int): int {
    (match m case 1 => 0 case 2 => 31 case 3 => 59 case 4 => 90 case 5 => 120 case 6 => 151
             case 7 => 181 case 8 => 212 case 9 => 243 case 10 => 273 case 11 => 304 case _ => 334) +
    (if m > 2 && IsLeap(y) then 1 else 0)
  }

  /** The number of the day, 1 January 1970 being 0. */
  function DayNumber(d: Date): int {
    365 * (d.year - 1970) + LeapDays(d.year) - 477 + DaysBefore(d.year, d.month) + d.day - 1
  }

  lemma {:induction false} LeapDaysStep(y: int)
    ensures LeapDays(y + 1) == LeapDays(y) + if IsLeap(y) then 1 else 0
  {
    Step4(y);
    Step100(y);
    Step400(y);
  }

  lemma {:induction false} Step4(y: int)
    ensures y / 4 - (y - 1) / 4 == if y % 4 == 0 then 1 else 0
  {
  }

  lemma {:induction false} Step100(y: int)
    ensures y / 100 - (y - 1) / 100 == if y % 100 == 0 then 1 else 0
  {
  }

  /** Every 400th year is also a fourth and a hundredth. */
  lemma {:induction false} Step400(y: int)
    ensures y / 400 - (y - 1) / 400 == if y % 400 == 0 then 1 else 0
    ensures y % 400 == 0 ==> y % 100 == 0 && y % 4 == 0
  {
  }

  /** The numbers count the days of the calendar, from the epoch on and back. */
  lemma {:induction false} DayNumberCounts(d: Date)
    requires ValidDate(d)
    ensures DayNumber(Date(1970, 1, 1)) == 0
    ensures ValidDate(NextDate(d)) && DayNumber(NextDate(d)) == DayNumber(d) + 1
  {
    if d.month == 12 && d.day == 31 { LeapDaysStep(d.year); }
  }

  // ----- From the day to the date -----

  /** Division as in the source: towards zero. */
  function TruncDiv(a: int, b: int): int
    requires b > 0
  {
    if a >= 0 then a / b else -((-a) / b)
  }

  function Era(z: int): int {
    TruncDiv(if z >= 0 then z else z - 146096, 146097)
  }

  function YearInEra(doe: int): int {
    (doe - doe / 1460 + doe / 36524 - doe / 146096) / 365
  }

  /** The date of a day of the year that starts in March. */
  function MarchDate(y: int, doy: int): Date {
    var mp := (5 * doy + 2) / 153;
    var d := doy - (153 * mp + 2) / 5 + 1;
    var m := if mp < 10 then mp + 3 else mp - 9;
    Date(if m <= 2 then y + 1 else y, m, d)
  }

  /** The civil date of a day number: years start in March, in eras of 400 years. */
  function CivilDate(days: int): Date {
    var z := days + 719468;
    var era := Era(z);
    var doe := z - era * 146097;
    var yoe := YearInEra(doe);
    MarchDate(yoe + era * 400, doe - (365 * yoe + yoe / 4 - yoe / 100))
  }

  lemma {:induction false} EraRange(z: int)
    ensures 0 <= z - Era(z) * 146097 <= 146096
  {
  }

  /** Day `doy` of year `y` of four-year cycle `q` of century `c` of an era; the last day of a
      leap year comes at the end of a cycle, except in centuries that are not the fourth. */
  ghost predicate InEra(doe: int, c: int, q: int, y: int, doy: int) {
    && doe == 36524 * c + 1461 * q + 365 * y + doy
    && 0 <= c <= 3 && 0 <= q <= 24 && 0 <= y <= 3 && 0 <= doy <= 365
    && (doy == 365 ==> y == 3 && (q < 24 || c == 3))
  }

  lemma {:induction false} SplitEra(doe: int) returns (c: int, q: int, y: int, doy: int)
    requires 0 <= doe <= 146096
    ensures InEra(doe, c, q, y, doy)
  {
    c := if doe == 146096 then 3 else doe / 36524;
    var inCentury := doe - 36524 * c;
    q := inCentury / 1461;
    var inCycle := inCentury - 1461 * q;
    y := if inCycle == 1460 then 3 else inCycle / 365;
    doy := inCycle - 365 * y;
  }

  /** The corrections count the leap days before the day. */
  lemma {:induction false} YearFormula(doe: int, c: int, q: int, y: int, doy: int)
    requires InEra(doe, c, q, y, doy)
    ensures YearInEra(doe) == 100 * c + 4 * q + y
  {
    var extra := 24 * c + q + 365 * y + doy;
    var e := if extra >= 1460 then 1 else 0;
    assert doe == 1460 * (25 * c + q) + extra;
    assert doe / 1460 == 25 * c + q + e;
    assert doe / 36524 - doe / 146096 == c;
    assert doe - doe / 1460 + c == 365 * (100 * c + 4 * q + y) + (doy - e);
  }

  /** The year of the era, from its day. */
  lemma {:induction false} YearOfEra(doe: int)
    requires 0 <= doe <= 146096
    ensures var yoe := YearInEra(doe);
            var doy := doe - (365 * yoe + yoe / 4 - yoe / 100);
            && 0 <= yoe <= 399 && 0 <= doy <= 365
            && (doy == 365 ==> yoe % 4 == 3 && (yoe % 100 != 99 || yoe == 399))
  {
    var c, q, y, doy := SplitEra(doe);
    YearFormula(doe, c, q, y, doy);
    var yoe := 100 * c + 4 * q + y;
    assert yoe / 4 == 25 * c + q && yoe % 4 == y;
    assert yoe / 100 == c && yoe % 100 == 4 * q + y;
  }

  /** The month of the March year, from its day. */
  lemma {:induction false} MonthOfYear(doy: int)
    requires 0 <= doy <= 365
    ensures var mp := (5 * doy + 2) / 153;
            var d := doy - (153 * mp + 2) / 5 + 1;
            && 0 <= mp <= 11 && 1 <= d
            && d <= (if mp == 11 then 29 else if mp == 1 || mp == 3 || mp == 6 || mp == 8 then 30 else 31)
            && (mp == 11 && d == 29 <==> doy == 365)
  {
  }

  /** The leap rule for the February that ends the March year. */
  lemma {:induction false} LeapInEra(era: int, yoe: int)
    requires 0 <= yoe <= 399
    ensures IsLeap(era * 400 + yoe + 1) <==> yoe % 4 == 3 && (yoe % 100 != 99 || yoe == 399)
    ensures LeapDays(era * 400 + yoe + 1) == 97 * era + yoe / 4 - yoe / 100
  {
    Era4(era, yoe);
    Era4(era, yoe + 1);
    Era100(era, yoe);
    Era100(era, yoe + 1);
    Era400(era, yoe);
    NextMod(yoe);
  }

  lemma {:induction false} Era4(era: int, k: int)
    ensures (era * 400 + k) / 4 == 100 * era + k / 4 && (era * 400 + k) % 4 == k % 4
  {
  }

  lemma {:induction false} Era100(era: int, k: int)
    ensures (era * 400 + k) / 100 == 4 * era + k / 100 && (era * 400 + k) % 100 == k % 100
  {
  }

  lemma {:induction false} Era400(era: int, yoe: int)
    requires 0 <= yoe <= 399
    ensures (era * 400 + yoe) / 400 == era && ((era * 400 + yoe + 1) % 400 == 0 <==> yoe == 399)
  {
  }

  lemma {:induction false} NextMod(k: int)
    ensures ((k + 1) % 4 == 0 <==> k % 4 == 3) && ((k + 1) % 100 == 0 <==> k % 100 == 99)
  {
  }

  /** The days before a month, counted in the March year. */
  lemma {:induction false} MarchDays(y: int, mp: int)
    requires 0 <= mp <= 11
    ensures mp < 10 ==> DaysBefore(y, mp + 3) == (153 * mp + 2) / 5 + 59 + (if IsLeap(y) then 1 else 0)
    ensures mp >= 10 ==> DaysBefore(y, mp - 9) == (153 * mp + 2) / 5 - 306
  {
  }

  lemma {:induction false} MarchDateNumber(y: int, doy: int)
    requires 0 <= doy <= 365 && (doy == 365 ==> IsLeap(y + 1))
    ensures ValidDate(MarchDate(y, doy))
    ensures DayNumber(MarchDate(y, doy)) == 365 * (y + 1 - 1970) + LeapDays(y + 1) - 477 + doy - 306
  {
    MonthOfYear(doy);
    MarchDays(y, (5 * doy + 2) / 153);
    MarchDays(y + 1, (5 * doy + 2) / 153);
    LeapDaysStep(y);
  }

  /** The date is a date of the calendar, and the one with that number. */
  lemma {:induction false} CivilDateExact(days: int)
    ensures ValidDate(CivilDate(days)) && DayNumber(CivilDate(days)) == days
  {
    hide YearInEra, Era, MarchDate, ValidDate, DayNumber, IsLeap, LeapDays;
    var z := days + 719468;
    var era := Era(z);
    var doe := z - era * 146097;
    EraRange(z);
    YearOfEra(doe);
    LeapInEra(era, YearInEra(doe));
    var yoe := YearInEra(doe);
    MarchDateNumber(yoe + era * 400, doe - (365 * yoe + yoe / 4 - yoe / 100));
  }

  /** The steps of the computation have the ranges of a day of an era, a year of an era, a day
      and a month of a March year, and no unsigned subtraction goes below zero. */
  lemma {:induction false} StepsInRange(days: int)
    ensures var z := days + 719468;
            var doe := z - Era(z) * 146097;
            var yoe := YearInEra(doe);
            var doy := doe - (365 * yoe + yoe / 4 - yoe / 100);
            var mp := (5 * doy + 2) / 153;
            && 0 <= doe <= 146096 && 0 <= yoe <= 399 && 0 <= doy <= 365 && 0 <= mp <= 11
            && doe / 1460 <= doe && doe / 146096 <= doe - doe / 1460 + doe / 36524
            && yoe / 100 <= 365 * yoe + yoe / 4 && 365 * yoe + yoe / 4 - yoe / 100 <= doe
            && (153 * mp + 2) / 5 <= doy
  {
    var z := days + 719468;
    var doe := z - Era(z) * 146097;
    EraRange(z);
    hide YearInEra, Era;
    YearOfEra(doe);
    var yoe := YearInEra(doe);
    MonthOfYear(doe - (365 * yoe + yoe / 4 - yoe / 100));
  }

  /** Each day has one date. */
  lemma {:induction false} CivilDateUnique(d: Date)
    requires ValidDate(d)
    ensures CivilDate(DayNumber(d)) == d
  {
    CivilDateExact(DayNumber(d));
    DayNumberInjective(CivilDate(DayNumber(d)), d);
  }

  lemma {:induction false} YearSpan(d: Date)
    requires ValidDate(d)
    ensures var start := 365 * (d.year - 1970) + LeapDays(d.year) - 477;
            start <= DayNumber(d) < start + 365 + (if IsLeap(d.year) then 1 else 0)
  {
  }

  lemma {:induction false} LeapDaysGrow(a: int, b: int)
    requires a <= b
    ensures LeapDays(a) <= LeapDays(b)
    decreases b - a
  {
    if a < b {
      LeapDaysStep(b - 1);
      LeapDaysGrow(a, b - 1);
    }
  }

  lemma {:induction false} SameYear(a: Date, b: Date)
    requires ValidDate(a) && ValidDate(b) && DayNumber(a) == DayNumber(b)
    ensures a.year == b.year
  {
    YearSpan(a);
    YearSpan(b);
    hide DayNumber, ValidDate, LeapDays, IsLeap;
    LeapDaysStep(a.year);
    LeapDaysStep(b.year);
    if a.year < b.year { LeapDaysGrow(a.year + 1, b.year); }
    if b.year < a.year { LeapDaysGrow(b.year + 1, a.year); }
  }

  lemma {:induction false} DayNumberInjective(a: Date, b: Date)
    requires ValidDate(a) && ValidDate(b) && DayNumber(a) == DayNumber(b)
    ensures a == b
  {
    SameYear(a, b);
    hide LeapDays, IsLeap;
  }
}
