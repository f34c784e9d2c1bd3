/** The proleptic Gregorian calendar as JavaScript's `Date.UTC` and the UTC
    getters see it, on a clock of integer milliseconds since 1970-01-01T00:00Z.
    Day numbers count from 1970-01-01; years and months may be any integers,
    and `Date.UTC` normalises a month outside 0..11 into the neighbouring years. */
module Calendar {

  const MsPerDay: int := 86400000

  predicate IsLeap(y: int) {
    y % 4 == 0 && (y % 100 != 0 || y % 400 == 0)
  }

  /** Days in month `m` (1..12) of year `y`. */
  function MonthLength(y: int, m: int): (n: int)
    requires 1 <= m <= 12
    ensures 28 <= n <= 31
    ensures n == 29 <==> m == 2 && IsLeap(y)
  {
    if m == 2 then (if IsLeap(y) then 29 else 28)
    else if m == 4 || m == 6 || m == 9 || m == 11 then 30
    else 31
  }

  /** Days from 1 March to the first of the `mp`-th month of a year that starts in March. */
  function MarchOffset(mp: int): int
    requires 0 <= mp <= 11
  {
    match mp
    case 0 => 0 case 1 => 31 case 2 => 61 case 3 => 92 case 4 => 122 case 5 => 153
    case 6 => 184 case 7 => 214 case 8 => 245 case 9 => 275 case 10 => 306 case _ => 337
  }

  /** Days from 1 March of year 0 to 1 March of year `y` (negative before it). */
  function DaysToMarch(y: int): int {
    var era := y / 400;
    var yoe := y % 400;
    era * 146097 + 365 * yoe + yoe / 4 - yoe / 100
  }

  /** The day number of the first of month `m` (1..12) of year `y`. */
  function FirstOfMonth(y: int, m: int): int
    requires 1 <= m <= 12
  {
    var ym := if m <= 2 then y - 1 else y;
    var mp := if m > 2 then m - 3 else m + 9;
    DaysToMarch(ym) + MarchOffset(mp) - 719468
  }

  /** Within one 400-year era, one more year adds 365 days and a leap day when it is leap. */
  lemma YearOfEraStep(r: int)
    requires 1 <= r <= 399
    ensures (365 * r + r / 4 - r / 100) - (365 * (r - 1) + (r - 1) / 4 - (r - 1) / 100)
         == if r % 4 == 0 && r % 100 != 0 then 366 else 365
  {
    assert r / 4 - (r - 1) / 4 == (if r % 4 == 0 then 1 else 0);
    assert r / 100 - (r - 1) / 100 == (if r % 100 == 0 then 1 else 0);
  }

  /** Leap years repeat every 400 years. */
  lemma LeapOfEra(y: int)
    ensures IsLeap(y) <==> (y % 400 == 0 || (y % 400 % 4 == 0 && y % 400 % 100 != 0))
  {
    var e, r := y / 400, y % 400;
    assert y == 400 * e + r;
    assert y % 4 == r % 4 by { assert y == 4 * (100 * e) + r; }
    assert y % 100 == r % 100 by { assert y == 100 * (4 * e) + r; }
  }

  /** The year from one March to the next holds 29 February exactly when the later year is leap. */
  lemma MarchToMarch(y: int)
    ensures DaysToMarch(y) - DaysToMarch(y - 1) == if IsLeap(y) then 366 else 365
  {
    var e, r := y / 400, y % 400;
    LeapOfEra(y);
    if r == 0 {
      assert (y - 1) / 400 == e - 1 && (y - 1) % 400 == 399;
    } else {
      assert (y - 1) / 400 == e && (y - 1) % 400 == r - 1;
      YearOfEraStep(r);
    }
  }

  /** The month after month `m` of year `y`. */
  function NextMonth(y: int, m: int): (next: (int, int))
    requires 1 <= m <= 12
    ensures 1 <= next.1 <= 12
  {
    if m == 12 then (y + 1, 1) else (y, m + 1)
  }

  /** Consecutive months lie back to back: the next month starts `MonthLength` days later. */
  lemma MonthStep(y: int, m: int)
    requires 1 <= m <= 12
    ensures FirstOfMonth(NextMonth(y, m).0, NextMonth(y, m).1) == FirstOfMonth(y, m) + MonthLength(y, m)
  {
    if m == 2 {
      MarchToMarch(y);
    }
  }

  /** ECMAScript `MakeDay(year, month, date)`: `month` counts from 0 and may lie
      outside 0..11, `date` may lie outside the month. */
  function MakeDay(year: int, month: int, date: int): int {
    FirstOfMonth(year + month / 12, month % 12 + 1) + date - 1
  }

  /** The year `Date.UTC` uses: 0..99 stand for 1900..1999. */
  function UtcYear(year: int): int
  {
    if 0 <= year <= 99 then 1900 + year else year
  }

  /** `Date.UTC(year, month, date, h, min, s, ms)`, without the range clip. */
  function DateUtc(year: int, month: int, date: int, h: int, min: int, s: int, ms: int): int {
    MakeDay(UtcYear(year), month, date) * MsPerDay + h * 3600000 + min * 60000 + s * 1000 + ms
  }

  /** `Date.UTC(year, month - 1, 1, 0, 0, 0)`: the first millisecond of the month. */
  function PeriodStart(year: int, month: int): int {
    DateUtc(year, month - 1, 1, 0, 0, 0, 0)
  }

  /** `Date.UTC(year, month, 0, 23, 59, 59, 999)`: the last millisecond of the month. */
  function PeriodEnd(year: int, month: int): int {
    DateUtc(year, month, 0, 23, 59, 59, 999)
  }

  /** The number of days of the month that `PeriodStart(year, month)` falls in. */
  function DaysInMonth(year: int, month: int): (n: int)
    ensures 28 <= n <= 31
  {
    MonthLength(UtcYear(year) + (month - 1) / 12, (month - 1) % 12 + 1)
  }

  /** The day number of the first day of month `month` (counted from 1 and
      normalised into the neighbouring years) of `year`, as `Date.UTC` reads them. */
  function MonthFirstDay(year: int, month: int): int {
    FirstOfMonth(UtcYear(year) + (month - 1) / 12, (month - 1) % 12 + 1)
  }

  /** Month `month + 1` starts `DaysInMonth(year, month)` days after month `month`. */
  lemma MonthFirstDayStep(year: int, month: int)
    ensures MonthFirstDay(year, month + 1) == MonthFirstDay(year, month) + DaysInMonth(year, month)
  {
    var y := UtcYear(year);
    var a, b := y + (month - 1) / 12, (month - 1) % 12 + 1;
    MonthIndexStep(month);
    assert NextMonth(a, b) == (y + (month + 1 - 1) / 12, (month + 1 - 1) % 12 + 1);
    MonthStep(a, b);
  }

  /** Counting months from 1: the month after the last of a year is the first of the next. */
  lemma MonthIndexStep(month: int)
    ensures 1 <= (month - 1) % 12 + 1 <= 12
    ensures (month - 1) % 12 == 11 ==> month / 12 == (month - 1) / 12 + 1 && month % 12 == 0
    ensures (month - 1) % 12 != 11 ==> month / 12 == (month - 1) / 12 && month % 12 == (month - 1) % 12 + 1
  {
  }

  /** The period of a month covers exactly its days, and the period of the next
      month starts right after it, so the periods of consecutive months neither
      overlap nor leave a gap. */
  lemma PeriodSpan(year: int, month: int)
    ensures PeriodEnd(year, month) - PeriodStart(year, month) + 1 == DaysInMonth(year, month) * MsPerDay
    ensures PeriodEnd(year, month) + 1 == PeriodStart(year, month + 1)
  {
    MonthFirstDayStep(year, month);
    PeriodStartDay(year, month);
    PeriodStartDay(year, month + 1);
    PeriodEndDay(year, month);
    DaysToMillis(PeriodStart(year, month), PeriodEnd(year, month), PeriodStart(year, month + 1),
                 MonthFirstDay(year, month), DaysInMonth(year, month), MonthFirstDay(year, month + 1));
  }

  /** The period of a month starts at the first millisecond of its first day. */
  lemma PeriodStartDay(year: int, month: int)
    ensures PeriodStart(year, month) == MonthFirstDay(year, month) * MsPerDay
  {
  }

  /** The period of a month ends at the last millisecond before the first day of the next. */
  lemma PeriodEndDay(year: int, month: int)
    ensures PeriodEnd(year, month) == MonthFirstDay(year, month + 1) * MsPerDay - 1
  {
    assert month + 1 - 1 == month;
  }

  /** Day arithmetic carried over to milliseconds: a period from the first
      millisecond of day `first` to the last before day `next`. */
  lemma DaysToMillis(start: int, end: int, nextStart: int, first: int, length: int, next: int)
    requires start == first * MsPerDay && end == next * MsPerDay - 1 && nextStart == next * MsPerDay
    requires next == first + length
    ensures end - start + 1 == length * MsPerDay && end + 1 == nextStart
  {
    calc {
      end - start + 1;
      (next - first) * MsPerDay;
      length * MsPerDay;
    }
  }

  /** Days from 1 March of year 0 of an era to 1 March of its year `yoe`. */
  function StartOfYearOfEra(yoe: int): int {
    365 * yoe + yoe / 4 - yoe / 100
  }

  /** The year of the era (from March) that holds day `doe` of the era. */
  function YearOfEra(doe: int): int {
    (doe - doe / 1460 + doe / 36524 - doe / 146096) / 365
  }

  /** Year, month (1..12) and day of day `doy` of the year that starts on 1 March of `ym`. */
  function CivilOfMarchYear(ym: int, doy: int): (int, int, int) {
    var mp := (5 * doy + 2) / 153;
    var d := doy - (153 * mp + 2) / 5 + 1;
    var m := if mp < 10 then mp + 3 else mp - 9;
    (ym + (if m <= 2 then 1 else 0), m, d)
  }

  /** Year, month (1..12) and day of the month of a day number. */
  function CivilFromDays(days: int): (int, int, int) {
    var z := days + 719468;
    var era := z / 146097;
    var doe := z - era * 146097;
    var yoe := YearOfEra(doe);
    CivilOfMarchYear(era * 400 + yoe, doe - StartOfYearOfEra(yoe))
  }

  /** `new Date(t).getUTCDate()`. */
  function UtcDate(t: int): int {
    CivilFromDays(t / MsPerDay).2
  }

  /** `getFullYear()` and `getMonth() + 1` of the clock, read in UTC. */
  function UtcYearMonth(t: int): (int, int) {
    var date := CivilFromDays(t / MsPerDay);
    (date.0, date.1)
  }

  /** Within a 400-year era, the year formula of `CivilFromDays` finds the
      year whose March-based span holds day `doy` of it. */
  lemma {:induction false} YearOfEraRecovered(yoe: int, doy: int)
    requires 0 <= yoe <= 399 && 0 <= doy <= 365
    requires doy == 365 ==> yoe % 4 == 3 && (yoe == 399 || (yoe + 1) % 100 != 0)
    ensures 0 <= StartOfYearOfEra(yoe) + doy <= 146096 && YearOfEra(StartOfYearOfEra(yoe) + doy) == yoe
  {
    var a, r := yoe / 4, yoe % 4;
    var c, a2 := a / 25, a % 25;
    assert yoe == 100 * c + 4 * a2 + r;
    assert yoe / 100 == c;
    var doe := 365 * yoe + yoe / 4 - yoe / 100 + doy;
    assert doe == 36524 * c + (1461 * a2 + 365 * r + doy);
    assert doe == 1460 * a + (a - c + 365 * r + doy);
    var e1 := if a - c + 365 * r + doy >= 1460 then 1 else 0;
    assert doe / 1460 == a + e1;
    var e2 := if 1461 * a2 + 365 * r + doy == 36524 then 1 else 0;
    assert doe / 36524 == c + e2;
    var e3 := if doe == 146096 then 1 else 0;
    assert doe / 146096 == e3;
    var f := doe - doe / 1460 + doe / 36524 - doe / 146096;
    assert doe == StartOfYearOfEra(yoe) + doy;
    assert f == 365 * yoe + (doy - e1 + e2 - e3);
    assert e2 == 1 ==> doy == 365 && a2 == 24 && r == 3;
    assert e2 == 1 ==> yoe == 399 && e3 == 1;
    assert doy == 365 ==> e1 == 1;
    assert f / 365 == yoe;
  }

  /** The month formula of `CivilFromDays` inverts `MarchOffset`. */
  lemma MonthOfYearRecovered(ym: int, mp: int, d: int)
    requires 0 <= mp <= 11 && 1 <= d <= 31
    requires mp == 11 ==> d <= 29
    requires mp in {1, 3, 6, 8} ==> d <= 30
    ensures CivilOfMarchYear(ym, MarchOffset(mp) + d - 1) ==
              (ym + (if mp >= 10 then 1 else 0), if mp < 10 then mp + 3 else mp - 9, d)
  {
    var doy := MarchOffset(mp) + d - 1;
    assert (153 * mp + 2) / 5 == MarchOffset(mp);
    assert (5 * doy + 2) / 153 == mp;
  }

  /** A March-based year that ends with 29 February: the year after it is leap. */
  lemma LeapDayEndsYear(y: int)
    requires IsLeap(y)
    ensures var yoe := (y - 1) % 400;
            yoe % 4 == 3 && (yoe == 399 || (yoe + 1) % 100 != 0)
  {
    var era, yoe := (y - 1) / 400, (y - 1) % 400;
    LeapOfEra(y);
    if yoe != 399 {
      assert y % 400 == yoe + 1 by { assert y == 400 * era + (yoe + 1); }
    }
  }

  /** `CivilFromDays` on day `d` of month index `mp` (from March) of year
      `yoe` of era `era`. */
  lemma CivilOfEraDay(era: int, yoe: int, mp: int, d: int)
    requires 0 <= yoe <= 399 && 0 <= mp <= 11 && 1 <= d <= 31
    requires mp == 11 ==> d <= 29
    requires mp in {1, 3, 6, 8} ==> d <= 30
    requires mp == 11 && d == 29 ==> yoe % 4 == 3 && (yoe == 399 || (yoe + 1) % 100 != 0)
    ensures CivilFromDays(era * 146097 + StartOfYearOfEra(yoe) + MarchOffset(mp) + d - 1 - 719468) ==
              (yoe + era * 400 + (if mp >= 10 then 1 else 0), if mp < 10 then mp + 3 else mp - 9, d)
  {
    var doy := MarchOffset(mp) + d - 1;
    MonthOfYearRecovered(era * 400 + yoe, mp, d);
    YearOfEraRecovered(yoe, doy);
    var doe := StartOfYearOfEra(yoe) + doy;
    var z := era * 146097 + doe;
    assert z / 146097 == era;
  }

  /** Reading a day back: day `d` of month `m` of year `y` is what
      `CivilFromDays` gives for its day number. */
  lemma CivilOfDay(y: int, m: int, d: int)
    requires 1 <= m <= 12 && 1 <= d <= MonthLength(y, m)
    ensures CivilFromDays(FirstOfMonth(y, m) + d - 1) == (y, m, d)
  {
    var ym := if m <= 2 then y - 1 else y;
    var mp := if m > 2 then m - 3 else m + 9;
    var era, yoe := ym / 400, ym % 400;
    if m == 2 && d == 29 {
      LeapDayEndsYear(y);
    }
    CivilOfEraDay(era, yoe, mp, d);
    assert FirstOfMonth(y, m) + d - 1 ==
           era * 146097 + StartOfYearOfEra(yoe) + MarchOffset(mp) + d - 1 - 719468;
  }

  /** A millisecond within the period of a month lies on one of its days: its
      UTC year and month are the month's, and its UTC date counts the days
      from the first. */
  lemma UtcDateInPeriod(year: int, month: int, t: int)
    requires PeriodStart(year, month) <= t <= PeriodEnd(year, month)
    ensures UtcYearMonth(t) == (UtcYear(year) + (month - 1) / 12, (month - 1) % 12 + 1)
    ensures UtcDate(t) == t / MsPerDay - MonthFirstDay(year, month) + 1
    ensures 1 <= UtcDate(t) <= DaysInMonth(year, month)
  {
    PeriodStartDay(year, month);
    PeriodEndDay(year, month);
    MonthFirstDayStep(year, month);
    var first := MonthFirstDay(year, month);
    var n := DaysInMonth(year, month);
    var day := t / MsPerDay;
    assert first <= day < first + n by {
      assert first * MsPerDay <= t < (first + n) * MsPerDay;
    }
    CivilOfDay(UtcYear(year) + (month - 1) / 12, (month - 1) % 12 + 1, day - first + 1);
  }
}
