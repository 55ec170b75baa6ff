/** Instants as whole seconds since 1970-01-01T00:00:00Z, and the proleptic
 *  Gregorian calendar arithmetic of java.time in UTC: plusDays, plusWeeks,
 *  plusMonths and plusYears (which clamp the day of month to the length of the
 *  target month), LocalDate.toString, and truncation to the hour. */
module Calendar {
  import opened Common

  type Instant = int

  const SecondsPerMinute: int := 60
  const SecondsPerHour: int := 3600
  const SecondsPerDay: int := 86400

  datatype Date = Date(year: int, month: int, day: int)

  predicate IsLeapYear(y: int)
  {
    y % 4 == 0 && (y % 100 != 0 || y % 400 == 0)
  }

  function DaysInMonth(y: int, m: int): (r: int)
    ensures 28 <= r <= 31
  {
    if m == 2 then (if IsLeapYear(y) then 29 else 28)
    else if m == 4 || m == 6 || m == 9 || m == 11 then 30
    else 31
  }

  /** Days since 1970-01-01 of a civil date (H. Hinnant's days_from_civil). */
  function DaysFromCivil(y0: int, m: int, d: int): int
  {
    var y := if m <= 2 then y0 - 1 else y0;
    var era := y / 400;
    var yoe := y - era * 400;
    var mp := if m > 2 then m - 3 else m + 9;
    var doy := (153 * mp + 2) / 5 + d - 1;
    var doe := yoe * 365 + yoe / 4 - yoe / 100 + doy;
    era * 146097 + doe - 719468
  }

  /** The civil date of a day count since 1970-01-01 (civil_from_days). */
  function CivilFromDays(z0: int): Date
  {
    var z := z0 + 719468;
    var era := z / 146097;
    var doe := z - era * 146097;
    var yoe := (doe - doe / 1460 + doe / 36524 - doe / 146096) / 365;
    var doy := doe - (365 * yoe + yoe / 4 - yoe / 100);
    var mp := (5 * doy + 2) / 153;
    var d := doy - (153 * mp + 2) / 5 + 1;
    var m := if mp < 10 then mp + 3 else mp - 9;
    var y := yoe + era * 400;
    Date(if m <= 2 then y + 1 else y, m, d)
  }

  function DateOf(t: Instant): Date
  {
    CivilFromDays(t / SecondsPerDay)
  }

  function PlusSeconds(t: Instant, n: int): (r: Instant)
    ensures r - t == n
  {
    t + n
  }

  function PlusMinutes(t: Instant, n: int): (r: Instant)
    ensures r - t == n * SecondsPerMinute
  {
    t + n * SecondsPerMinute
  }

  function PlusHours(t: Instant, n: int): (r: Instant)
    ensures r - t == n * SecondsPerHour
  {
    t + n * SecondsPerHour
  }

  function PlusDays(t: Instant, n: int): (r: Instant)
    ensures r - t == n * SecondsPerDay
  {
    t + n * SecondsPerDay
  }

  function PlusWeeks(t: Instant, n: int): (r: Instant)
    ensures r == PlusDays(t, 7 * n)
  {
    t + 7 * n * SecondsPerDay
  }

  /** plusMonths: move the month, keep the time of day, and clamp the day to the
   *  last day of the target month (Jan 31 + 1 month = Feb 28 or 29). */
  function PlusMonths(t: Instant, n: int): (r: Instant)
    ensures r % SecondsPerDay == t % SecondsPerDay
  {
    var date := DateOf(t);
    var total := date.year * 12 + (date.month - 1) + n;
    var y := total / 12;
    var m := total % 12 + 1;
    var d := Min(date.day, DaysInMonth(y, m));
    var days := DaysFromCivil(y, m, d);
    TimeOfDayKept(days, t % SecondsPerDay);
    days * SecondsPerDay + t % SecondsPerDay
  }

  lemma TimeOfDayKept(days: int, s: int)
    requires 0 <= s < SecondsPerDay
    ensures (days * SecondsPerDay + s) % SecondsPerDay == s
  {
  }

  /** plusYears: the same clamp as plusMonths, by whole years (Feb 29 + 1 year
   *  = Feb 28). */
  function PlusYears(t: Instant, n: int): Instant
  {
    PlusMonths(t, 12 * n)
  }

  /** Truncation to the start of the hour (truncatedTo(ChronoUnit.HOURS)). */
  function HourStart(t: Instant): (r: Instant)
    ensures r <= t < r + SecondsPerHour
    ensures r % SecondsPerHour == 0
  {
    t - t % SecondsPerHour
  }

  /** LocalDate.toString: yyyy-MM-dd, with a sign and more digits outside 0..9999. */
  function DateText(date: Date): string
  {
    var y := date.year;
    var yearText :=
      if y > 9999 then "+" + DecimalText(y)
      else if y >= 0 then PadDecimal(y, 4)
      else if y > -10000 then "-" + PadDecimal(-y, 4)
      else "-" + DecimalText(-y);
    yearText + "-" + PadDecimal(if date.month < 0 then 0 else date.month, 2)
      + "-" + PadDecimal(if date.day < 0 then 0 else date.day, 2)
  }

  /** The date part of an instant, as LocalDate.toString writes it. */
  function InstantDateText(t: Instant): string
  {
    DateText(DateOf(t))
  }

  // ---------------------------------------------------------------- billing intervals

  /** The calendar unit a billing interval advances by. */
  datatype Unit = Days | Weeks | Months | Years

  /** start.plusDays / plusWeeks / plusMonths / plusYears (n). */
  function AddUnits(t: Instant, unit: Unit, n: int): Instant
  {
    match unit
    case Days => PlusDays(t, n)
    case Weeks => PlusWeeks(t, n)
    case Months => PlusMonths(t, n)
    case Years => PlusYears(t, n)
  }

  /** A billing interval in its canonical (upper-case) spelling: one unit of
   *  its length, QUARTERLY being three months. */
  datatype Interval = Interval(unit: Unit, length: int)

  function StandardInterval(name: string): Option<Interval>
  {
    if name == "DAILY" then Some(Interval(Days, 1))
    else if name == "WEEKLY" then Some(Interval(Weeks, 1))
    else if name == "MONTHLY" then Some(Interval(Months, 1))
    else if name == "QUARTERLY" then Some(Interval(Months, 3))
    else if name == "YEARLY" then Some(Interval(Years, 1))
    else None
  }

  /** The instant count intervals after t. */
  function AddIntervals(t: Instant, interval: Interval, count: int): Instant
  {
    AddUnits(t, interval.unit, interval.length * count)
  }
}
