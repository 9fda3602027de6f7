/** Python's naive `datetime` and `date`, reduced to exact integers: a datetime is a
    count of microseconds since 0001-01-01 00:00:00 and a date is a count of days
    since 0001-01-01, both on the proleptic Gregorian calendar Python uses.
    `timedelta` values are plain microsecond counts. */
module Clock {
  import opened Text

  const MICROS_PER_SECOND: int := 1_000_000
  const MICROS_PER_MINUTE: int := 60 * MICROS_PER_SECOND
  const MICROS_PER_HOUR: int := 60 * MICROS_PER_MINUTE
  const MICROS_PER_DAY: int := 24 * MICROS_PER_HOUR

  /** Microseconds since 0001-01-01 00:00:00. */
  type DateTime = int
  /** Days since 0001-01-01. */
  type Date = int

  /** timedelta(hours=h) */
  function Hours(h: int): int { h * MICROS_PER_HOUR }

  /** timedelta(minutes=m) */
  function Minutes(m: int): int { m * MICROS_PER_MINUTE }

  function Abs(x: int): int { if x < 0 then -x else x }

  /** dt.date() */
  function DateOf(t: DateTime): Date { t / MICROS_PER_DAY }

  /** dt.hour */
  function Hour(t: DateTime): int { t % MICROS_PER_DAY / MICROS_PER_HOUR }

  /** dt.minute */
  function Minute(t: DateTime): int { t % MICROS_PER_HOUR / MICROS_PER_MINUTE }

  /** dt.second and dt.microsecond together, as microseconds into the minute. */
  function SubMinute(t: DateTime): int { t % MICROS_PER_MINUTE }

  /** datetime.combine(d, time(h, m, s)) */
  function Combine(d: Date, h: int, m: int, s: int): DateTime
  {
    d * MICROS_PER_DAY + h * MICROS_PER_HOUR + m * MICROS_PER_MINUTE + s * MICROS_PER_SECOND
  }

  /** Year, month and day of a day count (the days-to-civil conversion of the
      proleptic Gregorian calendar; day 0 is 0001-01-01, 306 days after 0000-03-01). */
  function Civil(d: Date): (int, int, int)
  {
    var z := d + 306;
    var era := z / 146097;
    var doe := z - era * 146097;
    var yoe := (doe - doe / 1460 + doe / 36524 - doe / 146096) / 365;
    var doy := doe - (365 * yoe + yoe / 4 - yoe / 100);
    var mp := (5 * doy + 2) / 153;
    var day := doy - (153 * mp + 2) / 5 + 1;
    var month := if mp < 10 then mp + 3 else mp - 9;
    var year := yoe + era * 400 + (if month <= 2 then 1 else 0);
    (year, month, day)
  }

  /** A field printed with at least `width` digits, as strftime's %Y, %m, %d, %H, %M do. */
  function Field(i: int, width: nat): string
  {
    if i < 0 then IntToString(i) else ZeroPad(i, width)
  }

  /** str(d), d.isoformat() and d.strftime('%Y-%m-%d') */
  function IsoDate(d: Date): string
  {
    var (y, m, dd) := Civil(d);
    Field(y, 4) + "-" + Field(m, 2) + "-" + Field(dd, 2)
  }

  /** dt.strftime('%Y-%m-%d %H:%M') */
  function IsoMinute(t: DateTime): string
  {
    IsoDate(DateOf(t)) + " " + Field(Hour(t), 2) + ":" + Field(Minute(t), 2)
  }
}
