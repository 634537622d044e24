/** Instants, local calendar days and wall-clock times.

    An instant is a whole number of seconds since 1970-01-01T00:00:00Z; a local
    day is Python's proleptic Gregorian ordinal (`date.toordinal()`); a zone is
    a fixed offset from UTC in seconds. */
module Clock {
  import opened Common

  const SECONDS_PER_DAY: int := 86400
  /** `date(1970, 1, 1).toordinal()` */
  const EPOCH_ORDINAL: int := 719163
  /** `date.max.toordinal()`, 9999-12-31 */
  const MAX_ORDINAL: int := 3652059

  type Instant = int
  type Day = int

  /** A `datetime.time` with whole minutes. */
  datatype HhMm = HhMm(hour: int, minute: int) {
    predicate Valid() { 0 <= hour <= 23 && 0 <= minute <= 59 }
    /** Seconds after midnight. */
    function Seconds(): int { 3600 * hour + 60 * minute }
  }

  /** A named zone with a fixed UTC offset in seconds. */
  datatype Zone = Zone(name: string, offset: int)

  /** The local calendar day of an instant. */
  function LocalDate(t: Instant, z: Zone): Day {
    (t + z.offset) / 86400 + EPOCH_ORDINAL
  }

  function SecondOfDay(t: Instant, z: Zone): (r: int)
    ensures 0 <= r < SECONDS_PER_DAY
  {
    (t + z.offset) % 86400
  }

  /** The local wall-clock hour and minute of an instant. */
  function LocalHhMm(t: Instant, z: Zone): (r: HhMm)
    ensures r.Valid()
  {
    var s := SecondOfDay(t, z);
    HhMm(s / 3600, s % 3600 / 60)
  }

  /** Local midnight of day `d` as a UTC instant. */
  function Midnight(d: Day, z: Zone): Instant {
    86400 * (d - EPOCH_ORDINAL) - z.offset
  }

  /** `datetime.combine(d, c, tzinfo=z)` as a UTC instant. */
  function ToUtc(d: Day, c: HhMm, z: Zone): Instant {
    Midnight(d, z) + c.Seconds()
  }

  /** Combining a local day and a time and reading them back is the identity. */
  lemma ToUtcRoundTrip(d: Day, c: HhMm, z: Zone)
    requires c.Valid()
    ensures LocalDate(ToUtc(d, c, z), z) == d
    ensures SecondOfDay(ToUtc(d, c, z), z) == c.Seconds()
    ensures LocalHhMm(ToUtc(d, c, z), z) == c
  {
    var q := d - EPOCH_ORDINAL;
    var s := c.Seconds();
    assert ToUtc(d, c, z) + z.offset == 86400 * q + s;
    DivModUnique(86400 * q + s, 86400, q, s);
    DivModUnique(s, 3600, c.hour, c.minute * 60);
    DivModUnique(c.minute * 60, 60, c.minute, 0);
  }

  /** Every instant is its local midnight plus its second of the day. */
  lemma LocalMidnight(t: Instant, z: Zone)
    ensures t == Midnight(LocalDate(t, z), z) + SecondOfDay(t, z)
  {
  }

  /** The local day and the hour and minute of an instant, combined back,
      give the start of the minute that holds the instant. */
  lemma LocalHhMmBrackets(t: Instant, z: Zone)
    ensures ToUtc(LocalDate(t, z), LocalHhMm(t, z), z) <= t < ToUtc(LocalDate(t, z), LocalHhMm(t, z), z) + 60
  {
    LocalMidnight(t, z);
    var s := SecondOfDay(t, z);
    var h, rest := s / 3600, s % 3600;
    assert s == 3600 * h + rest;
    assert rest == 60 * (rest / 60) + rest % 60;
    assert LocalHhMm(t, z).Seconds() == 3600 * h + 60 * (rest / 60);
  }

  lemma DivModUnique(a: int, n: int, q: int, r: int)
    requires n > 0 && 0 <= r < n && a == q * n + r
    ensures a / n == q && a % n == r
  {
    var q', r' := a / n, a % n;
    assert a == q' * n + r';
    assert (q - q') * n == r' - r;
    if q > q' {
      MulAtLeast(q - q', n);
    } else if q < q' {
      MulAtLeast(q' - q, n);
    }
  }

  lemma {:induction false} MulAtLeast(k: int, n: int)
    requires k >= 1 && n > 0
    ensures k * n >= n
    decreases k
  {
    if k > 1 {
      MulAtLeast(k - 1, n);
      assert k * n == (k - 1) * n + n;
    }
  }

  /** `date.weekday()`: Monday is 0. */
  function Weekday(d: Day): (r: int)
    ensures 0 <= r < 7
  {
    (d + 6) % 7
  }

  /** `date.isoweekday()`: `toordinal() % 7 or 7`. */
  function IsoWeekday(d: Day): int {
    if d % 7 == 0 then 7 else d % 7
  }

  /** The two weekday numberings agree: Monday is 1 in ISO and 0 in Python. */
  lemma IsoWeekdayIsWeekdayPlusOne(d: Day)
    ensures IsoWeekday(d) == Weekday(d) + 1
  {
  }

  // ------------------------------------------------- civil calendar

  datatype Ymd = Ymd(year: int, month: int, day: int)

  predicate IsLeap(y: int) { y % 4 == 0 && (y % 100 != 0 || y % 400 == 0) }

  /** `_DAYS_IN_MONTH` for month 1..12 of a common year. */
  function DaysInMonth(m: int): int {
    if m == 2 then 28 else if m == 4 || m == 6 || m == 9 || m == 11 then 30 else 31
  }

  function DaysInMonthOf(y: int, m: int): int {
    DaysInMonth(m) + if m == 2 && IsLeap(y) then 1 else 0
  }

  /** `_DAYS_BEFORE_MONTH` for month 1..12 of a common year. */
  function DaysBeforeMonth(m: int): int {
    if m <= 1 then 0 else if m == 2 then 31 else if m == 3 then 59
    else if m == 4 then 90 else if m == 5 then 120 else if m == 6 then 151
    else if m == 7 then 181 else if m == 8 then 212 else if m == 9 then 243
    else if m == 10 then 273 else if m == 11 then 304 else 334
  }

  const DAYS_IN_400_YEARS: int := 146097
  const DAYS_IN_100_YEARS: int := 36524
  const DAYS_IN_4_YEARS: int := 1461

  /** Python's `_ord2ymd`: the civil date of an ordinal. */
  function OrdinalToYmd(n: Day): Ymd {
    var n0 := n - 1;
    var n400 := n0 / DAYS_IN_400_YEARS;
    var r400 := n0 % DAYS_IN_400_YEARS;
    var n100 := r400 / DAYS_IN_100_YEARS;
    var r100 := r400 % DAYS_IN_100_YEARS;
    var n4 := r100 / DAYS_IN_4_YEARS;
    var r4 := r100 % DAYS_IN_4_YEARS;
    var n1 := r4 / 365;
    var r1 := r4 % 365;
    var year := n400 * 400 + 1 + n100 * 100 + n4 * 4 + n1;
    if n1 == 4 || n100 == 4 then
      Ymd(year - 1, 12, 31)
    else
      var md := MonthAndDay(r1, n1 == 3 && (n4 != 24 || n100 == 3));
      Ymd(year, md.0, md.1)
  }

  /** The month-estimate step of `_ord2ymd`: month and day of the `r1`-th day
      (from 0) of a year. */
  function MonthAndDay(r1: int, leap: bool): (int, int) {
    var month := (r1 + 50) / 32;
    var preceding := DaysBeforeMonth(month) + if month > 2 && leap then 1 else 0;
    if preceding > r1 then
      var m := month - 1;
      (m, r1 - (preceding - (DaysInMonth(m) + if m == 2 && leap then 1 else 0)) + 1)
    else
      (month, r1 - preceding + 1)
  }

  predicate ValidYmd(c: Ymd) {
    1 <= c.year <= 9999 && 1 <= c.month <= 12 && 1 <= c.day <= DaysInMonthOf(c.year, c.month)
  }

  /** A count of days in 400-, 100-, 4- and 1-year blocks, as `_ord2ymd` cuts it. */
  lemma DayBlocks(n0: int) returns (n400: int, n100: int, n4: int, n1: int, r1: int)
    requires n0 >= 0
    ensures 0 <= r1 < 365 && 0 <= 365 * n1 + r1 < DAYS_IN_4_YEARS
    ensures 0 <= 1461 * n4 + 365 * n1 + r1 < DAYS_IN_100_YEARS
    ensures 0 <= 36524 * n100 + 1461 * n4 + 365 * n1 + r1 < DAYS_IN_400_YEARS
    ensures n0 == 146097 * n400 + 36524 * n100 + 1461 * n4 + 365 * n1 + r1
  {
    n400 := n0 / DAYS_IN_400_YEARS;
    var r400 := n0 % DAYS_IN_400_YEARS;
    n100 := r400 / DAYS_IN_100_YEARS;
    var r100 := r400 % DAYS_IN_100_YEARS;
    n4 := r100 / DAYS_IN_4_YEARS;
    var r4 := r100 % DAYS_IN_4_YEARS;
    n1 := r4 / 365;
    r1 := r4 % 365;
  }

  /** Every ordinal Python's `date` accepts names a real calendar day. */
  lemma OrdinalToYmdValid(n: Day)
    requires 1 <= n <= MAX_ORDINAL
    ensures ValidYmd(OrdinalToYmd(n))
  {
    var n400, n100, n4, n1, r1 := DayBlocks(n - 1);
    OrdinalToYmdAt(n, n400, n100, n4, n1, r1);
    assert 0 <= n400 <= 24;
    assert n400 == 24 ==> n100 <= 3 && (n100 == 3 ==> n4 <= 24 && (n4 == 24 ==> n1 <= 2));
    if !(n1 == 4 || n100 == 4) {
      LeapAgrees(n400, n100, n4, n1);
      MonthAndDayValid(r1, n1 == 3 && (n4 != 24 || n100 == 3));
    }
  }

  lemma MonthAndDayValid(r1: int, leap: bool)
    requires 0 <= r1 <= 364
    ensures 1 <= MonthAndDay(r1, leap).0 <= 12
    ensures 1 <= MonthAndDay(r1, leap).1
          <= DaysInMonth(MonthAndDay(r1, leap).0) + if MonthAndDay(r1, leap).0 == 2 && leap then 1 else 0
  {
    var month := (r1 + 50) / 32;
    assert 1 <= month <= 12;
  }

  /** `_ord2ymd`'s leap-year test is the Gregorian rule on the year it computes. */
  lemma LeapAgrees(n400: int, n100: int, n4: int, n1: int)
    requires 0 <= n100 <= 3 && 0 <= n4 <= 24 && 0 <= n1 <= 3
    ensures (n1 == 3 && (n4 != 24 || n100 == 3)) == IsLeap(n400 * 400 + 1 + n100 * 100 + n4 * 4 + n1)
  {
    var y := n400 * 400 + 1 + n100 * 100 + n4 * 4 + n1;
    var q4 := n400 * 100 + n100 * 25 + n4;
    if n1 != 3 {
      DivModUnique(y, 4, q4, n1 + 1);
    } else {
      DivModUnique(y, 4, q4 + 1, 0);
      if n4 != 24 {
        DivModUnique(y, 100, n400 * 4 + n100, 4 * n4 + 4);
      } else if n100 != 3 {
        DivModUnique(y, 100, n400 * 4 + n100 + 1, 0);
        DivModUnique(y, 400, n400, 100 * n100 + 100);
      } else {
        DivModUnique(y, 400, n400 + 1, 0);
      }
    }
  }

  /** Python's `_ymd2ord`: the ordinal of a civil date. */
  function YmdToOrdinal(c: Ymd): Day {
    var y1 := c.year - 1;
    y1 * 365 + y1 / 4 - y1 / 100 + y1 / 400
    + DaysBeforeMonth(c.month) + (if c.month > 2 && IsLeap(c.year) then 1 else 0) + c.day
  }

  /** The day of the year, from 0, inside its bounds. */
  lemma DayOfYearBound(c: Ymd)
    requires ValidYmd(c)
    ensures var doy := DaysBeforeMonth(c.month) + (if c.month > 2 && IsLeap(c.year) then 1 else 0) + c.day - 1;
      0 <= doy <= (if IsLeap(c.year) then 365 else 364)
      && (doy == 365 ==> c.month == 12 && c.day == 31)
  {
  }

  /** The month estimate of `_ord2ymd` finds the month and day back. */
  lemma MonthAndDayInverse(m: int, d: int, leap: bool)
    requires 1 <= m <= 12 && 1 <= d <= DaysInMonth(m) + (if m == 2 && leap then 1 else 0)
    ensures MonthAndDay(DaysBeforeMonth(m) + (if m > 2 && leap then 1 else 0) + d - 1, leap) == (m, d)
  {
    if m == 1 {} else if m == 2 {} else if m == 3 {} else if m == 4 {} else if m == 5 {} else if m == 6 {}
    else if m == 7 {} else if m == 8 {} else if m == 9 {} else if m == 10 {} else if m == 11 {} else {}
  }

  /** `_ord2ymd` evaluated at known quotients and remainders. */
  lemma OrdinalToYmdAt(n: Day, n400: int, n100: int, n4: int, n1: int, r1: int)
    requires 0 <= r1 < 365 && 0 <= 365 * n1 + r1 < DAYS_IN_4_YEARS
    requires 0 <= 1461 * n4 + 365 * n1 + r1 < DAYS_IN_100_YEARS
    requires 0 <= 36524 * n100 + 1461 * n4 + 365 * n1 + r1 < DAYS_IN_400_YEARS
    requires n - 1 == 146097 * n400 + 36524 * n100 + 1461 * n4 + 365 * n1 + r1
    ensures var year := n400 * 400 + 1 + n100 * 100 + n4 * 4 + n1;
      OrdinalToYmd(n) == if n1 == 4 || n100 == 4 then Ymd(year - 1, 12, 31)
        else Ymd(year, MonthAndDay(r1, n1 == 3 && (n4 != 24 || n100 == 3)).0,
                 MonthAndDay(r1, n1 == 3 && (n4 != 24 || n100 == 3)).1)
  {
    var r4 := 365 * n1 + r1;
    var r100 := 1461 * n4 + r4;
    var r400 := 36524 * n100 + r100;
    DivModUnique(n - 1, DAYS_IN_400_YEARS, n400, r400);
    DivModUnique(r400, DAYS_IN_100_YEARS, n100, r100);
    DivModUnique(r100, DAYS_IN_4_YEARS, n4, r4);
    DivModUnique(r4, 365, n1, r1);
  }

  /** The civil date back from an ordinal written in 400-, 100-, 4- and
      1-year blocks plus the day of the year. */
  lemma OrdinalOfBlocks(c: Ymd, n: Day, a: int, b: int, q: int, e: int)
    requires ValidYmd(c) && 0 <= b <= 3 && 0 <= q <= 24 && 0 <= e <= 3
    requires c.year == a * 400 + 1 + b * 100 + q * 4 + e
    requires n - 1 == 146097 * a + 36524 * b + 1461 * q + 365 * e
                      + DaysBeforeMonth(c.month) + (if c.month > 2 && IsLeap(c.year) then 1 else 0) + c.day - 1
    ensures OrdinalToYmd(n) == c
  {
    var leap := IsLeap(c.year);
    var doy := DaysBeforeMonth(c.month) + (if c.month > 2 && leap then 1 else 0) + c.day - 1;
    DayOfYearBound(c);
    LeapAgrees(a, b, q, e);
    if 1461 * q + 365 * e + doy >= DAYS_IN_100_YEARS {
      assert q == 24 && e == 3 && doy == 365 && b == 3;
      OrdinalToYmdAt(n, a, 4, 0, 0, 0);
    } else if doy == 365 {
      OrdinalToYmdAt(n, a, b, q, 4, 0);
    } else {
      OrdinalWithinYear(c.year, c.month, c.day, n, a, b, q, e, leap);
    }
  }

  /** The ordinal of a day other than the last of a leap year, back to its date. */
  lemma OrdinalWithinYear(y: int, m: int, d: int, n: Day, a: int, b: int, q: int, e: int, leap: bool)
    requires 1 <= m <= 12 && 1 <= d <= DaysInMonth(m) + (if m == 2 && leap then 1 else 0)
    requires 0 <= b <= 3 && 0 <= q <= 24 && 0 <= e <= 3
    requires y == a * 400 + 1 + b * 100 + q * 4 + e
    requires leap == (e == 3 && (q != 24 || b == 3))
    requires 0 <= DaysBeforeMonth(m) + (if m > 2 && leap then 1 else 0) + d - 1 < 365
    requires 1461 * q + 365 * e + DaysBeforeMonth(m) + (if m > 2 && leap then 1 else 0) + d - 1 < DAYS_IN_100_YEARS
    requires n - 1 == 146097 * a + 36524 * b + 1461 * q + 365 * e
                      + DaysBeforeMonth(m) + (if m > 2 && leap then 1 else 0) + d - 1
    ensures OrdinalToYmd(n) == Ymd(y, m, d)
  {
    var doy := DaysBeforeMonth(m) + (if m > 2 && leap then 1 else 0) + d - 1;
    assert 0 <= 36524 * b + 1461 * q + 365 * e + doy < DAYS_IN_400_YEARS;
    OrdinalToYmdAt(n, a, b, q, e, doy);
    MonthAndDayInverse(m, d, leap);
    assert MonthAndDay(doy, leap) == (m, d);
  }

  /** A count of years in 400-, 100-, 4- and 1-year blocks. */
  lemma YearBlocks(y1: int) returns (a: int, b: int, q: int, e: int)
    requires y1 >= 0
    ensures 0 <= b <= 3 && 0 <= q <= 24 && 0 <= e <= 3
    ensures y1 == 400 * a + 100 * b + 4 * q + e
  {
    a := y1 / 400;
    var r := y1 % 400;
    b := r / 100;
    var r2 := r % 100;
    q := r2 / 4;
    e := r2 % 4;
  }

  /** `_ymd2ord` in 400-, 100-, 4- and 1-year blocks. */
  lemma YmdToOrdinalBlocks(c: Ymd, a: int, b: int, q: int, e: int)
    requires 0 <= b <= 3 && 0 <= q <= 24 && 0 <= e <= 3
    requires c.year == a * 400 + 1 + b * 100 + q * 4 + e
    ensures YmdToOrdinal(c) - 1 == 146097 * a + 36524 * b + 1461 * q + 365 * e
      + DaysBeforeMonth(c.month) + (if c.month > 2 && IsLeap(c.year) then 1 else 0) + c.day - 1
  {
    var y1 := c.year - 1;
    DivModUnique(y1, 4, 100 * a + 25 * b + q, e);
    DivModUnique(y1, 100, 4 * a + b, 4 * q + e);
    DivModUnique(y1, 400, a, 100 * b + 4 * q + e);
  }

  /** `date.fromordinal(date(y, m, d).toordinal()) == date(y, m, d)` */
  lemma YmdRoundTrip(c: Ymd)
    requires ValidYmd(c)
    ensures OrdinalToYmd(YmdToOrdinal(c)) == c
  {
    var a, b, q, e := YearBlocks(c.year - 1);
    YmdToOrdinalBlocks(c, a, b, q, e);
    OrdinalOfBlocks(c, YmdToOrdinal(c), a, b, q, e);
  }

  /** Python's `"%+03d:%02d"`-style UTC offset of `isoformat()`, with seconds
      only when the offset has some. */
  function OffsetText(offset: int): string {
    var sign := if offset < 0 then "-" else "+";
    var off := if offset < 0 then -offset else offset;
    sign + FormatPadded(off / 3600, 2) + ":" + FormatPadded(off % 3600 / 60, 2)
    + (if off % 60 != 0 then ":" + FormatPadded(off % 60, 2) else "")
  }

  /** `datetime.isoformat()` of an aware datetime with whole seconds: the wall
      clock `wall` (seconds, read as if at UTC) and its offset. */
  function IsoDateTime(wall: Instant, offset: int): string {
    var z := Zone("UTC", 0);
    var s := SecondOfDay(wall, z);
    IsoDate(LocalDate(wall, z)) + "T" + FormatPadded(s / 3600, 2) + ":" + FormatPadded(s % 3600 / 60, 2)
    + ":" + FormatPadded(s % 60, 2) + OffsetText(offset)
  }

  /** `date.isoformat()`: `"%04d-%02d-%02d"`, the full-date of section 5.6 of RFC 3339. */
  function IsoDate(n: Day): string {
    var c := OrdinalToYmd(n);
    FormatPadded(c.year, 4) + "-" + FormatPadded(c.month, 2) + "-" + FormatPadded(c.day, 2)
  }

  /** For every valid ordinal the rendering has the RFC 3339 full-date shape:
      four year digits, a dash, two month digits, a dash, two day digits. */
  lemma IsoDateShape(n: Day)
    requires 1 <= n <= MAX_ORDINAL
    ensures |IsoDate(n)| == 10
    ensures IsoDate(n)[4] == '-' && IsoDate(n)[7] == '-'
    ensures forall i :: 0 <= i < 10 && i != 4 && i != 7 ==> IsDigit(IsoDate(n)[i])
  {
    var c := OrdinalToYmd(n);
    OrdinalToYmdValid(n);
    NatWidth(c.year, 4);
    NatWidth(c.month, 2);
    NatWidth(c.day, 2);
  }

  /** A number below 10^w has at most w digits. */
  lemma NatWidth(n: nat, w: nat)
    requires w >= 1 && n < Pow10(w)
    ensures |NatToString(n)| <= w
  {
    if n >= 10 {
      NatWidth(n / 10, w - 1);
    }
  }

  function Pow10(w: nat): nat {
    if w == 0 then 1 else 10 * Pow10(w - 1)
  }

  /** `time.strftime("%H:%M")` */
  function HhMmText(c: HhMm): string {
    FormatPadded(c.hour, 2) + ":" + FormatPadded(c.minute, 2)
  }

  /** `d.strftime('%d.%m')` */
  function DayMonth(d: Day): string {
    var c := OrdinalToYmd(d);
    FormatPadded(c.day, 2) + "." + FormatPadded(c.month, 2)
  }

  /** A set of days strictly after `lo` and not after `hi` has at most `hi - lo` members. */
  lemma {:induction false} DaysBetween(s: set<Day>, lo: Day, hi: Day)
    requires lo <= hi && forall x :: x in s ==> lo < x <= hi
    ensures |s| <= hi - lo
    decreases hi - lo
  {
    if hi > lo {
      DaysBetween(s - {hi}, lo, hi - 1);
    } else {
      assert s == {} by {
        forall x | x in s
          ensures false
        {
        }
      }
    }
  }

  const UTC: Zone := Zone("UTC", 0)

  /** `ZoneInfo(name)`, falling back to `ZoneInfo("UTC")` where it raises. */
  function ZoneOrUtc(name: string, tzDb: map<string, Zone>): (z: Zone)
    ensures name in tzDb ==> z == tzDb[name]
    ensures name !in tzDb ==> z == UTC
  {
    if name in tzDb then tzDb[name] else UTC
  }
}
