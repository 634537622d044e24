/** The pure rules of the daily scheduler: job keys, `HH:MM` parsing, the
    course day index, quiet hours, the backlog-reminder time and the
    "lesson viewed" callback payload. */
module ScheduleRules {
  import opened Common
  import opened Clock
  import opened Enrollment

  // ------------------------------------------------ settings

  /** `int(setting or d)`: an unset (zero) integer setting takes its default. */
  function OrDefault(x: int, d: int): (r: int)
    ensures x != 0 ==> r == x
    ensures x == 0 ==> r == d
  {
    if x == 0 then d else x
  }

  // ------------------------------------------------ job keys

  /** `f"l{id}" if id else "l0"`: a missing or zero id renders as 0. */
  function PartId(id: Option<int>): (r: int)
    ensures id.Some? && id.value != 0 ==> r == id.value
    ensures id.None? || id.value == 0 ==> r == 0
  {
    if id.Some? then id.value else 0
  }

  /** The seven colon-separated fields of a day job key. */
  function JobKeyFields(dayIndex: int, lessonId: Option<int>, questId: Option<int>, version: int): seq<string> {
    ["day", IntToString(dayIndex), "l" + IntToString(PartId(lessonId)), "q",
     "q" + IntToString(PartId(questId)), "v", IntToString(version)]
  }

  /** `_job_key`: `day:<d>:l<lesson>:q:q<quest>:v:<version>`. */
  function JobKey(dayIndex: int, lessonId: Option<int>, questId: Option<int>, version: int): string {
    Join(JobKeyFields(dayIndex, lessonId, questId, version), ':')
  }

  /** The fields a day job key is made of. */
  datatype KeyFields = KeyFields(dayIndex: int, lessonId: int, questId: int, version: int)

  /** Reads a day job key back into its fields. */
  function ParseJobKey(k: string): Option<KeyFields> {
    var p := Split(k, ':');
    if |p| != 7 || p[0] != "day" || p[3] != "q" || p[5] != "v" then None
    else if |p[2]| == 0 || p[2][0] != 'l' || |p[4]| == 0 || p[4][0] != 'q' then None
    else match (ParseInt(p[1]), ParseInt(p[2][1..]), ParseInt(p[4][1..]), ParseInt(p[6]))
      case (Some(d), Some(l), Some(q), Some(v)) => Some(KeyFields(d, l, q, v))
      case _ => None
  }

  /** No number renders with a colon or an equals sign. */
  lemma IntToStringPlain(n: int)
    ensures ':' !in IntToString(n) && '=' !in IntToString(n)
  {
    var r := IntToString(n);
    assert forall i :: 0 <= i < |r| ==> r[i] != ':' && r[i] != '=';
  }

  /** A one-letter tag followed by a number has no colon. */
  lemma TaggedPlain(tag: char, n: int)
    requires tag != ':'
    ensures ':' !in [tag] + IntToString(n)
  {
    IntToStringPlain(n);
  }

  /** The job key splits back into its seven fields. */
  lemma JobKeyParts(dayIndex: int, lessonId: Option<int>, questId: Option<int>, version: int)
    ensures Split(JobKey(dayIndex, lessonId, questId, version), ':') == JobKeyFields(dayIndex, lessonId, questId, version)
  {
    var f := JobKeyFields(dayIndex, lessonId, questId, version);
    IntToStringPlain(dayIndex);
    IntToStringPlain(version);
    TaggedPlain('l', PartId(lessonId));
    TaggedPlain('q', PartId(questId));
    assert forall i :: 0 <= i < 7 ==> ':' !in f[i];
    SplitJoin(f, ':');
  }

  /** The key determines the day, both content ids and the version. */
  lemma JobKeyRoundTrip(dayIndex: int, lessonId: Option<int>, questId: Option<int>, version: int)
    ensures ParseJobKey(JobKey(dayIndex, lessonId, questId, version))
      == Some(KeyFields(dayIndex, PartId(lessonId), PartId(questId), version))
  {
    var f := JobKeyFields(dayIndex, lessonId, questId, version);
    JobKeyParts(dayIndex, lessonId, questId, version);
    FieldsRoundTrip(f, dayIndex, PartId(lessonId), PartId(questId), version);
  }

  lemma FieldsRoundTrip(p: seq<string>, d: int, l: int, q: int, v: int)
    requires p == ["day", IntToString(d), "l" + IntToString(l), "q", "q" + IntToString(q), "v", IntToString(v)]
    ensures match (ParseInt(p[1]), ParseInt(p[2][1..]), ParseInt(p[4][1..]), ParseInt(p[6]))
      case (Some(d'), Some(l'), Some(q'), Some(v')) => d' == d && l' == l && q' == q && v' == v
      case _ => false
  {
    assert p[2][1..] == IntToString(l);
    assert p[4][1..] == IntToString(q);
    ParseIntToString(d);
    ParseIntToString(l);
    ParseIntToString(q);
    ParseIntToString(v);
  }

  /** Two day jobs share a key only when they agree on day, ids and version; a new
      content version therefore gets a job of its own. */
  lemma JobKeyInjective(d1: int, l1: Option<int>, q1: Option<int>, v1: int,
                        d2: int, l2: Option<int>, q2: Option<int>, v2: int)
    requires JobKey(d1, l1, q1, v1) == JobKey(d2, l2, q2, v2)
    ensures d1 == d2 && PartId(l1) == PartId(l2) && PartId(q1) == PartId(q2) && v1 == v2
  {
    JobKeyRoundTrip(d1, l1, q1, v1);
    JobKeyRoundTrip(d2, l2, q2, v2);
  }

  // ------------------------------------------------ HH:MM

  /** `_parse_hhmm(v, default)`: blank input takes the default; two integer fields
      are clamped to 0..23 and 0..59; anything else takes the default. */
  function ParseHhmm(v: string, dflt: HhMm): (r: HhMm)
    requires dflt.Valid()
    ensures r.Valid()
    ensures Trim(v) == [] ==> r == dflt
    ensures |Split(Trim(v), ':')| != 2 ==> r == dflt
  {
    var s := Trim(v);
    if s == [] then dflt
    else
      var p := Split(s, ':');
      if |p| != 2 then dflt
      else match (ParseInt(p[0]), ParseInt(p[1]))
        case (Some(h), Some(m)) => HhMm(Clamp(h, 0, 23), Clamp(m, 0, 59))
        case _ => dflt
  }

  /** Two colon-free fields around one colon are read as hour and minute. */
  lemma ParseHhmmFields(a: string, b: string, h: int, m: int, dflt: HhMm)
    requires dflt.Valid()
    requires a != [] && b != [] && !IsSpace(a[0]) && !IsSpace(b[|b| - 1])
    requires ':' !in a && ':' !in b
    requires ParseInt(a) == Some(h) && ParseInt(b) == Some(m)
    ensures ParseHhmm(a + ":" + b, dflt) == HhMm(Clamp(h, 0, 23), Clamp(m, 0, 59))
  {
    var s := a + ":" + b;
    assert s == a + [':'] + b;
    assert s[|s| - 1] == b[|b| - 1];
    TrimKeeps(s);
    SplitAt(a, ':', b);
    SplitNoSep(b, ':');
    assert Split(s, ':') == [a, b];
  }

  /** Any two integers around a colon are read and clamped into range. */
  lemma ParseHhmmClamps(h: int, m: int, dflt: HhMm)
    requires dflt.Valid()
    ensures ParseHhmm(IntToString(h) + ":" + IntToString(m), dflt) == HhMm(Clamp(h, 0, 23), Clamp(m, 0, 59))
  {
    var a, b := IntToString(h), IntToString(m);
    IntToStringPlain(h);
    IntToStringPlain(m);
    ParseIntToString(h);
    ParseIntToString(m);
    assert a != [] && b != [];
    assert !IsSpace(a[0]);
    assert !IsSpace(b[|b| - 1]);
    ParseHhmmFields(a, b, h, m, dflt);
  }

  /** A digit string is a colon-free field with no surrounding whitespace. */
  lemma DigitField(a: string)
    requires IsDigits(a)
    ensures ':' !in a && !IsSpace(a[0]) && !IsSpace(a[|a| - 1])
  {
    assert IsDigit(a[0]) && IsDigit(a[|a| - 1]);
    DigitsHaveNo(a, ':');
  }

  /** `strftime("%H:%M")` of a valid time parses back to it. */
  lemma ParseHhmmText(c: HhMm, dflt: HhMm)
    requires c.Valid() && dflt.Valid()
    ensures ParseHhmm(HhMmText(c), dflt) == c
  {
    var a, b := ZeroPad(c.hour, 2), ZeroPad(c.minute, 2);
    ZeroPadValue(c.hour, 2);
    ZeroPadValue(c.minute, 2);
    DigitField(a);
    DigitField(b);
    assert HhMmText(c) == a + ":" + b;
    ParseHhmmFields(a, b, c.hour, c.minute, dflt);
  }

  // ------------------------------------------------ day index

  /** `max(1, (local_date - enrolled_local_date).days + 1)` */
  function DayIndex(localDate: Day, enrolledLocal: Day): int {
    Max(1, localDate - enrolledLocal + 1)
  }

  /** `_day_index_for_local_date`: 1 without an active enrollment, otherwise counted
      from the local date of enrollment in the user's zone. */
  function DayIndexFor(e: Option<Enrollment>, z: Zone, localDate: Day): (r: int)
    ensures r >= 1
    ensures e.None? ==> r == 1
  {
    match e
    case None => 1
    case Some(row) => DayIndex(localDate, LocalDate(row.enrolledAt, z))
  }

  /** `current_day_index`: the same count for the local date of `now`. */
  function CurrentDayIndex(e: Option<Enrollment>, z: Zone, now: Instant): (r: int)
    ensures r >= 1
  {
    if e.None? then 1 else Max(1, LocalDate(now, z) - LocalDate(e.value.enrolledAt, z) + 1)
  }

  lemma CurrentDayIndexIsToday(e: Option<Enrollment>, z: Zone, now: Instant)
    ensures CurrentDayIndex(e, z, now) == DayIndexFor(e, z, LocalDate(now, z))
  {
  }

  /** The day index never decreases as the local date advances. */
  lemma DayIndexMonotone(e: Option<Enrollment>, z: Zone, d1: Day, d2: Day)
    requires d1 <= d2
    ensures DayIndexFor(e, z, d1) <= DayIndexFor(e, z, d2)
  {
  }

  /** From the enrollment day on, each local day is exactly one course day later;
      the enrollment day itself is day 1. */
  lemma DayIndexCounts(row: Enrollment, z: Zone, d: Day)
    requires d >= LocalDate(row.enrolledAt, z)
    ensures DayIndexFor(Some(row), z, d) == d - LocalDate(row.enrolledAt, z) + 1
    ensures DayIndexFor(Some(row), z, d + 1) == DayIndexFor(Some(row), z, d) + 1
    ensures DayIndexFor(Some(row), z, LocalDate(row.enrolledAt, z)) == 1
  {
  }

  // ------------------------------------------------ quiet hours

  /** `_is_quiet_time` on the second of the local day: a window from `start` to `end`
      that wraps past midnight when `start` is not before `end`. */
  predicate IsQuietTime(t: int, start: HhMm, end: HhMm) {
    if start.Seconds() < end.Seconds() then start.Seconds() <= t < end.Seconds()
    else t >= start.Seconds() || t < end.Seconds()
  }

  /** The length of the quiet window in seconds; a window that starts where it ends
      covers the whole day. */
  function QuietLength(start: HhMm, end: HhMm): int {
    if start.Seconds() < end.Seconds() then end.Seconds() - start.Seconds()
    else SECONDS_PER_DAY - start.Seconds() + end.Seconds()
  }

  /** A reference reading of quiet hours: the seconds elapsed since the window
      opened, counted around the clock, are fewer than the window's length. */
  lemma QuietTimeIsCyclicWindow(t: int, start: HhMm, end: HhMm)
    requires 0 <= t < SECONDS_PER_DAY && start.Valid() && end.Valid()
    ensures IsQuietTime(t, start, end) <==> (t - start.Seconds()) % SECONDS_PER_DAY < QuietLength(start, end)
  {
    var s := start.Seconds();
    if t >= s {
      DivModUnique(t - s, 86400, 0, t - s);
    } else {
      DivModUnique(t - s, 86400, -1, t - s + 86400);
    }
  }

  /** Equal start and end make every time quiet. */
  lemma QuietAllDayWhenEqual(t: int, c: HhMm)
    ensures IsQuietTime(t, c, c)
  {
  }

  // ------------------------------------------------ backlog reminder

  /** `_compute_daily_reminder_run_local`: delivery plus `afterHours`; when that
      falls in quiet hours, the next fallback time of day strictly after it. */
  function ReminderRun(delivery: Instant, z: Zone, afterHours: int, quietStart: HhMm, quietEnd: HhMm,
                       fallback: HhMm): Instant
  {
    var candidate := delivery + 3600 * afterHours;
    if !IsQuietTime(SecondOfDay(candidate, z), quietStart, quietEnd) then candidate
    else
      var f := ToUtc(LocalDate(candidate, z), fallback, z);
      if f <= candidate then f + SECONDS_PER_DAY else f
  }

  /** A candidate outside quiet hours is kept; otherwise the reminder moves to the
      fallback time of day, strictly later and at most one day later. */
  lemma ReminderRunBounds(delivery: Instant, z: Zone, afterHours: int, quietStart: HhMm, quietEnd: HhMm,
                          fallback: HhMm)
    requires fallback.Valid()
    ensures var candidate := delivery + 3600 * afterHours;
      var r := ReminderRun(delivery, z, afterHours, quietStart, quietEnd, fallback);
      (!IsQuietTime(SecondOfDay(candidate, z), quietStart, quietEnd) ==> r == candidate)
      && (IsQuietTime(SecondOfDay(candidate, z), quietStart, quietEnd) ==>
            candidate < r <= candidate + SECONDS_PER_DAY && LocalHhMm(r, z) == fallback)
  {
    var candidate := delivery + 3600 * afterHours;
    var day := LocalDate(candidate, z);
    var f := ToUtc(day, fallback, z);
    LocalMidnight(candidate, z);
    ToUtcRoundTrip(day, fallback, z);
    ToUtcRoundTrip(day + 1, fallback, z);
    assert ToUtc(day + 1, fallback, z) == f + SECONDS_PER_DAY;
  }

  // ------------------------------------------------ "lesson viewed" callback

  /** `make_viewed_cb`: `lesson:viewed:day=<d>:p=<points>`. */
  function MakeViewedCb(dayIndex: int, points: int): string {
    Join(["lesson", "viewed", "day=" + IntToString(dayIndex), "p=" + IntToString(points)], ':')
  }

  datatype Viewed = Viewed(dayIndex: int, points: int)

  /** The integer after the first `=` of a `name=value` field; None where Python's
      indexing or `int` raises. */
  function FieldValue(field: string): Option<int> {
    var kv := Split(field, '=');
    if |kv| < 2 then None else ParseInt(kv[1])
  }

  /** `parse_viewed_payload`: None unless the data starts with `lesson:viewed:` and
      its third and fourth colon fields carry integers after `=`. */
  function ParseViewedPayload(data: string): (r: Option<Viewed>)
    ensures !StartsWith(data, "lesson:viewed:") ==> r.None?
    ensures r.Some? ==> |Split(data, ':')| >= 4
  {
    if !StartsWith(data, "lesson:viewed:") then None
    else
      var parts := Split(data, ':');
      if |parts| < 4 then None
      else match (FieldValue(parts[2]), FieldValue(parts[3]))
        case (Some(d), Some(p)) => Some(Viewed(d, p))
        case _ => None
  }

  /** A `name=<n>` field yields n. */
  lemma FieldValueOf(tag: string, n: int)
    requires |tag| >= 1 && tag[|tag| - 1] == '=' && '=' !in tag[..|tag| - 1]
    ensures FieldValue(tag + IntToString(n)) == Some(n)
  {
    var name := tag[..|tag| - 1];
    IntToStringPlain(n);
    assert tag + IntToString(n) == name + ['='] + IntToString(n);
    SplitAt(name, '=', IntToString(n));
    SplitNoSep(IntToString(n), '=');
    ParseIntToString(n);
  }

  /** The callback data starts with the `lesson:viewed:` tag and splits back
      into its four fields. */
  lemma ViewedParts(dayIndex: int, points: int)
    ensures StartsWith(MakeViewedCb(dayIndex, points), "lesson:viewed:")
    ensures Split(MakeViewedCb(dayIndex, points), ':')
      == ["lesson", "viewed", "day=" + IntToString(dayIndex), "p=" + IntToString(points)]
  {
    var f := ["lesson", "viewed", "day=" + IntToString(dayIndex), "p=" + IntToString(points)];
    var data := MakeViewedCb(dayIndex, points);
    IntToStringPlain(dayIndex);
    IntToStringPlain(points);
    assert forall i :: 0 <= i < 4 ==> ':' !in f[i];
    SplitJoin(f, ':');
    assert data == "lesson" + [':'] + Join(f[1..], ':');
    assert Join(f[1..], ':') == "viewed" + [':'] + Join(f[2..], ':');
    assert data == "lesson:viewed:" + Join(f[2..], ':');
  }

  /** The callback data parses back to the day and points it was made from. */
  lemma ViewedRoundTrip(dayIndex: int, points: int)
    ensures ParseViewedPayload(MakeViewedCb(dayIndex, points)) == Some(Viewed(dayIndex, points))
  {
    var data := MakeViewedCb(dayIndex, points);
    ViewedParts(dayIndex, points);
    var parts := Split(data, ':');
    FieldValueOf("day=", dayIndex);
    FieldValueOf("p=", points);
    assert FieldValue(parts[2]) == Some(dayIndex);
    assert FieldValue(parts[3]) == Some(points);
  }

  /** Callback data with fewer than four colon fields is refused. */
  lemma ViewedTooFewFields(data: string)
    requires |Split(data, ':')| < 4
    ensures ParseViewedPayload(data) == None
  {
  }
}
