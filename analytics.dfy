/** A user's progress profile: the streak, the share of lessons viewed and
    quests answered, and the per-week dynamics of the last weeks. */
module Analytics {
  import opened Common
  import opened Clock
  import opened Streaks
  import Users
  import Enrollment

  // ------------------------------------------------------------ percentages

  /** `_pct` before rounding to one decimal: 0 when the total is not positive. */
  function Pct(done: int, total: int): (r: real)
    ensures total <= 0 ==> r == 0.0
    ensures total > 0 ==> r * (total as real) == 100.0 * (done as real)
  {
    if total <= 0 then 0.0 else 100.0 * (done as real) / (total as real)
  }

  /** A share of a positive total lies between 0 and 100. */
  lemma PctBounds(done: int, total: int)
    requires 0 <= done <= total && total > 0
    ensures 0.0 <= Pct(done, total) <= 100.0
  {
    var r := Pct(done, total);
    assert r * (total as real) <= 100.0 * (total as real);
  }

  /** The percentages of the test suite: 4 of 5 lessons and 3 of 4 quests. */
  lemma SamplePct()
    ensures Pct(4, 5) == 80.0 && Pct(3, 4) == 75.0
  {
  }

  // ------------------------------------------------------------------ weeks

  /** `_week_start`: the Monday on or before the day. */
  function WeekStart(d: Day): (m: Day)
    ensures Weekday(m) == 0 && m <= d < m + 7
  {
    d - Weekday(d)
  }

  /** Every day of the week that starts on Monday `m` has `m` as its week start. */
  lemma WeekStartOfWeek(m: Day, d: Day)
    requires Weekday(m) == 0 && m <= d < m + 7
    ensures WeekStart(d) == m
  {
    assert (m + 6) % 7 == 0;
    assert Weekday(d) == d - m by {
      DivModUnique(d + 6, 7, (m + 6) / 7, d - m);
    }
  }

  /** `max(1, int(weeks or 4))` */
  function WeekCount(weeks: int): (n: nat)
    ensures n >= 1
    ensures weeks == 0 ==> n == 4
    ensures weeks >= 1 ==> n == weeks
    ensures weeks < 0 ==> n == 1
  {
    Max(1, if weeks == 0 then 4 else weeks)
  }

  /** The `n` Mondays ending with `thisWeek`, oldest first. */
  function WeekStarts(thisWeek: Day, n: nat): (starts: seq<Day>)
    ensures |starts| == n
    ensures forall k :: 0 <= k < n ==> starts[k] == thisWeek - 7 * (n - 1 - k)
  {
    seq(n, k requires 0 <= k < n => thisWeek - 7 * (n - 1 - k))
  }

  /** The week starts are consecutive Mondays, the last one this week's. */
  lemma WeekStartsShape(today: Day, n: nat)
    requires n >= 1
    ensures var starts := WeekStarts(WeekStart(today), n);
      starts[n - 1] == WeekStart(today)
      && (forall k :: 0 <= k < n ==> Weekday(starts[k]) == 0)
      && (forall k :: 0 <= k < n - 1 ==> starts[k + 1] == starts[k] + 7)
  {
    var m := WeekStart(today);
    var starts := WeekStarts(m, n);
    forall k | 0 <= k < n
      ensures Weekday(starts[k]) == 0
    {
      var back := n - 1 - k;
      DivModUnique(starts[k] + 6, 7, (m + 6) / 7 - back, 0);
    }
  }

  datatype PointsEvent = PointsEvent(createdAt: Option<Instant>, points: int)
  datatype DoneEvent = DoneEvent(doneAt: Option<Instant>)
  datatype ScoreEvent = ScoreEvent(createdAt: Option<Instant>, score: int)

  /** An event with a timestamp falls in the week starting `ws`. */
  predicate InWeek(at: Option<Instant>, z: Zone, ws: Day) {
    at.Some? && WeekStart(LocalDate(at.value, z)) == ws
  }

  /** The points of the week starting `ws`. */
  function PointsIn(rows: seq<PointsEvent>, z: Zone, ws: Day): int {
    if rows == [] then 0
    else
      var e := rows[|rows| - 1];
      PointsIn(rows[..|rows| - 1], z, ws) + if InWeek(e.createdAt, z, ws) then e.points else 0
  }

  /** The distinct local days with a completion in the week starting `ws`. */
  function DaysIn(rows: seq<DoneEvent>, z: Zone, ws: Day): set<Day> {
    if rows == [] then {}
    else
      var e := rows[|rows| - 1];
      DaysIn(rows[..|rows| - 1], z, ws) + if InWeek(e.doneAt, z, ws) then {LocalDate(e.doneAt.value, z)} else {}
  }

  /** The questionnaire scores of the week starting `ws`, in row order. */
  function ScoresIn(rows: seq<ScoreEvent>, z: Zone, ws: Day): seq<int> {
    if rows == [] then []
    else
      var e := rows[|rows| - 1];
      ScoresIn(rows[..|rows| - 1], z, ws) + if InWeek(e.createdAt, z, ws) then [e.score] else []
  }

  /** The completion days of a week are days of that week. */
  lemma {:induction false} DaysInWeek(rows: seq<DoneEvent>, z: Zone, ws: Day)
    ensures forall d :: d in DaysIn(rows, z, ws) ==> ws <= d < ws + 7
  {
    if rows != [] {
      DaysInWeek(rows[..|rows| - 1], z, ws);
    }
  }

  /** So `done_days` of a week is at most 7, however many rows there are. */
  lemma DoneDaysAtMostSeven(rows: seq<DoneEvent>, z: Zone, ws: Day)
    ensures |DaysIn(rows, z, ws)| <= 7
  {
    DaysInWeek(rows, z, ws);
    DaysBetween(DaysIn(rows, z, ws), ws - 1, ws + 6);
  }

  /** A row of `_weekly`, by the Monday that starts its week; its label is
      `WeekLabel(start)` and the average of `scores` is left to the caller. */
  datatype WeekRow = WeekRow(start: Day, points: int, doneDays: nat, scores: seq<int>)

  /** The row's label, `dd.mm–dd.mm` from Monday to Sunday. */
  function WeekLabel(ws: Day): string {
    DayMonth(ws) + "–" + DayMonth(ws + 6)
  }

  /** The rows of `_weekly` for the given week starts. */
  function WeekRows(starts: seq<Day>, pts: seq<PointsEvent>, done: seq<DoneEvent>, scores: seq<ScoreEvent>, z: Zone): (out: seq<WeekRow>)
    ensures |out| == |starts|
  {
    seq(|starts|, k requires 0 <= k < |starts| =>
      WeekRow(starts[k], PointsIn(pts, z, starts[k]), |DaysIn(done, z, starts[k])|, ScoresIn(scores, z, starts[k])))
  }

  /** A points event whose local week is not among the week starts changes no row. */
  lemma EventOutsideIgnored(starts: seq<Day>, pts: seq<PointsEvent>, e: PointsEvent, done: seq<DoneEvent>, scores: seq<ScoreEvent>, z: Zone)
    requires e.createdAt.Some? ==> WeekStart(LocalDate(e.createdAt.value, z)) !in starts
    ensures WeekRows(starts, pts + [e], done, scores, z) == WeekRows(starts, pts, done, scores, z)
  {
    var a := WeekRows(starts, pts + [e], done, scores, z);
    var b := WeekRows(starts, pts, done, scores, z);
    forall k | 0 <= k < |starts|
      ensures a[k] == b[k]
    {
      assert (pts + [e])[..|pts|] == pts;
      assert !InWeek(e.createdAt, z, starts[k]);
    }
  }

  /** An event older than the first week or newer than this week is outside every bucket. */
  lemma OutsideWindow(today: Day, n: nat, d: Day)
    requires n >= 1
    requires d < WeekStart(today) - 7 * (n - 1) || d >= WeekStart(today) + 7
    ensures WeekStart(d) !in WeekStarts(WeekStart(today), n)
  {
    var starts := WeekStarts(WeekStart(today), n);
    forall k | 0 <= k < n
      ensures WeekStart(d) != starts[k]
    {
      if d >= WeekStart(today) + 7 {
        assert WeekStart(d) > d - 7;
      }
    }
  }

  // ---------------------------------------------------------- the profile

  /** `user.get("display_name") or "Без имени"` */
  function DisplayName(rows: seq<Users.UserRow>, u: int): (name: string)
    ensures name != ""
  {
    match Users.Find(rows, u)
    case Some(i) => if rows[i].displayName.Some? && rows[i].displayName.value != "" then rows[i].displayName.value else "Без имени"
    case None => "Без имени"
  }

  /** `_resolve_tz(user)`: the stored zone, else the configured default, and UTC
      for a name the database does not know. */
  function ProfileZone(rows: seq<Users.UserRow>, u: int, tzDb: map<string, Zone>, defaultName: string): Zone {
    var stored := Users.GetTimezone(rows, u);
    ZoneOrUtc(if stored.Some? && stored.value != "" then stored.value else defaultName, tzDb)
  }

  /** The counters `profile` reads from the points, progress, user-progress and
      achievements tables. */
  datatype Counters = Counters(
    points: int, doneDays: int, lessonsSent: Value, questsSent: Value, lessonsViewed: int, questsAnswered: int,
    habitDone: Value, habitSkipped: Value, questionnaireCount: int, achievementsTotal: int)

  datatype Profile = Profile(
    displayName: string, enrolled: bool, deliveryTime: Option<string>,
    points: int, doneDays: int, streak: nat,
    lessonsSent: int, lessonsViewed: int, lessonsPct: real,
    questsSent: int, questsAnswered: int, questsPct: real,
    habitDone: int, habitSkipped: int, questionnaireCount: int,
    weekly: seq<WeekRow>, achievementsTotal: int)

  class AnalyticsService {
    const users: Users.UsersRepo
    const enroll: Enrollment.EnrollmentRepo
    const tzDb: map<string, Zone>
    const defaultZoneName: string

    constructor(users: Users.UsersRepo, enroll: Enrollment.EnrollmentRepo, tzDb: map<string, Zone>, defaultZoneName: string)
      ensures this.users == users && this.enroll == enroll && this.tzDb == tzDb && this.defaultZoneName == defaultZoneName
    {
      this.users := users;
      this.enroll := enroll;
      this.tzDb := tzDb;
      this.defaultZoneName := defaultZoneName;
    }

    /** The points loop of `_weekly`: adds each event to its week's bucket. */
    static method AddPoints(buckets: map<Day, int>, rows: seq<PointsEvent>, z: Zone) returns (r: map<Day, int>)
      ensures r.Keys == buckets.Keys
      ensures forall ws :: ws in r ==> r[ws] == buckets[ws] + PointsIn(rows, z, ws)
    {
      r := buckets;
      for i := 0 to |rows|
        invariant r.Keys == buckets.Keys
        invariant forall ws :: ws in r ==> r[ws] == buckets[ws] + PointsIn(rows[..i], z, ws)
      {
        assert rows[..i + 1][..i] == rows[..i];
        var e := rows[i];
        if e.createdAt.Some? {
          var ws := WeekStart(LocalDate(e.createdAt.value, z));
          if ws in r {
            r := r[ws := r[ws] + e.points];
          }
        }
      }
      assert rows[..|rows|] == rows;
    }

    /** The completion loop of `_weekly`: adds each local day to its week's set. */
    static method AddDays(buckets: map<Day, set<Day>>, rows: seq<DoneEvent>, z: Zone) returns (r: map<Day, set<Day>>)
      ensures r.Keys == buckets.Keys
      ensures forall ws :: ws in r ==> r[ws] == buckets[ws] + DaysIn(rows, z, ws)
    {
      r := buckets;
      for i := 0 to |rows|
        invariant r.Keys == buckets.Keys
        invariant forall ws :: ws in r ==> r[ws] == buckets[ws] + DaysIn(rows[..i], z, ws)
      {
        assert rows[..i + 1][..i] == rows[..i];
        var e := rows[i];
        if e.doneAt.Some? {
          var d := LocalDate(e.doneAt.value, z);
          var ws := WeekStart(d);
          if ws in r {
            r := r[ws := r[ws] + {d}];
          }
        }
      }
      assert rows[..|rows|] == rows;
    }

    /** The questionnaire loop of `_weekly`: appends each score to its week's list. */
    static method AddScores(buckets: map<Day, seq<int>>, rows: seq<ScoreEvent>, z: Zone) returns (r: map<Day, seq<int>>)
      ensures r.Keys == buckets.Keys
      ensures forall ws :: ws in r ==> r[ws] == buckets[ws] + ScoresIn(rows, z, ws)
    {
      r := buckets;
      for i := 0 to |rows|
        invariant r.Keys == buckets.Keys
        invariant forall ws :: ws in r ==> r[ws] == buckets[ws] + ScoresIn(rows[..i], z, ws)
      {
        assert rows[..i + 1][..i] == rows[..i];
        var e := rows[i];
        if e.createdAt.Some? {
          var ws := WeekStart(LocalDate(e.createdAt.value, z));
          if ws in r {
            r := r[ws := r[ws] + [e.score]];
          }
        }
      }
      assert rows[..|rows|] == rows;
    }

    /** `_weekly`: one row per week, oldest first, ending with the current week. */
    static method Weekly(pts: seq<PointsEvent>, done: seq<DoneEvent>, scores: seq<ScoreEvent>, z: Zone, now: Instant, weeks: int)
      returns (out: seq<WeekRow>)
      ensures var n := WeekCount(weeks);
        out == WeekRows(WeekStarts(WeekStart(LocalDate(now, z)), n), pts, done, scores, z)
    {
      var n := WeekCount(weeks);
      var starts := WeekStarts(WeekStart(LocalDate(now, z)), n);
      out := Bucketed(starts, pts, done, scores, z);
    }

    /** The three bucket loops of `_weekly` and its output loop. */
    static method Bucketed(starts: seq<Day>, pts: seq<PointsEvent>, done: seq<DoneEvent>, scores: seq<ScoreEvent>, z: Zone)
      returns (out: seq<WeekRow>)
      ensures out == WeekRows(starts, pts, done, scores, z)
    {
      var zeros := map ws | ws in starts :: 0;
      var noDays := map ws | ws in starts :: {};
      var noScores := map ws | ws in starts :: [];
      var byPoints := AddPoints(zeros, pts, z);
      var byDays := AddDays(noDays, done, z);
      var byScores := AddScores(noScores, scores, z);
      out := CollectRows(starts, byPoints, byDays, byScores, pts, done, scores, z);
    }

    /** The output loop of `_weekly`: the buckets in week order. */
    static method CollectRows(starts: seq<Day>, byPoints: map<Day, int>, byDays: map<Day, set<Day>>, byScores: map<Day, seq<int>>,
                              pts: seq<PointsEvent>, done: seq<DoneEvent>, scores: seq<ScoreEvent>, z: Zone)
      returns (out: seq<WeekRow>)
      requires forall ws :: ws in starts ==> ws in byPoints && byPoints[ws] == PointsIn(pts, z, ws)
      requires forall ws :: ws in starts ==> ws in byDays && byDays[ws] == DaysIn(done, z, ws)
      requires forall ws :: ws in starts ==> ws in byScores && byScores[ws] == ScoresIn(scores, z, ws)
      ensures out == WeekRows(starts, pts, done, scores, z)
    {
      out := [];
      for k := 0 to |starts|
        invariant |out| == k
        invariant forall j :: 0 <= j < k ==> out[j] == WeekRows(starts, pts, done, scores, z)[j]
      {
        var ws := starts[k];
        assert ws in starts;
        out := out + [WeekRow(ws, byPoints[ws], |byDays[ws]|, byScores[ws])];
      }
    }

    /** `profile` without the recent achievements list. */
    method BuildProfile(u: int, c: Counters, doneRows: seq<Instant>, pts: seq<PointsEvent>, done: seq<DoneEvent>,
                   scores: seq<ScoreEvent>, now: Instant) returns (p: Profile)
      ensures var z := ProfileZone(users.rows, u, tzDb, defaultZoneName);
        var e := Enrollment.Get(enroll.rows, u);
        p.displayName == DisplayName(users.rows, u)
        && (p.enrolled <==> e.Some?)
        && p.deliveryTime == (if e.Some? then Some(e.value.deliveryTime) else None)
        && p.streak == StreakOf(DatesOf(doneRows, z), LocalDate(now, z))
        && p.points == c.points && p.doneDays == c.doneDays
        && p.lessonsSent == IntOr(c.lessonsSent, 0) && p.questsSent == IntOr(c.questsSent, 0)
        && p.lessonsViewed == c.lessonsViewed && p.questsAnswered == c.questsAnswered
        && p.habitDone == IntOr(c.habitDone, 0) && p.habitSkipped == IntOr(c.habitSkipped, 0)
        && p.questionnaireCount == c.questionnaireCount && p.achievementsTotal == c.achievementsTotal
        && p.lessonsPct == Pct(c.lessonsViewed, p.lessonsSent)
        && p.questsPct == Pct(c.questsAnswered, p.questsSent)
        && p.weekly == WeekRows(WeekStarts(WeekStart(LocalDate(now, z)), 4), pts, done, scores, z)
    {
      var z := ProfileZone(users.rows, u, tzDb, defaultZoneName);
      var e := Enrollment.Get(enroll.rows, u);
      var streak := Streak(doneRows, z, now);
      var lessonsSent := IntOr(c.lessonsSent, 0);
      var questsSent := IntOr(c.questsSent, 0);
      var weekly := Weekly(pts, done, scores, z, now, 4);
      p := Profile(
        DisplayName(users.rows, u), e.Some?, if e.Some? then Some(e.value.deliveryTime) else None,
        c.points, c.doneDays, streak,
        lessonsSent, c.lessonsViewed, Pct(c.lessonsViewed, lessonsSent),
        questsSent, c.questsAnswered, Pct(c.questsAnswered, questsSent),
        IntOr(c.habitDone, 0), IntOr(c.habitSkipped, 0), c.questionnaireCount,
        weekly, c.achievementsTotal);
    }
  }
}
