/** The daily mood log: one score from 1 to 5 per user and local day, and the
    chart of the last days, newest first, with 0 for a day without a score. */
module Mood {
  import opened Common
  import opened Clock
  import Users

  datatype MoodKey = MoodKey(userId: int, localDate: Day)

  datatype MoodEntry = MoodEntry(score: int, comment: string)

  /** One chart line: a day and its score, 0 when none was saved. */
  datatype ChartRow = ChartRow(localDate: Day, score: int)

  const MIN_SCORE: int := 1
  const MAX_SCORE: int := 5
  /** The chart's `days` when none is given, and its upper bound. */
  const DEFAULT_DAYS: int := 7
  const MAX_DAYS: int := 60

  /** `max(1, min(60, int(days or 7)))` */
  function ChartDays(days: int): (n: nat)
    ensures 1 <= n <= MAX_DAYS
    ensures days == 0 ==> n == DEFAULT_DAYS
    ensures 1 <= days <= MAX_DAYS ==> n == days
    ensures days > MAX_DAYS ==> n == MAX_DAYS
    ensures days < 0 ==> n == 1
  {
    Clamp(if days == 0 then DEFAULT_DAYS else days, 1, MAX_DAYS)
  }

  /** A user's saved scores by local day. */
  function ScoresOf(entries: map<MoodKey, MoodEntry>, u: int): (m: map<Day, int>)
    ensures forall d :: d in m <==> MoodKey(u, d) in entries
    ensures forall d :: d in m ==> m[d] == entries[MoodKey(u, d)].score
  {
    map k | k in entries && k.userId == u :: k.localDate := entries[k].score
  }

  /** The days of `ds` later than `d`. */
  function Newer(ds: set<Day>, d: Day): set<Day> {
    set x | x in ds && x > d
  }

  /** `list_recent(user, n)` as the chart reads it (a dict keyed by day): the
      `n` latest days of the user's log, that is the days with fewer than `n`
      later days. */
  function Recent(scores: map<Day, int>, n: nat): (m: map<Day, int>)
    ensures forall d :: d in m ==> d in scores && m[d] == scores[d]
  {
    map d | d in scores && |Newer(scores.Keys, d)| < n :: scores[d]
  }

  /** `int(by_date.get(d) or 0)` */
  function ScoreOn(byDate: map<Day, int>, d: Day): int {
    if d in byDate then byDate[d] else 0
  }

  /** The rows of `chart_rows`: the `n` days up to today, newest first. */
  function ChartOf(today: Day, n: nat, byDate: map<Day, int>): (rows: seq<ChartRow>)
    ensures |rows| == n
  {
    seq(n, i requires 0 <= i < n => ChartRow(today - i, ScoreOn(byDate, today - i)))
  }

  /** When no saved day lies after today, every day of the chart shows the
      score saved for it, and 0 when there is none. */
  lemma ChartShowsLog(scores: map<Day, int>, today: Day, n: nat, i: int)
    requires forall d :: d in scores ==> d <= today
    requires 0 <= i < n
    ensures ScoreOn(Recent(scores, n), today - i) == ScoreOn(scores, today - i)
  {
    var d := today - i;
    if d in scores {
      DaysBetween(Newer(scores.Keys, d), d, today);
      assert d in Recent(scores, n);
    }
  }

  /** Without that condition the chart can miss a saved score: a day saved
      after today takes one of the `n` places of `list_recent`. */
  lemma LaterDayHidesScore()
    ensures var scores := map[11 := 5, 10 := 4, 9 := 3];
      ScoreOn(Recent(scores, 2), 9) == 0 && ScoreOn(scores, 9) == 3
  {
    var scores := map[11 := 5, 10 := 4, 9 := 3];
    assert Newer(scores.Keys, 9) == {10, 11};
  }

  /** The mood entry of `set_today`, or None for a score outside 1..5. */
  function Scored(score: int, comment: string): (r: Option<MoodEntry>)
    ensures r.Some? <==> MIN_SCORE <= score <= MAX_SCORE
    ensures r.Some? ==> r.value.score == score && r.value.comment == Trim(comment)
  {
    if score < MIN_SCORE || score > MAX_SCORE then None else Some(MoodEntry(score, Trim(comment)))
  }

  /** A bar of `█` per point, or `-` for a day without a score. */
  function Bar(score: int): (r: string)
    ensures score > 0 ==> |r| == score && forall k :: 0 <= k < |r| ==> r[k] == '█'
    ensures score <= 0 ==> r == "-"
  {
    if score > 0 then Repeat('█', score) else "-"
  }

  /** The score in brackets, or `нет` (none). */
  function ScoreLabel(score: int): (r: string)
    ensures score > 0 ==> r == IntToString(score)
    ensures score <= 0 ==> r == "нет"
  {
    if score > 0 then IntToString(score) else "нет"
  }

  /** `• dd.mm: <bar> (<label>)` */
  function ChartLine(r: ChartRow): string {
    "• " + DayMonth(r.localDate) + ": " + Bar(r.score) + " (" + ScoreLabel(r.score) + ")"
  }

  /** The bar of a chart line shows the score: as many blocks as points. */
  lemma ChartLineBar(r: ChartRow)
    requires r.score > 0
    ensures var line := ChartLine(r);
      var start := |"• " + DayMonth(r.localDate) + ": "|;
      start + r.score <= |line| && line[start..start + r.score] == Repeat('█', r.score)
      && line[start + r.score..] == " (" + IntToString(r.score) + ")"
  {
    var head := "• " + DayMonth(r.localDate) + ": ";
    var line := ChartLine(r);
    assert line == head + Bar(r.score) + " (" + ScoreLabel(r.score) + ")";
    assert line[|head|..|head| + r.score] == Bar(r.score);
  }

  /** The header and one line per row; the average line is not part of the model. */
  function ChartLines(rows: seq<ChartRow>, n: nat): (lines: seq<string>)
    ensures |lines| == |rows| + 2
  {
    [Header(n), ""] + seq(|rows|, i requires 0 <= i < |rows| => ChartLine(rows[i]))
  }

  /** `😊 Настроение за <n> дн.` */
  function Header(n: nat): string {
    "\U{1F60A} Настроение за " + IntToString(n) + " дн."
  }

  // ------------------------------------------------------------ the objects

  /** The `mood_entries` table, keyed by user and local day. */
  class MoodRepo {
    var entries: map<MoodKey, MoodEntry>

    constructor()
      ensures entries == map[]
    {
      entries := map[];
    }

    /** `upsert_daily`: the day's score and comment, replacing an earlier one. */
    method UpsertDaily(u: int, d: Day, e: MoodEntry)
      modifies this
      ensures entries == old(entries)[MoodKey(u, d) := e]
    {
      entries := entries[MoodKey(u, d) := e];
    }

    method ListRecent(u: int, n: nat) returns (byDate: map<Day, int>)
      ensures byDate == Recent(ScoresOf(entries, u), n)
    {
      byDate := Recent(ScoresOf(entries, u), n);
    }
  }

  class MoodService {
    const repo: MoodRepo
    const users: Users.UsersRepo
    const tzDb: Users.TzDb
    const defaultZone: Zone

    constructor(repo: MoodRepo, users: Users.UsersRepo, tzDb: Users.TzDb, defaultZone: Zone)
      ensures this.repo == repo && this.users == users && this.tzDb == tzDb && this.defaultZone == defaultZone
    {
      this.repo := repo;
      this.users := users;
      this.tzDb := tzDb;
      this.defaultZone := defaultZone;
    }

    /** `_today_local_date`: today in the user's zone. */
    function Today(u: int, now: Instant): Day
      reads users
    {
      LocalDate(now, Users.UserZone(users.rows, u, tzDb, defaultZone))
    }

    /** `set_today`: saves a score from 1 to 5 for the user's local today. */
    method SetToday(u: int, score: int, comment: string, now: Instant) returns (saved: Option<MoodEntry>)
      modifies repo
      ensures saved == Scored(score, comment)
      ensures saved.None? ==> repo.entries == old(repo.entries)
      ensures saved.Some? ==> repo.entries == old(repo.entries)[MoodKey(u, old(Today(u, now))) := saved.value]
    {
      saved := Scored(score, comment);
      if saved.Some? {
        var d := Today(u, now);
        repo.UpsertDaily(u, d, saved.value);
      }
    }

    /** `chart_rows`: the last `days` local days, newest first. */
    method ChartRows(u: int, days: int, now: Instant) returns (rows: seq<ChartRow>)
      ensures rows == ChartOf(Today(u, now), ChartDays(days), Recent(ScoresOf(repo.entries, u), ChartDays(days)))
    {
      var n := ChartDays(days);
      var byDate := repo.ListRecent(u, n);
      var today := Today(u, now);
      rows := BuildRows(today, n, byDate);
    }

    /** The loop of `chart_rows`. */
    static method BuildRows(today: Day, n: nat, byDate: map<Day, int>) returns (rows: seq<ChartRow>)
      ensures rows == ChartOf(today, n, byDate)
    {
      rows := [];
      for i := 0 to n
        invariant |rows| == i
        invariant forall k :: 0 <= k < i ==> rows[k] == ChartRow(today - k, ScoreOn(byDate, today - k))
      {
        var d := today - i;
        rows := rows + [ChartRow(d, ScoreOn(byDate, d))];
      }
    }

    /** `chart_text` without the average line: the header and one line per
        day; the chart is never empty, so the "no entries" text is not reached. */
    method ChartText(u: int, days: int, now: Instant) returns (text: string)
      ensures var n := ChartDays(days);
        text == Join(ChartLines(ChartOf(Today(u, now), n, Recent(ScoresOf(repo.entries, u), n)), n), '\n')
    {
      var n := ChartDays(days);
      var rows := ChartRows(u, n, now);
      assert ChartDays(n) == n;
      if rows == [] {
        assert false;
        text := "";
        return;
      }
      text := Join(ChartLines(rows, n), '\n');
    }
  }
}
