/** Achievements: a fixed list of threshold rules over a user's statistics,
    and `evaluate`, which grants each rule that holds at most once per user. */
module Achievements {
  import opened Common
  import opened Clock
  import opened Streaks

  /** The statistics `snapshot` collects. */
  datatype Stats = Stats(
    points: int,
    doneDays: int,
    streak: nat,
    habitDone: int,
    habitSkipped: int,
    questionnaireCount: int)

  /** The statistic a rule looks at. */
  datatype Metric = PointsTotal | DaysDone | StreakDays | HabitsDone | Questionnaires

  /** A rule of `RULES`: its check is `int(s.get(metric) or 0) >= threshold`. */
  datatype Rule = Rule(code: string, icon: string, title: string, description: string, metric: Metric, threshold: int)

  /** A row of `user_achievements`; `payload` is the snapshot it was granted on. */
  datatype Granted = Granted(userId: int, code: string, title: string, description: string, icon: string, payload: Stats)

  function MetricOf(s: Stats, m: Metric): int {
    match m
    case PointsTotal => s.points
    case DaysDone => s.doneDays
    case StreakDays => s.streak
    case HabitsDone => s.habitDone
    case Questionnaires => s.questionnaireCount
  }

  /** The rule's check. The statistics are integers, so it cannot raise. */
  predicate Holds(r: Rule, s: Stats) {
    MetricOf(s, r.metric) >= r.threshold
  }

  const RULES: seq<Rule> := [
    Rule("first_points", "\U{1F31F}", "Первый шаг", "Ты получил первые баллы в курсе.", PointsTotal, 1),
    Rule("day_1_done", "\U{2705}", "Первый день закрыт", "Ты завершил первый день курса.", DaysDone, 1),
    Rule("streak_3", "\U{1F525}", "Серия 3 дня", "Три дня подряд с завершением заданий.", StreakDays, 3),
    Rule("streak_7", "\U{1F3C5}", "Серия 7 дней", "Неделя стабильной работы с курсом.", StreakDays, 7),
    Rule("habit_3_done", "\U{1F4AA}", "Ритм привычек", "Отмечено минимум 3 выполнения привычек.", HabitsDone, 3),
    Rule("questionnaire_3", "\U{1F9E0}", "Рефлексия", "Заполнено минимум 3 анкеты.", Questionnaires, 3),
    Rule("points_50", "\U{1F3C6}", "50 баллов", "Ты набрал 50 баллов и выше.", PointsTotal, 50)
  ]

  /** No two rules share a code. */
  predicate DistinctCodes(rules: seq<Rule>) {
    forall i, j :: 0 <= i < j < |rules| ==> rules[i].code != rules[j].code
  }

  lemma RulesDistinct()
    ensures DistinctCodes(RULES)
  {
  }

  /** The user already holds the achievement `code`. */
  predicate HasCode(rows: seq<Granted>, u: int, code: string) {
    exists g :: g in rows && g.userId == u && g.code == code
  }

  /** At most one row per (user, code), the table's unique key. */
  predicate UniqueGrants(rows: seq<Granted>) {
    forall i, j :: 0 <= i < j < |rows| ==> rows[i].userId != rows[j].userId || rows[i].code != rows[j].code
  }

  function RowOf(u: int, r: Rule, s: Stats): Granted {
    Granted(u, r.code, r.title, r.description, r.icon, s)
  }

  /** The rows `evaluate` adds, in rule order, for the rules `rules`: each
      rule that holds and whose code the user does not hold yet. */
  function Fresh(rows: seq<Granted>, u: int, s: Stats, rules: seq<Rule>): seq<Granted>
    decreases |rules|
  {
    if rules == [] then []
    else
      var r := rules[|rules| - 1];
      var before := Fresh(rows, u, s, rules[..|rules| - 1]);
      if Holds(r, s) && !HasCode(rows + before, u, r.code) then before + [RowOf(u, r, s)] else before
  }

  /** Every new row belongs to the user, comes from a rule that holds, and
      carries a code the user did not hold before. */
  lemma {:induction false} FreshSound(rows: seq<Granted>, u: int, s: Stats, rules: seq<Rule>)
    ensures forall g :: g in Fresh(rows, u, s, rules) ==>
      g.userId == u && !HasCode(rows, u, g.code) && exists r :: r in rules && Holds(r, s) && g == RowOf(u, r, s)
    decreases |rules|
  {
    if rules != [] {
      var init := rules[..|rules| - 1];
      FreshSound(rows, u, s, init);
      forall g | g in Fresh(rows, u, s, rules)
        ensures g.userId == u && !HasCode(rows, u, g.code)
        ensures exists r :: r in rules && Holds(r, s) && g == RowOf(u, r, s)
      {
        if g in Fresh(rows, u, s, init) {
          var r :| r in init && Holds(r, s) && g == RowOf(u, r, s);
          assert r in rules;
        } else {
          var last := rules[|rules| - 1];
          assert g == RowOf(u, last, s);
          HasCodeGrows(rows, Fresh(rows, u, s, init), u, g.code);
        }
      }
    }
  }

  lemma HasCodeGrows(rows: seq<Granted>, extra: seq<Granted>, u: int, code: string)
    ensures HasCode(rows, u, code) ==> HasCode(rows + extra, u, code)
  {
    if HasCode(rows, u, code) {
      var h :| h in rows && h.userId == u && h.code == code;
      assert h in rows + extra;
    }
  }

  /** After `evaluate`, the user holds the code of every rule that holds. */
  lemma {:induction false} FreshCovers(rows: seq<Granted>, u: int, s: Stats, rules: seq<Rule>)
    ensures forall r :: r in rules && Holds(r, s) ==> HasCode(rows + Fresh(rows, u, s, rules), u, r.code)
    decreases |rules|
  {
    if rules != [] {
      var init := rules[..|rules| - 1];
      var last := rules[|rules| - 1];
      var before := Fresh(rows, u, s, init);
      var after := Fresh(rows, u, s, rules);
      FreshCovers(rows, u, s, init);
      forall r | r in rules && Holds(r, s)
        ensures HasCode(rows + after, u, r.code)
      {
        if r in init {
          var h :| h in rows + before && h.userId == u && h.code == r.code;
          assert h in rows + after;
        } else {
          assert r == last;
          if !HasCode(rows + before, u, r.code) {
            assert RowOf(u, r, s) in rows + after;
          } else {
            var h :| h in rows + before && h.userId == u && h.code == r.code;
            assert h in rows + after;
          }
        }
      }
    }
  }

  /** A rule whose code the user already holds adds nothing. */
  lemma {:induction false} FreshNone(rows: seq<Granted>, u: int, s: Stats, rules: seq<Rule>)
    requires forall r :: r in rules && Holds(r, s) ==> HasCode(rows, u, r.code)
    ensures Fresh(rows, u, s, rules) == []
    decreases |rules|
  {
    if rules != [] {
      var init := rules[..|rules| - 1];
      assert forall r :: r in init ==> r in rules;
      FreshNone(rows, u, s, init);
      assert rows + [] == rows;
    }
  }

  /** An immediate second `evaluate` on the same statistics grants nothing. */
  lemma EvaluateTwice(rows: seq<Granted>, u: int, s: Stats)
    ensures var first := Fresh(rows, u, s, RULES);
      Fresh(rows + first, u, s, RULES) == []
  {
    FreshCovers(rows, u, s, RULES);
    FreshNone(rows + Fresh(rows, u, s, RULES), u, s, RULES);
  }

  /** New rows keep the one-row-per-code key of the table. */
  lemma {:induction false} FreshKeepsUnique(rows: seq<Granted>, u: int, s: Stats, rules: seq<Rule>)
    requires UniqueGrants(rows)
    ensures UniqueGrants(rows + Fresh(rows, u, s, rules))
    decreases |rules|
  {
    if rules != [] {
      var init := rules[..|rules| - 1];
      var last := rules[|rules| - 1];
      var before := Fresh(rows, u, s, init);
      FreshKeepsUnique(rows, u, s, init);
      if Holds(last, s) && !HasCode(rows + before, u, last.code) {
        var all := rows + before + [RowOf(u, last, s)];
        assert rows + Fresh(rows, u, s, rules) == all;
        forall i, j | 0 <= i < j < |all|
          ensures all[i].userId != all[j].userId || all[i].code != all[j].code
        {
          if j == |all| - 1 {
            assert all[i] in rows + before;
          } else {
            assert all[i] == (rows + before)[i] && all[j] == (rows + before)[j];
          }
        }
      }
    }
  }

  lemma SampleHolds()
    ensures forall k :: 0 <= k < |RULES| ==> (Holds(RULES[k], Stats(55, 4, 3, 3, 1, 3)) <==> k != 3)
  {
  }

  /** For a user without achievements and rules with distinct codes, the
      user ends up holding exactly the codes of the rules that hold. */
  lemma FreshFromNothing(u: int, s: Stats, rules: seq<Rule>, k: int)
    requires DistinctCodes(rules) && 0 <= k < |rules|
    ensures HasCode(Fresh([], u, s, rules), u, rules[k].code) <==> Holds(rules[k], s)
  {
    var added := Fresh([], u, s, rules);
    FreshSound([], u, s, rules);
    FreshCovers([], u, s, rules);
    assert [] + added == added;
    if !Holds(rules[k], s) {
      forall g | g in added
        ensures g.code != rules[k].code
      {
        var r :| r in rules && Holds(r, s) && g == RowOf(u, r, s);
        var m :| 0 <= m < |rules| && rules[m] == r;
      }
    }
  }

  /** The statistics of the test suite (55 points, 4 days, a streak of 3, 3
      habits done, 3 questionnaires) earn every achievement except `streak_7`,
      the fourth rule. */
  lemma SampleGrants(u: int)
    ensures var added := Fresh([], u, Stats(55, 4, 3, 3, 1, 3), RULES);
      forall k :: 0 <= k < |RULES| ==> (HasCode(added, u, RULES[k].code) <==> k != 3)
  {
    SampleHolds();
    RulesDistinct();
    forall k | 0 <= k < |RULES|
      ensures HasCode(Fresh([], u, Stats(55, 4, 3, 3, 1, 3), RULES), u, RULES[k].code) <==> k != 3
    {
      FreshFromNothing(u, Stats(55, 4, 3, 3, 1, 3), RULES, k);
    }
  }

  /** `_resolve_tz`: the stripped user zone, else the configured default, and
      UTC when the name is unknown. */
  function ResolveZone(userZone: Option<string>, tzDb: map<string, Zone>, defaultName: string): (z: Zone)
    ensures var name := if userZone.Some? && Trim(userZone.value) != "" then Trim(userZone.value) else defaultName;
      z == if name in tzDb then tzDb[name] else UTC
  {
    var name := if userZone.Some? && Trim(userZone.value) != "" then Trim(userZone.value) else defaultName;
    ZoneOrUtc(name, tzDb)
  }

  // ------------------------------------------------------------ the objects

  /** The `user_achievements` table. */
  class AchievementsRepo {
    var rows: seq<Granted>

    constructor()
      ensures rows == []
    {
      rows := [];
    }

    /** `grant`: inserts the row unless the user holds the code, and returns
        it only when it was inserted (`ON CONFLICT DO NOTHING RETURNING`). */
    method Grant(u: int, r: Rule, payload: Stats) returns (row: Option<Granted>)
      modifies this
      ensures HasCode(old(rows), u, r.code) ==> row.None? && rows == old(rows)
      ensures !HasCode(old(rows), u, r.code) ==> row == Some(RowOf(u, r, payload)) && rows == old(rows) + [row.value]
    {
      var i := 0;
      while i < |rows|
        invariant 0 <= i <= |rows|
        invariant forall k :: 0 <= k < i ==> rows[k].userId != u || rows[k].code != r.code
      {
        if rows[i].userId == u && rows[i].code == r.code {
          assert rows[i] in rows;
          return None;
        }
        i := i + 1;
      }
      row := Some(RowOf(u, r, payload));
      rows := rows + [row.value];
    }
  }

  class AchievementService {
    const repo: AchievementsRepo
    const tzDb: map<string, Zone>
    const defaultZoneName: string

    constructor(repo: AchievementsRepo, tzDb: map<string, Zone>, defaultZoneName: string)
      ensures this.repo == repo && this.tzDb == tzDb && this.defaultZoneName == defaultZoneName
    {
      this.repo := repo;
      this.tzDb := tzDb;
      this.defaultZoneName := defaultZoneName;
    }

    /** `snapshot`: the counters come from the points, progress and
        user-progress tables; the streak is computed from the completion times. */
    method Snapshot(userZone: Option<string>, points: int, doneDays: int, habitDone: int, habitSkipped: int,
                    questionnaireCount: int, doneRows: seq<Instant>, now: Instant) returns (s: Stats)
      ensures var z := ResolveZone(userZone, tzDb, defaultZoneName);
        s == Stats(points, doneDays, StreakOf(DatesOf(doneRows, z), LocalDate(now, z)), habitDone, habitSkipped, questionnaireCount)
    {
      var z := ResolveZone(userZone, tzDb, defaultZoneName);
      var streak := Streak(doneRows, z, now);
      s := Stats(points, doneDays, streak, habitDone, habitSkipped, questionnaireCount);
    }

    /** `evaluate` on a snapshot: grants every rule that holds, in rule
        order, and returns the rows that were new. */
    method Evaluate(u: int, s: Stats) returns (newItems: seq<Granted>)
      modifies repo
      ensures newItems == Fresh(old(repo.rows), u, s, RULES)
      ensures repo.rows == old(repo.rows) + newItems
    {
      newItems := [];
      for i := 0 to |RULES|
        invariant newItems == Fresh(old(repo.rows), u, s, RULES[..i])
        invariant repo.rows == old(repo.rows) + newItems
      {
        var rule := RULES[i];
        assert RULES[..i + 1][..i] == RULES[..i];
        if Holds(rule, s) {
          var row := repo.Grant(u, rule, s);
          if row.Some? {
            newItems := newItems + [row.value];
          }
        }
      }
      assert RULES[..|RULES|] == RULES;
    }
  }
}
