/** The streak of consecutive local days with a completed course day, as the
    achievement and the analytics services both compute it: 0 unless the most
    recent such day is today or yesterday, otherwise the number of days in the
    unbroken run that ends at that day. */
module Streaks {
  import opened Common
  import opened Clock

  /** Strictly newest first, as `sorted(set, reverse=True)` leaves the dates. */
  predicate Descending(s: seq<Day>) {
    forall i, j :: 0 <= i < j < |s| ==> s[i] > s[j]
  }

  /** The distinct local dates of the completion timestamps. */
  ghost function DatesOf(rows: seq<Instant>, z: Zone): set<Day> {
    set t | t in rows :: LocalDate(t, z)
  }

  /** The number of days `d, d - 1, d - 2, ...` that all lie in `s`. */
  ghost function RunBack(s: set<Day>, d: Day): nat
    decreases |s|
  {
    if d in s then 1 + RunBack(s - {d}, d - 1) else 0
  }

  /** The latest day of a non-empty set. */
  ghost function Latest(s: set<Day>): (m: Day)
    requires s != {}
    ensures m in s && forall y :: y in s ==> y <= m
  {
    LatestExists(s);
    var m :| m in s && forall y :: y in s ==> y <= m; m
  }

  lemma {:induction false} LatestExists(s: set<Day>)
    requires s != {}
    ensures exists m :: m in s && forall y :: y in s ==> y <= m
    decreases |s|
  {
    SomeMember(s);
    var x :| x in s;
    if s - {x} != {} {
      LatestExists(s - {x});
      var m :| m in s - {x} && forall y :: y in s - {x} ==> y <= m;
      var top := if x <= m then m else x;
      forall y | y in s
        ensures y <= top
      {
        if y != x {
          assert y in s - {x};
        }
      }
    } else {
      forall y | y in s
        ensures y <= x
      {
        assert y !in s - {x};
      }
    }
  }

  /** The streak of a set of completion dates, seen from `today`. */
  ghost function StreakOf(dates: set<Day>, today: Day): nat {
    if dates == {} then 0
    else
      var top := Latest(dates);
      if top != today && top != today - 1 then 0 else RunBack(dates, top)
  }

  /** The `n` days ending at `d` all lie in `s`. */
  ghost predicate RunIn(s: set<Day>, d: Day, n: nat) {
    forall x :: d - n < x <= d ==> x in s
  }

  /** A run of exactly `n` days, ending where the first missing day is, has
      RunBack `n`. */
  lemma {:induction false} RunBackExact(s: set<Day>, d: Day, n: nat)
    requires RunIn(s, d, n) && d - n !in s
    ensures RunBack(s, d) == n
    decreases n
  {
    if n > 0 {
      assert d in s;
      var rest := s - {d};
      assert RunIn(rest, d - 1, n - 1);
      RunBackExact(rest, d - 1, n - 1);
    }
  }

  /** What RunBack counts: the `n` days back from `d` are all in `s`, and the
      day before them is not. */
  lemma {:induction false} RunBackIsRun(s: set<Day>, d: Day)
    ensures RunIn(s, d, RunBack(s, d)) && d - RunBack(s, d) !in s
    decreases |s|
  {
    if d in s {
      RunBackIsRun(s - {d}, d - 1);
      var n := RunBack(s, d);
      forall x | d - n < x <= d
        ensures x in s
      {
        if x < d {
          assert x in s - {d};
        }
      }
    }
  }

  /** The streak never exceeds the number of distinct dates. */
  lemma {:induction false} RunBackBound(s: set<Day>, d: Day)
    ensures RunBack(s, d) <= |s|
    decreases |s|
  {
    if d in s {
      RunBackBound(s - {d}, d - 1);
    }
  }

  /** The streak is 0 exactly when there are no dates or the latest one is
      older than yesterday; otherwise it is a run ending at the latest date. */
  lemma StreakZero(dates: set<Day>, today: Day)
    ensures StreakOf(dates, today) == 0 <==>
      dates == {} || (Latest(dates) != today && Latest(dates) != today - 1)
    ensures StreakOf(dates, today) <= |dates|
  {
    if dates != {} {
      RunBackBound(dates, Latest(dates));
    }
  }

  /** A positive streak is the unbroken run of dates that ends at the latest
      date, which is today or yesterday; the day before the run is missing. */
  lemma StreakIsRun(dates: set<Day>, today: Day)
    requires StreakOf(dates, today) > 0
    ensures dates != {} && (Latest(dates) == today || Latest(dates) == today - 1)
    ensures RunIn(dates, Latest(dates), StreakOf(dates, today))
    ensures Latest(dates) - StreakOf(dates, today) !in dates
  {
    RunBackIsRun(dates, Latest(dates));
  }

  /** Completions today, yesterday and the day before make a streak of 3. */
  lemma ThreeDays(today: Day)
    ensures StreakOf({today, today - 1, today - 2}, today) == 3
  {
    var s := {today, today - 1, today - 2};
    assert Latest(s) == today;
    RunBackExact(s, today, 3);
  }

  /** Puts a date into a newest-first list of distinct dates, unless present. */
  function InsertDesc(x: Day, s: seq<Day>): (r: seq<Day>)
    requires Descending(s)
    ensures Descending(r)
    ensures forall y :: y in r <==> y == x || y in s
  {
    if s == [] || x > s[0] then [x] + s
    else if x == s[0] then s
    else
      var tail := InsertDesc(x, s[1..]);
      assert forall y :: y in s <==> y == s[0] || y in s[1..];
      assert forall k :: 0 <= k < |tail| ==> tail[k] < s[0] by {
        forall k | 0 <= k < |tail|
          ensures tail[k] < s[0]
        {
          assert tail[k] in tail;
        }
      }
      [s[0]] + tail
  }

  /** The day after a run of `n` consecutive dates at the head of a
      descending list is not in the list, when the list stops there or
      jumps by more than one day. */
  lemma GapAfterRun(s: seq<Day>, n: nat)
    requires Descending(s) && 1 <= n <= |s|
    requires forall k :: 0 <= k < n ==> s[k] == s[0] - k
    requires n == |s| || s[n] != s[0] - n
    ensures s[0] - n !in s
    ensures forall x :: s[0] - n < x <= s[0] ==> x in s
  {
    forall m | 0 <= m < |s|
      ensures s[m] != s[0] - n
    {
      if n < |s| && m >= n {
        assert s[n] < s[n - 1];
        assert s[m] <= s[n];
      }
    }
    forall x | s[0] - n < x <= s[0]
      ensures x in s
    {
      assert s[s[0] - x] == x;
    }
  }

  /** `_streak(done_rows, tz)` with `now` as the current instant. */
  method Streak(rows: seq<Instant>, z: Zone, now: Instant) returns (streak: nat)
    ensures streak == StreakOf(DatesOf(rows, z), LocalDate(now, z))
  {
    ghost var dates := DatesOf(rows, z);
    var unique: seq<Day> := [];
    for i := 0 to |rows|
      invariant Descending(unique)
      invariant forall y :: y in unique <==> exists k :: 0 <= k < i && y == LocalDate(rows[k], z)
    {
      unique := InsertDesc(LocalDate(rows[i], z), unique);
    }
    assert forall y :: y in unique <==> y in dates;
    // `not done_rows` and `not unique_dates` are the same test here.
    if |unique| == 0 {
      return 0;
    }
    assert unique[0] in dates;
    assert forall y :: y in unique ==> y <= unique[0] by {
      forall m | 0 <= m < |unique|
        ensures unique[m] <= unique[0]
      {
      }
    }
    assert Latest(dates) == unique[0];
    var today := LocalDate(now, z);
    if unique[0] != today && unique[0] != today - 1 {
      return 0;
    }
    streak := 1;
    var prev := unique[0];
    var i := 1;
    while i < |unique| && prev - unique[i] == 1
      invariant 1 <= i <= |unique| && streak == i && prev == unique[0] - (i - 1)
      invariant forall k :: 0 <= k < i ==> unique[k] == unique[0] - k
    {
      streak := streak + 1;
      prev := unique[i];
      i := i + 1;
    }
    GapAfterRun(unique, streak);
    RunBackExact(dates, unique[0], streak);
  }
}
