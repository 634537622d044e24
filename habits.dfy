/** Habit occurrences (`habit_occurrences`): one row per planned reminder time of
    a habit, UNIQUE on (habit, scheduled instant). Its status moves
    planned -> sent -> done | skipped, and planned or sent rows may be cancelled;
    done, skipped and cancelled are final. */
module HabitOccurrences {
  import opened Common
  import opened Clock

  datatype OccStatus = Planned | OccSent | OccDone | Skipped | OccCancelled

  datatype Occurrence = Occurrence(id: int, habitId: int, userId: int, scheduledAt: Instant,
                                   status: OccStatus, actionAt: Option<Instant>)

  predicate Final(s: OccStatus) { s == OccDone || s == Skipped || s == OccCancelled }

  /** Still open for an answer: planned or sent. */
  predicate Open(s: OccStatus) { s == Planned || s == OccSent }

  /** Occurrence ids are the SERIAL sequence 1, 2, 3, ... */
  predicate IdsAreIndexes(rows: seq<Occurrence>) {
    forall i :: 0 <= i < |rows| ==> rows[i].id == i + 1
  }

  /** Rows `i` and `j` are for one habit at one instant. */
  predicate SameSlot(rows: seq<Occurrence>, i: int, j: int)
    requires 0 <= i < |rows| && 0 <= j < |rows|
  {
    rows[i].habitId == rows[j].habitId && rows[i].scheduledAt == rows[j].scheduledAt
  }

  /** UNIQUE(habit_id, scheduled_at) */
  predicate UniqueSlots(rows: seq<Occurrence>) {
    forall i, j :: 0 <= i < j < |rows| ==> !SameSlot(rows, i, j)
  }

  predicate AtSlot(o: Occurrence, habitId: int, at: Instant) { o.habitId == habitId && o.scheduledAt == at }

  /** The first row of this habit at this instant. */
  function FindSlot(rows: seq<Occurrence>, habitId: int, at: Instant): (r: Option<nat>)
    ensures r.Some? ==> r.value < |rows| && AtSlot(rows[r.value], habitId, at)
    ensures r.Some? ==> forall i :: 0 <= i < r.value ==> !AtSlot(rows[i], habitId, at)
    ensures r.None? <==> forall i :: 0 <= i < |rows| ==> !AtSlot(rows[i], habitId, at)
  {
    if rows == [] then None
    else
      var r0 := FindSlot(rows[..|rows| - 1], habitId, at);
      if r0.Some? then r0
      else if AtSlot(rows[|rows| - 1], habitId, at) then Some(|rows| - 1) else None
  }

  /** `ensure_planned`: the existing row of the slot, untouched, or a new planned
      row; the second component is the id `RETURNING id` yields. */
  function Ensured(rows: seq<Occurrence>, habitId: int, userId: int, at: Instant): (seq<Occurrence>, int) {
    match FindSlot(rows, habitId, at)
    case Some(i) => (rows, rows[i].id)
    case None => (rows + [Occurrence(|rows| + 1, habitId, userId, at, Planned, None)], |rows| + 1)
  }

  /** After `ensure_planned` the slot has exactly one row, the returned id names
      it, and an existing row keeps its status; a new row is planned. */
  lemma EnsuredFacts(rows: seq<Occurrence>, habitId: int, userId: int, at: Instant)
    requires IdsAreIndexes(rows) && UniqueSlots(rows)
    ensures var (r, id) := Ensured(rows, habitId, userId, at);
      IdsAreIndexes(r) && UniqueSlots(r) && 1 <= id <= |r| && AtSlot(r[id - 1], habitId, at)
      && r[..|rows|] == rows && |r| <= |rows| + 1
      && (FindSlot(rows, habitId, at).Some? ==> r == rows)
      && (FindSlot(rows, habitId, at).None? ==> r[id - 1].status == Planned && r[id - 1].userId == userId)
  {
    var (r, id) := Ensured(rows, habitId, userId, at);
    if FindSlot(rows, habitId, at).None? {
      assert r[..|rows|] == rows;
      forall i, j | 0 <= i < j < |r|
        ensures !SameSlot(r, i, j)
      {
        if j < |rows| {
          assert !SameSlot(rows, i, j);
        } else {
          assert !AtSlot(rows[i], habitId, at);
        }
      }
    }
  }

  /** Changing statuses keeps ids and slots, so both invariants survive. */
  lemma SlotsKept(rows: seq<Occurrence>, r: seq<Occurrence>)
    requires IdsAreIndexes(rows) && UniqueSlots(rows) && |r| == |rows|
    requires forall i :: 0 <= i < |rows| ==>
      r[i].id == rows[i].id && r[i].habitId == rows[i].habitId && r[i].scheduledAt == rows[i].scheduledAt
    ensures IdsAreIndexes(r) && UniqueSlots(r)
  {
    forall i, j | 0 <= i < j < |r|
      ensures !SameSlot(r, i, j)
    {
      assert !SameSlot(rows, i, j);
    }
  }

  /** A second `ensure_planned` of the same slot changes nothing and returns the same id. */
  lemma EnsurePlannedIdempotent(rows: seq<Occurrence>, habitId: int, userId: int, userId2: int, at: Instant)
    requires IdsAreIndexes(rows) && UniqueSlots(rows)
    ensures var (r, id) := Ensured(rows, habitId, userId, at);
      Ensured(r, habitId, userId2, at) == (r, id)
  {
    var (r, id) := Ensured(rows, habitId, userId, at);
    EnsuredFacts(rows, habitId, userId, at);
    var k := FindSlot(r, habitId, at);
    assert k.Some? && k.value == id - 1;
  }

  /** `mark_sent`: only a planned row becomes sent. */
  function SentIn(rows: seq<Occurrence>, id: int): (r: seq<Occurrence>)
    ensures |r| == |rows|
    ensures forall i :: 0 <= i < |rows| ==>
      r[i] == if rows[i].id == id && rows[i].status == Planned then rows[i].(status := OccSent) else rows[i]
  {
    seq(|rows|, i requires 0 <= i < |rows| =>
      if rows[i].id == id && rows[i].status == Planned then rows[i].(status := OccSent) else rows[i])
  }

  predicate Answerable(o: Occurrence, id: int, userId: int) {
    o.id == id && o.userId == userId && Open(o.status)
  }

  /** `mark_done` / `mark_skipped`: the user's own open row takes the answer and
      the action time. */
  function AnsweredIn(rows: seq<Occurrence>, id: int, userId: int, to: OccStatus, now: Instant): (r: seq<Occurrence>)
    ensures |r| == |rows|
    ensures forall i :: 0 <= i < |rows| ==>
      r[i] == if Answerable(rows[i], id, userId) then rows[i].(status := to, actionAt := Some(now)) else rows[i]
  {
    seq(|rows|, i requires 0 <= i < |rows| =>
      if Answerable(rows[i], id, userId) then rows[i].(status := to, actionAt := Some(now)) else rows[i])
  }

  predicate CancelledBy(o: Occurrence, habitId: int, from: Instant) {
    o.habitId == habitId && Open(o.status) && o.scheduledAt >= from
  }

  /** `cancel_future_for_habit` */
  function CancelledIn(rows: seq<Occurrence>, habitId: int, from: Instant): (r: seq<Occurrence>)
    ensures |r| == |rows|
    ensures forall i :: 0 <= i < |rows| ==>
      r[i] == if CancelledBy(rows[i], habitId, from) then rows[i].(status := OccCancelled) else rows[i]
  {
    seq(|rows|, i requires 0 <= i < |rows| =>
      if CancelledBy(rows[i], habitId, from) then rows[i].(status := OccCancelled) else rows[i])
  }

  /** After `cancel_future_for_habit` none of the habit's rows is open from `from` on. */
  lemma CancelLeavesNoneOpen(rows: seq<Occurrence>, habitId: int, from: Instant)
    ensures forall i :: 0 <= i < |rows| ==> !CancelledBy(CancelledIn(rows, habitId, from)[i], habitId, from)
  {
  }

  function CountCancelled(rows: seq<Occurrence>, habitId: int, from: Instant): nat {
    if rows == [] then 0
    else CountCancelled(rows[..|rows| - 1], habitId, from) + if CancelledBy(rows[|rows| - 1], habitId, from) then 1 else 0
  }

  /** Done, skipped and cancelled rows are left as they are by every update. */
  lemma FinalIsFinal(rows: seq<Occurrence>, i: int, id: int, userId: int, to: OccStatus, now: Instant,
                     habitId: int, from: Instant)
    requires 0 <= i < |rows| && Final(rows[i].status)
    ensures SentIn(rows, id)[i] == rows[i]
    ensures AnsweredIn(rows, id, userId, to, now)[i] == rows[i]
    ensures CancelledIn(rows, habitId, from)[i] == rows[i]
    ensures Ensured(rows, habitId, userId, now).0[i] == rows[i]
  {
  }

  /** Answering succeeds at most once: afterwards the row is no longer answerable. */
  lemma AnswerOnce(rows: seq<Occurrence>, id: int, userId: int, to: OccStatus, now: Instant, later: Instant)
    requires IdsAreIndexes(rows) && Final(to)
    ensures var r := AnsweredIn(rows, id, userId, to, now);
      !(exists i :: 0 <= i < |r| && Answerable(r[i], id, userId))
      && AnsweredIn(r, id, userId, to, later) == r
  {
    var r := AnsweredIn(rows, id, userId, to, now);
    assert forall i :: 0 <= i < |r| ==> !Answerable(r[i], id, userId);
  }

  class OccurrencesRepo {
    var rows: seq<Occurrence>

    ghost predicate Valid()
      reads this
    {
      IdsAreIndexes(rows) && UniqueSlots(rows)
    }

    constructor ()
      ensures Valid() && rows == []
    {
      rows := [];
    }

    /** `ensure_planned` */
    method EnsurePlanned(habitId: int, userId: int, at: Instant) returns (id: int)
      requires Valid()
      modifies this
      ensures Valid()
      ensures (rows, id) == Ensured(old(rows), habitId, userId, at)
      ensures 1 <= id <= |rows| && AtSlot(rows[id - 1], habitId, at)
    {
      EnsuredFacts(rows, habitId, userId, at);
      var (r, i) := Ensured(rows, habitId, userId, at);
      rows, id := r, i;
    }

    /** `mark_sent`: the result is the row count. */
    method MarkSent(id: int) returns (count: nat)
      requires Valid()
      modifies this
      ensures Valid()
      ensures rows == SentIn(old(rows), id)
      ensures count == if 1 <= id <= |rows| && old(rows)[id - 1].status == Planned then 1 else 0
    {
      count := if 1 <= id <= |rows| && rows[id - 1].status == Planned then 1 else 0;
      SlotsKept(rows, SentIn(rows, id));
      rows := SentIn(rows, id);
    }

    /** `mark_done` (`to` = done) and `mark_skipped` (`to` = skipped): true iff the
        user's own planned or sent row was answered. */
    method Answer(id: int, userId: int, to: OccStatus, now: Instant) returns (ok: bool)
      requires Valid()
      modifies this
      ensures Valid()
      ensures rows == AnsweredIn(old(rows), id, userId, to, now)
      ensures ok <==> exists i :: 0 <= i < |old(rows)| && Answerable(old(rows)[i], id, userId)
    {
      ok := 1 <= id <= |rows| && Answerable(rows[id - 1], id, userId);
      SlotsKept(rows, AnsweredIn(rows, id, userId, to, now));
      rows := AnsweredIn(rows, id, userId, to, now);
    }

    /** `cancel_future_for_habit`: the result is the row count. */
    method CancelFutureForHabit(habitId: int, from: Instant) returns (count: nat)
      requires Valid()
      modifies this
      ensures Valid()
      ensures rows == CancelledIn(old(rows), habitId, from)
      ensures count == CountCancelled(old(rows), habitId, from)
    {
      count := CountCancelled(rows, habitId, from);
      SlotsKept(rows, CancelledIn(rows, habitId, from));
      rows := CancelledIn(rows, habitId, from);
    }
  }
}

/** Habits (`habits`) and the habit service: ownership-checked edits, and the
    done / skipped answers with their one-time bonus. */
module Habits {
  import opened Common
  import opened Clock
  import opened Sorting
  import opened Outbox
  import opened Points
  import opened HabitOccurrences

  datatype Habit = Habit(id: int, userId: int, title: string, remindTime: string, frequency: string, isActive: bool)

  const DEFAULT_TITLE: string := "Привычка"
  const FREQUENCIES: seq<string> := ["daily", "weekdays", "weekends"]

  predicate IsFrequency(f: string) {
    Listed(f, FREQUENCIES)
  }

  /** Membership in a list of names, kept recursive so that the solver only
      expands it where a proof asks. */
  predicate Listed(f: string, names: seq<string>) {
    names != [] && (names[0] == f || Listed(f, names[1..]))
  }

  lemma {:induction false} ListedIn(f: string, names: seq<string>)
    ensures Listed(f, names) <==> f in names
  {
    if names != [] {
      ListedIn(f, names[1..]);
      assert names == [names[0]] + names[1..];
    }
  }

  /** `(title or "").strip()[:200] or "Привычка"` */
  function NormalTitle(title: string): (t: string)
    ensures 1 <= |t| <= 200
    ensures Take(Trim(title), 200) != [] ==> t == Take(Trim(title), 200)
    ensures Trim(title) == [] ==> t == DEFAULT_TITLE
  {
    var s := Take(Trim(title), 200);
    if s == [] then DEFAULT_TITLE else s
  }

  /** `(frequency or "daily").strip()`, with anything outside the three names read as daily. */
  function NormalFrequency(f: string): (r: string)
    ensures r in FREQUENCIES
    ensures Trim(f) in FREQUENCIES ==> r == Trim(f)
    ensures Trim(f) !in FREQUENCIES ==> r == "daily"
  {
    var s := if f == [] then "daily" else Trim(f);
    if s in FREQUENCIES then s else "daily"
  }

  /** `bonus_points`: the setting, or 3 when it is unset or 0. */
  function BonusPoints(setting: int): (b: int)
    ensures setting != 0 ==> b == setting
    ensures setting == 0 ==> b == 3
  {
    if setting == 0 then 3 else setting
  }

  /** The points key of one occurrence, `occ:<id>`. */
  function OccKey(occurrenceId: int): string {
    "occ:" + IntToString(occurrenceId)
  }

  /** The table in id order; ids are SERIAL, so they increase along the rows. */
  predicate IdsIncreasing(rows: seq<Habit>) {
    forall i, j :: 0 <= i < j < |rows| ==> rows[i].id < rows[j].id
  }

  /** `get`: the row with this id. */
  function Find(rows: seq<Habit>, habitId: int): (r: Option<nat>)
    ensures r.Some? ==> r.value < |rows| && rows[r.value].id == habitId
    ensures r.None? <==> forall i :: 0 <= i < |rows| ==> rows[i].id != habitId
  {
    if rows == [] then None
    else if rows[|rows| - 1].id == habitId then Some(|rows| - 1)
    else Find(rows[..|rows| - 1], habitId)
  }

  /** `if not h or h.user_id != user_id: return False` */
  predicate Owned(rows: seq<Habit>, userId: int, habitId: int) {
    Find(rows, habitId).Some? && rows[Find(rows, habitId).value].userId == userId
  }

  function HabitOf(rows: seq<Habit>, habitId: int): Habit
    requires Find(rows, habitId).Some?
  {
    rows[Find(rows, habitId).value]
  }

  /** `UPDATE habits ... WHERE id=%s`: the row takes its new value in place. */
  function Replaced(rows: seq<Habit>, habitId: int, h: Habit): (r: seq<Habit>)
    ensures |r| == |rows|
  {
    match Find(rows, habitId)
    case Some(i) => rows[i := h]
    case None => rows
  }

  /** `DELETE FROM habits WHERE id=%s` */
  function Removed(rows: seq<Habit>, habitId: int): (r: seq<Habit>)
    ensures Find(rows, habitId).Some? ==> |r| == |rows| - 1
    ensures Find(rows, habitId).None? ==> r == rows
  {
    match Find(rows, habitId)
    case Some(i) => rows[..i] + rows[i + 1..]
    case None => rows
  }

  /** Position `k` of a sequence with its element `i` dropped. */
  lemma DroppedAt(rows: seq<Habit>, i: nat, k: nat)
    requires i < |rows| && k < |rows| - 1
    ensures (rows[..i] + rows[i + 1..])[k] == if k < i then rows[k] else rows[k + 1]
  {
  }

  lemma DropFacts(rows: seq<Habit>, i: nat)
    requires i < |rows| && IdsIncreasing(rows)
    ensures IdsIncreasing(rows[..i] + rows[i + 1..])
    ensures forall h :: h in rows[..i] + rows[i + 1..] <==> h in rows && h.id != rows[i].id
  {
    var r := rows[..i] + rows[i + 1..];
    forall a, b | 0 <= a < b < |r|
      ensures r[a].id < r[b].id
    {
      DroppedAt(rows, i, a);
      DroppedAt(rows, i, b);
    }
    forall h | h in r
      ensures h in rows && h.id != rows[i].id
    {
      var k :| 0 <= k < |r| && r[k] == h;
      DroppedAt(rows, i, k);
    }
    forall h | h in rows && h.id != rows[i].id
      ensures h in r
    {
      var k :| 0 <= k < |rows| && rows[k] == h;
      if k < i {
        DroppedAt(rows, i, k);
      } else {
        DroppedAt(rows, i, k - 1);
      }
    }
  }

  /** After a delete no row has the id, the ids still increase, and every other row is still there. */
  lemma RemovedFacts(rows: seq<Habit>, habitId: int)
    requires IdsIncreasing(rows)
    ensures IdsIncreasing(Removed(rows, habitId))
    ensures forall h :: h in Removed(rows, habitId) <==> h in rows && h.id != habitId
  {
    var f := Find(rows, habitId);
    if f.Some? {
      DropFacts(rows, f.value);
    }
  }

  function UserIdOf(h: Habit): int { h.userId }

  function ActiveRows(rows: seq<Habit>): (r: seq<Habit>)
    ensures forall h :: h in r <==> h in rows && h.isActive
  {
    if rows == [] then []
    else
      var last := rows[|rows| - 1];
      ActiveRows(rows[..|rows| - 1]) + if last.isActive then [last] else []
  }

  /** `list_active`: the active habits, ordered by user (and by id within a user,
      since the sort keeps the table's id order among equal users). */
  function ListActive(rows: seq<Habit>): (r: seq<Habit>)
    ensures forall h :: h in r <==> h in rows && h.isActive
    ensures SortedBy(r, UserIdOf)
  {
    var a := ActiveRows(rows);
    var r := SortBy(a, UserIdOf);
    assert forall h :: h in r <==> h in multiset(a);
    r
  }

  class HabitsRepo {
    var rows: seq<Habit>
    var nextId: int

    ghost predicate Valid()
      reads this
    {
      1 <= nextId && IdsIncreasing(rows) && forall i :: 0 <= i < |rows| ==> 1 <= rows[i].id < nextId
    }

    constructor ()
      ensures Valid() && rows == [] && nextId == 1
    {
      rows := [];
      nextId := 1;
    }

    /** `create`: a new active habit with a fresh id. */
    method Create(userId: int, title: string, remindTime: string, frequency: string) returns (id: int)
      requires Valid()
      modifies this
      ensures Valid()
      ensures id == old(nextId) && Find(old(rows), id).None?
      ensures rows == old(rows) + [Habit(id, userId, title, remindTime, frequency, true)]
    {
      id := nextId;
      var r := rows + [Habit(id, userId, title, remindTime, frequency, true)];
      assert forall k :: 0 <= k < |rows| ==> r[k] == rows[k];
      rows := r;
      nextId := nextId + 1;
    }

    /** `update_*` and `set_active` on a row known to exist. */
    method Replace(habitId: int, h: Habit)
      requires Valid() && Find(rows, habitId).Some? && h.id == habitId
      modifies this
      ensures Valid()
      ensures rows == Replaced(old(rows), habitId, h)
    {
      var i := Find(rows, habitId).value;
      var r := rows[i := h];
      assert forall k :: 0 <= k < |r| ==> r[k].id == rows[k].id;
      rows := r;
    }

    /** `delete` */
    method Delete(habitId: int)
      requires Valid()
      modifies this
      ensures Valid()
      ensures rows == Removed(old(rows), habitId)
    {
      RemovedFacts(rows, habitId);
      rows := Removed(rows, habitId);
    }
  }

  class HabitService {
    const habits: HabitsRepo
    const occ: OccurrencesRepo
    const points: PointsRepo
    const outbox: OutboxRepo
    const bonusSetting: int

    constructor (habits: HabitsRepo, occ: OccurrencesRepo, points: PointsRepo, outbox: OutboxRepo, bonusSetting: int)
      ensures this.habits == habits && this.occ == occ && this.points == points && this.outbox == outbox
      ensures this.bonusSetting == bonusSetting
    {
      this.habits := habits;
      this.occ := occ;
      this.points := points;
      this.outbox := outbox;
      this.bonusSetting := bonusSetting;
    }

    ghost predicate Valid()
      reads this, habits, occ, outbox
    {
      habits.Valid() && occ.Valid() && outbox.Valid()
    }

    /** `create`: the title and frequency are normalised first. */
    method Create(userId: int, title: string, remindTime: string, frequency: string) returns (id: int)
      requires Valid()
      modifies habits
      ensures Valid()
      ensures Find(old(habits.rows), id).None?
      ensures habits.rows == old(habits.rows) + [Habit(id, userId, NormalTitle(title), Trim(remindTime),
                                                       NormalFrequency(frequency), true)]
    {
      var t, rt, f := NormalTitle(title), Trim(remindTime), NormalFrequency(frequency);
      id := habits.Create(userId, t, rt, f);
    }

    /** `toggle`: flips `is_active` of an owned habit; false and no change otherwise. */
    method Toggle(userId: int, habitId: int) returns (ok: bool)
      requires Valid()
      modifies habits
      ensures Valid()
      ensures ok <==> Owned(old(habits.rows), userId, habitId)
      ensures ok ==> habits.rows == Replaced(old(habits.rows), habitId,
                       HabitOf(old(habits.rows), habitId).(isActive := !HabitOf(old(habits.rows), habitId).isActive))
      ensures !ok ==> habits.rows == old(habits.rows)
    {
      if !Owned(habits.rows, userId, habitId) {
        return false;
      }
      var h := HabitOf(habits.rows, habitId);
      habits.Replace(habitId, h.(isActive := !h.isActive));
      ok := true;
    }

    /** Cancels the habit's future occurrences and its pending reminder jobs. */
    method CancelFuture(habitId: int, now: Instant)
      requires Valid()
      modifies occ, outbox
      ensures Valid()
      ensures occ.rows == CancelledIn(old(occ.rows), habitId, now)
      ensures outbox.jobs == CancelIn(old(outbox.jobs), HabitJobs(habitId), now)
      ensures forall i :: 0 <= i < |occ.rows| ==> !CancelledBy(occ.rows[i], habitId, now)
    {
      CancelLeavesNoneOpen(occ.rows, habitId, now);
      var n1 := occ.CancelFutureForHabit(habitId, now);
      var n2 := outbox.CancelFuture(HabitJobs(habitId), now);
    }

    /** `delete`: an owned habit loses its future occurrences and jobs, then the row. */
    method Delete(userId: int, habitId: int, now: Instant) returns (ok: bool)
      requires Valid()
      modifies habits, occ, outbox
      ensures Valid()
      ensures ok <==> Owned(old(habits.rows), userId, habitId)
      ensures ok ==> habits.rows == Removed(old(habits.rows), habitId)
      ensures ok ==> occ.rows == CancelledIn(old(occ.rows), habitId, now)
      ensures ok ==> outbox.jobs == CancelIn(old(outbox.jobs), HabitJobs(habitId), now)
      ensures ok ==> forall i :: 0 <= i < |occ.rows| ==> !CancelledBy(occ.rows[i], habitId, now)
      ensures !ok ==> habits.rows == old(habits.rows) && occ.rows == old(occ.rows) && outbox.jobs == old(outbox.jobs)
    {
      if !Owned(habits.rows, userId, habitId) {
        return false;
      }
      CancelFuture(habitId, now);
      habits.Delete(habitId);
      ok := true;
    }

    /** `update_title`: a title that trims to nothing is refused. */
    method UpdateTitle(userId: int, habitId: int, title: string) returns (ok: bool)
      requires Valid()
      modifies habits
      ensures Valid()
      ensures ok <==> Owned(old(habits.rows), userId, habitId) && Take(Trim(title), 200) != []
      ensures ok ==> habits.rows == Replaced(old(habits.rows), habitId,
                       HabitOf(old(habits.rows), habitId).(title := Take(Trim(title), 200)))
      ensures !ok ==> habits.rows == old(habits.rows)
    {
      if !Owned(habits.rows, userId, habitId) {
        return false;
      }
      var t := Take(Trim(title), 200);
      if t == [] {
        return false;
      }
      habits.Replace(habitId, HabitOf(habits.rows, habitId).(title := t));
      ok := true;
    }

    /** A change of time or frequency: the planned future goes, then the row changes. */
    method Reschedule(habitId: int, h: Habit, now: Instant)
      requires Valid() && Find(habits.rows, habitId).Some? && h.id == habitId
      modifies habits, occ, outbox
      ensures Valid()
      ensures habits.rows == Replaced(old(habits.rows), habitId, h)
      ensures occ.rows == CancelledIn(old(occ.rows), habitId, now)
      ensures outbox.jobs == CancelIn(old(outbox.jobs), HabitJobs(habitId), now)
      ensures forall i :: 0 <= i < |occ.rows| ==> !CancelledBy(occ.rows[i], habitId, now)
    {
      CancelFuture(habitId, now);
      habits.Replace(habitId, h);
    }

    /** `update_time`: an empty time is refused before anything is cancelled. */
    method UpdateTime(userId: int, habitId: int, remindTime: string, now: Instant) returns (ok: bool)
      requires Valid()
      modifies habits, occ, outbox
      ensures Valid()
      ensures ok <==> Owned(old(habits.rows), userId, habitId) && Trim(remindTime) != []
      ensures ok ==> habits.rows == Replaced(old(habits.rows), habitId,
                       HabitOf(old(habits.rows), habitId).(remindTime := Trim(remindTime)))
      ensures ok ==> occ.rows == CancelledIn(old(occ.rows), habitId, now)
      ensures ok ==> outbox.jobs == CancelIn(old(outbox.jobs), HabitJobs(habitId), now)
      ensures ok ==> forall i :: 0 <= i < |occ.rows| ==> !CancelledBy(occ.rows[i], habitId, now)
      ensures !ok ==> habits.rows == old(habits.rows) && occ.rows == old(occ.rows) && outbox.jobs == old(outbox.jobs)
    {
      if !Owned(habits.rows, userId, habitId) {
        return false;
      }
      var t := Trim(remindTime);
      if t == [] {
        return false;
      }
      Reschedule(habitId, HabitOf(habits.rows, habitId).(remindTime := t), now);
      ok := true;
    }

    /** `update_frequency`: an unknown frequency is refused before anything is cancelled. */
    method UpdateFrequency(userId: int, habitId: int, frequency: string, now: Instant) returns (ok: bool)
      requires Valid()
      modifies habits, occ, outbox
      ensures Valid()
      ensures ok <==> Owned(old(habits.rows), userId, habitId) && IsFrequency(Trim(frequency))
      ensures ok ==> habits.rows == Replaced(old(habits.rows), habitId,
                       HabitOf(old(habits.rows), habitId).(frequency := Trim(frequency)))
      ensures ok ==> occ.rows == CancelledIn(old(occ.rows), habitId, now)
      ensures ok ==> outbox.jobs == CancelIn(old(outbox.jobs), HabitJobs(habitId), now)
      ensures ok ==> forall i :: 0 <= i < |occ.rows| ==> !CancelledBy(occ.rows[i], habitId, now)
      ensures !ok ==> habits.rows == old(habits.rows) && occ.rows == old(occ.rows) && outbox.jobs == old(outbox.jobs)
    {
      if !Owned(habits.rows, userId, habitId) {
        return false;
      }
      var f := Trim(frequency);
      if !IsFrequency(f) {
        return false;
      }
      Reschedule(habitId, HabitOf(habits.rows, habitId).(frequency := f), now);
      ok := true;
    }

    /** `mark_done`: answers the occurrence, then awards the bonus unless this
        occurrence already has its `habit_done` award. */
    method MarkDone(userId: int, occurrenceId: int, now: Instant) returns (ok: bool)
      requires Valid()
      modifies occ, points
      ensures Valid()
      ensures ok <==> exists i :: 0 <= i < |old(occ.rows)| && Answerable(old(occ.rows)[i], occurrenceId, userId)
      ensures occ.rows == AnsweredIn(old(occ.rows), occurrenceId, userId, OccDone, now)
      ensures points.rows == old(points.rows) + BonusRows(old(points.rows), ok, userId, occurrenceId, BonusPoints(bonusSetting))
    {
      ok := occ.Answer(occurrenceId, userId, OccDone, now);
      if !ok {
        return;
      }
      var key := Some(OccKey(occurrenceId));
      if !HasEntry(points.rows, userId, "habit_done", key) {
        points.AddPoints(userId, "habit_done", key, BonusPoints(bonusSetting));
      }
    }

    /** `mark_skipped` */
    method MarkSkipped(userId: int, occurrenceId: int, now: Instant) returns (ok: bool)
      requires Valid()
      modifies occ
      ensures Valid()
      ensures ok <==> exists i :: 0 <= i < |old(occ.rows)| && Answerable(old(occ.rows)[i], occurrenceId, userId)
      ensures occ.rows == AnsweredIn(old(occ.rows), occurrenceId, userId, Skipped, now)
    {
      ok := occ.Answer(occurrenceId, userId, Skipped, now);
    }
  }

  /** The award `mark_done` appends: one `habit_done`/`occ:<id>` row, only after a
      successful answer and only if the occurrence has none yet. */
  function BonusRows(rows: seq<PointsEntry>, ok: bool, userId: int, occurrenceId: int, pts: int): seq<PointsEntry> {
    if ok && !HasEntry(rows, userId, "habit_done", Some(OccKey(occurrenceId)))
    then [PointsEntry(userId, "habit_done", Some(OccKey(occurrenceId)), pts)] else []
  }

  /** However often `mark_done` runs, an occurrence holds at most one bonus award. */
  lemma BonusAtMostOnce(rows: seq<PointsEntry>, ok: bool, userId: int, occurrenceId: int, pts: int)
    requires CountEntries(rows, userId, "habit_done", Some(OccKey(occurrenceId))) <= 1
    ensures var r := rows + BonusRows(rows, ok, userId, occurrenceId, pts);
      CountEntries(r, userId, "habit_done", Some(OccKey(occurrenceId))) <= 1
      && (ok ==> HasEntry(r, userId, "habit_done", Some(OccKey(occurrenceId))))
  {
    var bonus := BonusRows(rows, ok, userId, occurrenceId, pts);
    if bonus != [] {
      AddedEntryCounts(rows, bonus[0], userId);
    } else {
      assert rows + bonus == rows;
    }
  }
}
