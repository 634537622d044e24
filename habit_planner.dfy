/** The habit planner (`HabitScheduleService`): for every active habit it plans
    an occurrence row and a `habit_reminder` job for each matching day from the
    user's local today up to the horizon. Occurrences are idempotent by
    (habit, instant), jobs by the `habit:<habit>:<occurrence>` key. */
module HabitPlanner {
  import opened Common
  import opened Clock
  import opened Outbox
  import opened ScheduleRules
  import opened HabitOccurrences
  import opened Habits
  import Users

  datatype HabitSettings = HabitSettings(defaultZone: Zone, tzDb: Users.TzDb, planDays: int)

  /** `plan_horizon_days`: the setting, or 2 when it is unset or 0. */
  function HorizonDays(cfg: HabitSettings): int {
    OrDefault(cfg.planDays, 2)
  }

  /** The number of days `range(horizon + 1)` visits. */
  function DayCount(horizon: int): (n: nat)
    ensures horizon >= 0 ==> n == horizon + 1
    ensures horizon < 0 ==> n == 0
  {
    if horizon >= 0 then horizon + 1 else 0
  }

  function DaysAhead(cfg: HabitSettings): nat {
    DayCount(HorizonDays(cfg))
  }

  // ------------------------------------------------------------ frequency

  /** `_matches_frequency`: weekdays are ISO days 1..5, weekends 6 and 7, and any
      other frequency matches every day. */
  function MatchesFrequency(d: Day, frequency: string): bool {
    var wd := IsoWeekday(d);
    if frequency == "weekdays" then 1 <= wd <= 5
    else if frequency == "weekends" then wd == 6 || wd == 7
    else true
  }

  /** Every day is either a weekday or a weekend day, never both. */
  lemma WeekdaysAndWeekendsPartition(d: Day)
    ensures MatchesFrequency(d, "weekdays") != MatchesFrequency(d, "weekends")
  {
  }

  function Bit(d: Day, f: string): nat {
    if MatchesFrequency(d, f) then 1 else 0
  }

  /** Days matching `f` among the `n` days from `d` on. */
  function CountMatching(d: Day, n: nat, f: string): nat {
    if n == 0 then 0 else CountMatching(d, n - 1, f) + Bit(d + n - 1, f)
  }

  lemma CountSeven(d: Day, f: string)
    ensures CountMatching(d, 7, f)
      == Bit(d, f) + Bit(d + 1, f) + Bit(d + 2, f) + Bit(d + 3, f) + Bit(d + 4, f) + Bit(d + 5, f) + Bit(d + 6, f)
  {
    assert CountMatching(d, 1, f) == Bit(d, f);
    assert CountMatching(d, 3, f) == CountMatching(d, 2, f) + Bit(d + 2, f);
    assert CountMatching(d, 5, f) == CountMatching(d, 4, f) + Bit(d + 4, f);
    assert CountMatching(d, 7, f) == CountMatching(d, 6, f) + Bit(d + 6, f);
  }

  /** The ISO weekday of the next day. */
  lemma IsoWeekdayNext(d: Day)
    ensures 1 <= IsoWeekday(d) <= 7
    ensures IsoWeekday(d + 1) == if IsoWeekday(d) == 7 then 1 else IsoWeekday(d) + 1
  {
  }

  /** Any seven consecutive days hold five weekdays, two weekend days, and seven
      daily days. */
  lemma WeekCounts(d: Day)
    ensures CountMatching(d, 7, "weekdays") == 5
    ensures CountMatching(d, 7, "weekends") == 2
    ensures CountMatching(d, 7, "daily") == 7
  {
    CountSeven(d, "weekdays");
    CountSeven(d, "weekends");
    CountSeven(d, "daily");
    IsoWeekdayNext(d);
    IsoWeekdayNext(d + 1);
    IsoWeekdayNext(d + 2);
    IsoWeekdayNext(d + 3);
    IsoWeekdayNext(d + 4);
    IsoWeekdayNext(d + 5);
  }

  /** `h.get("frequency") or "daily"` */
  function FrequencyOf(h: Habit): string {
    if h.frequency == [] then "daily" else h.frequency
  }

  // ------------------------------------------------------------ sequences

  /** `g(x)` for every `x` of `xs`, concatenated in order. */
  function FlatMap<A, B>(xs: seq<A>, g: A -> seq<B>): seq<B>
    decreases |xs|
  {
    if xs == [] then [] else FlatMap(xs[..|xs| - 1], g) + g(xs[|xs| - 1])
  }

  lemma FlatMapStep<A, B>(xs: seq<A>, i: nat, g: A -> seq<B>)
    requires i < |xs|
    ensures FlatMap(xs[..i + 1], g) == FlatMap(xs[..i], g) + g(xs[i])
  {
    assert xs[..i + 1][..i] == xs[..i];
  }

  /** An element of the concatenation comes from some `g(x)`, and every
      element of every `g(x)` is in it. */
  lemma {:induction false} FlatMapIff<A, B>(xs: seq<A>, g: A -> seq<B>, y: B)
    ensures y in FlatMap(xs, g) <==> exists x :: x in xs && y in g(x)
    decreases |xs|
  {
    if xs != [] {
      FlatMapIff(xs[..|xs| - 1], g, y);
      assert xs == xs[..|xs| - 1] + [xs[|xs| - 1]];
    }
  }

  // ---------------------------------------------------------------- slots

  /** One planned reminder: a habit on a local day at its local time. */
  datatype Slot = Slot(habitId: int, userId: int, title: string, date: Day, time: HhMm, runAt: Instant)

  /** `_parse_hhmm(h.get("remind_time") or "09:00", "09:00")` */
  function RemindTime(h: Habit): (t: HhMm)
    ensures t.Valid()
  {
    ParseHhmm(h.remindTime, HhMm(9, 0))
  }

  /** A habit with its reminder time and frequency read: what the inner loop
      looks at. */
  datatype Prepared = Prepared(habit: Habit, time: HhMm, freq: string)

  function Read(h: Habit): (p: Prepared)
    ensures p.habit == h && p.time.Valid()
  {
    Prepared(h, RemindTime(h), FrequencyOf(h))
  }

  function ReadOne(h: Habit): seq<Prepared> {
    [Read(h)]
  }

  /** The habits of one user, read in list order. */
  function Prepare(hs: seq<Habit>): seq<Prepared> {
    FlatMap(hs, ReadOne)
  }

  lemma PrepareIff(hs: seq<Habit>, p: Prepared)
    ensures p in Prepare(hs) <==> exists h :: h in hs && p == Read(h)
  {
    FlatMapIff(hs, ReadOne, p);
    if exists h :: h in hs && p == Read(h) {
      var h :| h in hs && p == Read(h);
      assert p in ReadOne(h);
    }
  }

  /** The slot of a read habit on local day `d` in zone `z`. */
  function SlotOf(p: Prepared, d: Day, z: Zone): Slot {
    Slot(p.habit.id, p.habit.userId, p.habit.title, d, p.time, ToUtc(d, p.time, z))
  }

  /** A slot is planned when the day matches the frequency and the reminder is
      at most five minutes in the past. */
  predicate DueOn(p: Prepared, d: Day, z: Zone, now: Instant) {
    MatchesFrequency(d, p.freq) && ToUtc(d, p.time, z) >= now - 300
  }

  /** The slot of habit `h` on local day `d` in zone `z`. */
  function SlotAt(h: Habit, d: Day, z: Zone): Slot {
    SlotOf(Read(h), d, z)
  }

  predicate Due(h: Habit, d: Day, z: Zone, now: Instant) {
    DueOn(Read(h), d, z, now)
  }

  /** The body of the inner `for h in hs` loop on day `d`. */
  function DayPick(d: Day, z: Zone, now: Instant): Prepared -> seq<Slot> {
    p => if DueOn(p, d, z, now) then [SlotOf(p, d, z)] else []
  }

  /** The inner `for h in hs` loop on one day. */
  function DaySlots(ps: seq<Prepared>, d: Day, z: Zone, now: Instant): seq<Slot> {
    FlatMap(ps, DayPick(d, z, now))
  }

  /** The `for i in range(horizon + 1)` loop: the slots of the first `n`
      local days from `today`, day after day. */
  function UserSlots(ps: seq<Prepared>, today: Day, n: nat, z: Zone, now: Instant): seq<Slot> {
    if n == 0 then [] else UserSlots(ps, today, n - 1, z, now) + DaySlots(ps, today + n - 1, z, now)
  }

  lemma DaySlotsIff(ps: seq<Prepared>, d: Day, z: Zone, now: Instant, s: Slot)
    ensures s in DaySlots(ps, d, z, now) <==> exists p :: p in ps && DueOn(p, d, z, now) && s == SlotOf(p, d, z)
  {
    var g := DayPick(d, z, now);
    FlatMapIff(ps, g, s);
    if s in DaySlots(ps, d, z, now) {
      var p :| p in ps && s in g(p);
      assert DueOn(p, d, z, now) && s == SlotOf(p, d, z);
    }
    if exists p :: p in ps && DueOn(p, d, z, now) && s == SlotOf(p, d, z) {
      var p :| p in ps && DueOn(p, d, z, now) && s == SlotOf(p, d, z);
      assert s in g(p);
    }
  }

  /** One more day appends that day's slots. */
  lemma UserSlotsStep(ps: seq<Prepared>, today: Day, i: nat, z: Zone, now: Instant)
    ensures UserSlots(ps, today, i + 1, z, now) == UserSlots(ps, today, i, z, now) + DaySlots(ps, today + i, z, now)
  {
  }

  lemma {:induction false} UserSlotsIff(ps: seq<Prepared>, today: Day, n: nat, z: Zone, now: Instant, s: Slot)
    ensures s in UserSlots(ps, today, n, z, now) <==> exists d :: today <= d < today + n && s in DaySlots(ps, d, z, now)
  {
    if n > 0 {
      UserSlotsIff(ps, today, n - 1, z, now, s);
      if s in DaySlots(ps, today + n - 1, z, now) {
        assert today <= today + n - 1 < today + n;
      }
    }
  }

  // -------------------------------------------------------- grouping

  /** The keys of `by_user` in insertion order: each user at its first habit. */
  function UsersInOrder(hs: seq<Habit>): seq<int>
    decreases |hs|
  {
    if hs == [] then []
    else
      var prev := UsersInOrder(hs[..|hs| - 1]);
      var u := hs[|hs| - 1].userId;
      if u in prev then prev else prev + [u]
  }

  /** `by_user[u]`: that user's habits in list order. */
  function OfUser(hs: seq<Habit>, u: int): seq<Habit>
    decreases |hs|
  {
    if hs == [] then []
    else OfUser(hs[..|hs| - 1], u) + if hs[|hs| - 1].userId == u then [hs[|hs| - 1]] else []
  }

  /** The group keys are distinct and are exactly the users with a habit. */
  lemma {:induction false} UsersInOrderFacts(hs: seq<Habit>)
    ensures forall i, j :: 0 <= i < j < |UsersInOrder(hs)| ==> UsersInOrder(hs)[i] != UsersInOrder(hs)[j]
    ensures forall u :: u in UsersInOrder(hs) <==> exists h :: h in hs && h.userId == u
    decreases |hs|
  {
    if hs != [] {
      UsersInOrderFacts(hs[..|hs| - 1]);
      assert hs == hs[..|hs| - 1] + [hs[|hs| - 1]];
    }
  }

  /** A user's group holds exactly that user's habits. */
  lemma {:induction false} OfUserIff(hs: seq<Habit>, u: int)
    ensures forall h :: h in OfUser(hs, u) <==> h in hs && h.userId == u
    decreases |hs|
  {
    if hs != [] {
      OfUserIff(hs[..|hs| - 1], u);
      assert hs == hs[..|hs| - 1] + [hs[|hs| - 1]];
    }
  }

  lemma OfUserEmpty(hs: seq<Habit>, u: int)
    requires u !in UsersInOrder(hs)
    ensures OfUser(hs, u) == []
  {
    UsersInOrderFacts(hs);
    OfUserIff(hs, u);
  }

  /** Every active habit lands in one group, its user's. */
  lemma OfUserCovers(hs: seq<Habit>, h: Habit)
    requires h in hs
    ensures h.userId in UsersInOrder(hs) && h in OfUser(hs, h.userId)
  {
    UsersInOrderFacts(hs);
    OfUserIff(hs, h.userId);
  }

  // ------------------------------------------------------- the whole run

  function ZoneOf(users: seq<Users.UserRow>, cfg: HabitSettings, u: int): Zone {
    Users.UserZone(users, u, cfg.tzDb, cfg.defaultZone)
  }

  /** The local today of a user. */
  function TodayOf(users: seq<Users.UserRow>, cfg: HabitSettings, now: Instant, u: int): Day {
    LocalDate(now, ZoneOf(users, cfg, u))
  }

  /** One user's slots, from the local today in the user's zone. */
  function SlotsForUser(active: seq<Habit>, users: seq<Users.UserRow>, cfg: HabitSettings, now: Instant, u: int): seq<Slot> {
    var z := ZoneOf(users, cfg, u);
    UserSlots(Prepare(OfUser(active, u)), LocalDate(now, z), DaysAhead(cfg), z, now)
  }

  function UserPick(active: seq<Habit>, users: seq<Users.UserRow>, cfg: HabitSettings, now: Instant): int -> seq<Slot> {
    u => SlotsForUser(active, users, cfg, now, u)
  }

  /** All slots of one `schedule_due_jobs` run, in the order it visits them:
      the outer `for user_id, hs in by_user.items()` loop. */
  function AllSlots(habits: seq<Habit>, users: seq<Users.UserRow>, cfg: HabitSettings, now: Instant): seq<Slot> {
    var active := ListActive(habits);
    FlatMap(UsersInOrder(active), UserPick(active, users, cfg, now))
  }

  /** Habit `h` is to be planned on local day `d`: it is active, `d` is within
      the horizon counted from its user's local today, the day matches its
      frequency, and the reminder is at most five minutes past. */
  predicate PlansOn(users: seq<Users.UserRow>, cfg: HabitSettings, now: Instant, h: Habit, d: Day) {
    h.isActive && TodayOf(users, cfg, now, h.userId) <= d < TodayOf(users, cfg, now, h.userId) + DaysAhead(cfg)
    && Due(h, d, ZoneOf(users, cfg, h.userId), now)
  }

  /** Every slot of a user's run comes from one of the user's habits on a day
      of the horizon. */
  lemma SlotsForUserSound(active: seq<Habit>, users: seq<Users.UserRow>, cfg: HabitSettings, now: Instant, u: int, s: Slot)
    requires s in SlotsForUser(active, users, cfg, now, u)
    ensures exists h, d :: h in active && h.userId == u && PlansOnDay(users, cfg, now, h, d) && s == SlotAt(h, d, ZoneOf(users, cfg, u))
  {
    var z := ZoneOf(users, cfg, u);
    var today := LocalDate(now, z);
    var hs := OfUser(active, u);
    var ps := Prepare(hs);
    UserSlotsIff(ps, today, DaysAhead(cfg), z, now, s);
    var d :| today <= d < today + DaysAhead(cfg) && s in DaySlots(ps, d, z, now);
    DaySlotsIff(ps, d, z, now, s);
    var p :| p in ps && DueOn(p, d, z, now) && s == SlotOf(p, d, z);
    PrepareIff(hs, p);
    var h :| h in hs && p == Read(h);
    OfUserIff(active, u);
    assert PlansOnDay(users, cfg, now, h, d);
  }

  /** Every habit of the user that plans on a day gives its slot to the run. */
  lemma SlotsForUserComplete(active: seq<Habit>, users: seq<Users.UserRow>, cfg: HabitSettings, now: Instant, u: int,
                             h: Habit, d: Day)
    requires h in active && h.userId == u && PlansOnDay(users, cfg, now, h, d)
    ensures SlotAt(h, d, ZoneOf(users, cfg, u)) in SlotsForUser(active, users, cfg, now, u)
  {
    var z := ZoneOf(users, cfg, u);
    var today := LocalDate(now, z);
    var hs := OfUser(active, u);
    var ps := Prepare(hs);
    var s := SlotAt(h, d, z);
    var p := Read(h);
    OfUserIff(active, u);
    assert h in hs;
    PrepareIff(hs, p);
    assert p in ps && DueOn(p, d, z, now) && s == SlotOf(p, d, z);
    DaySlotsIff(ps, d, z, now, s);
    assert today <= d < today + DaysAhead(cfg) && s in DaySlots(ps, d, z, now);
    UserSlotsIff(ps, today, DaysAhead(cfg), z, now, s);
  }

  /** `PlansOn` without the activity flag. */
  predicate PlansOnDay(users: seq<Users.UserRow>, cfg: HabitSettings, now: Instant, h: Habit, d: Day) {
    TodayOf(users, cfg, now, h.userId) <= d < TodayOf(users, cfg, now, h.userId) + DaysAhead(cfg)
    && Due(h, d, ZoneOf(users, cfg, h.userId), now)
  }

  /** Every slot of a run is the slot of a habit planned on its day. */
  lemma PlannedSlotsSound(habits: seq<Habit>, users: seq<Users.UserRow>, cfg: HabitSettings, now: Instant, s: Slot)
    requires s in AllSlots(habits, users, cfg, now)
    ensures exists h, d :: h in habits && PlansOn(users, cfg, now, h, d) && s == SlotAt(h, d, ZoneOf(users, cfg, h.userId))
  {
    var active := ListActive(habits);
    var g := UserPick(active, users, cfg, now);
    FlatMapIff(UsersInOrder(active), g, s);
    var u :| u in UsersInOrder(active) && s in g(u);
    SlotsForUserSound(active, users, cfg, now, u, s);
    var h, d :| h in active && h.userId == u && PlansOnDay(users, cfg, now, h, d) && s == SlotAt(h, d, ZoneOf(users, cfg, u));
    assert PlansOn(users, cfg, now, h, d);
  }

  /** Every habit planned on a day has its slot in the run. */
  lemma PlannedSlotsComplete(habits: seq<Habit>, users: seq<Users.UserRow>, cfg: HabitSettings, now: Instant, h: Habit, d: Day)
    requires h in habits && PlansOn(users, cfg, now, h, d)
    ensures SlotAt(h, d, ZoneOf(users, cfg, h.userId)) in AllSlots(habits, users, cfg, now)
  {
    var active := ListActive(habits);
    var g := UserPick(active, users, cfg, now);
    var s := SlotAt(h, d, ZoneOf(users, cfg, h.userId));
    assert h in active;
    OfUserCovers(active, h);
    SlotsForUserComplete(active, users, cfg, now, h.userId, h, d);
    assert s in g(h.userId);
    FlatMapIff(UsersInOrder(active), g, s);
  }

  // ------------------------------------------------------------- planning

  /** The two tables a run writes. */
  datatype PlanState = PlanState(occ: seq<Occurrence>, jobs: seq<Job>)

  predicate StateValid(st: PlanState) {
    HabitOccurrences.IdsAreIndexes(st.occ) && UniqueSlots(st.occ)
    && Outbox.IdsAreIndexes(st.jobs) && UniqueLive(st.jobs)
  }

  /** `habit:<habit id>:<occurrence id>` */
  function HabitKey(habitId: int, occurrenceId: int): string {
    Join(["habit", IntToString(habitId), IntToString(occurrenceId)], ':')
  }

  /** The key names the habit and the occurrence. */
  lemma HabitKeyInjective(h1: int, o1: int, h2: int, o2: int)
    requires HabitKey(h1, o1) == HabitKey(h2, o2)
    ensures h1 == h2 && o1 == o2
  {
    HabitKeyParts(h1, o1);
    HabitKeyParts(h2, o2);
    ParseIntToString(h1);
    ParseIntToString(h2);
    ParseIntToString(o1);
    ParseIntToString(o2);
  }

  lemma HabitKeyParts(habitId: int, occurrenceId: int)
    ensures Split(HabitKey(habitId, occurrenceId), ':') == ["habit", IntToString(habitId), IntToString(occurrenceId)]
  {
    var f := ["habit", IntToString(habitId), IntToString(occurrenceId)];
    IntToStringPlain(habitId);
    IntToStringPlain(occurrenceId);
    assert forall i :: 0 <= i < 3 ==> ':' !in f[i];
    SplitJoin(f, ':');
  }

  /** The `habit_reminder` job of a slot whose occurrence has id `occurrenceId`. */
  function HabitCandidate(s: Slot, occurrenceId: int): Candidate {
    var key := HabitKey(s.habitId, occurrenceId);
    var title := if s.title == [] then DEFAULT_TITLE else s.title;
    Candidate(s.userId, s.runAt, key, HabitReminder(key, s.habitId, occurrenceId, title, s.date, s.time))
  }

  /** The id `ensure_planned` returns for the slot. */
  function OccIdOf(st: PlanState, s: Slot): int {
    Ensured(st.occ, s.habitId, s.userId, s.runAt).1
  }

  /** One slot: `ensure_planned`, then the job unless its key is live. */
  function PlanSlot(st: PlanState, s: Slot): PlanState {
    PlanState(Ensured(st.occ, s.habitId, s.userId, s.runAt).0, InsertStep(st.jobs, HabitCandidate(s, OccIdOf(st, s))))
  }

  function PlanSlots(st: PlanState, ss: seq<Slot>): PlanState
    decreases |ss|
  {
    if ss == [] then st else PlanSlot(PlanSlots(st, ss[..|ss| - 1]), ss[|ss| - 1])
  }

  lemma PlanSlotsConcat(st: PlanState, a: seq<Slot>, b: seq<Slot>)
    ensures PlanSlots(st, a + b) == PlanSlots(PlanSlots(st, a), b)
    decreases |b|
  {
    if b == [] {
      assert a + b == a;
    } else {
      assert (a + b)[..|a + b| - 1] == a + b[..|b| - 1];
      PlanSlotsConcat(st, a, b[..|b| - 1]);
    }
  }

  lemma PlanSlotsStep(st: PlanState, ss: seq<Slot>, i: nat)
    requires i < |ss|
    ensures PlanSlots(st, ss[..i + 1]) == PlanSlot(PlanSlots(st, ss[..i]), ss[i])
  {
    assert ss[..i + 1][..i] == ss[..i];
  }

  /** `b` only appends to both tables of `a`. */
  predicate Extends(a: PlanState, b: PlanState) {
    |a.occ| <= |b.occ| && b.occ[..|a.occ|] == a.occ && |a.jobs| <= |b.jobs| && b.jobs[..|a.jobs|] == a.jobs
  }

  /** The slot's occurrence row exists and a live job carries its key. */
  predicate Covered(st: PlanState, s: Slot) {
    var k := FindSlot(st.occ, s.habitId, s.runAt);
    k.Some? && HasLiveJob(st.jobs, s.userId, HabitKey(s.habitId, st.occ[k.value].id))
  }

  /** Every job from index `from` on is a reminder for an existing occurrence of
      its habit at its own run time, under that occurrence's key. */
  predicate PointsAtOccurrences(st: PlanState, from: nat) {
    forall i :: from <= i < |st.jobs| ==>
      var j := st.jobs[i];
      j.payload.HabitReminder? && 1 <= j.payload.occurrenceId <= |st.occ|
      && AtSlot(st.occ[j.payload.occurrenceId - 1], j.payload.habitId, j.runAt)
      && j.payload.jobKey == HabitKey(j.payload.habitId, j.payload.occurrenceId)
  }

  /** Job `j` is the reminder of slot `s`: its user, habit and run time. */
  predicate JobOfSlot(j: Job, s: Slot) {
    j.userId == s.userId && j.runAt == s.runAt && j.payload.HabitReminder? && j.payload.habitId == s.habitId
  }

  /** Every job from index `from` on is the reminder of one of the slots `ss`. */
  predicate FromSlots(st: PlanState, from: nat, ss: seq<Slot>) {
    forall i :: from <= i < |st.jobs| ==> exists s :: s in ss && JobOfSlot(st.jobs[i], s)
  }

  /** One insert step keeps the outbox invariants, only appends, and leaves a
      live job under the candidate's key. */
  lemma InsertStepFacts(jobs: seq<Job>, c: Candidate)
    requires Outbox.IdsAreIndexes(jobs) && UniqueLive(jobs) && WellKeyed(c)
    ensures var r := InsertStep(jobs, c);
      Outbox.IdsAreIndexes(r) && UniqueLive(r) && HasLiveJob(r, c.userId, c.key)
      && |jobs| <= |r| <= |jobs| + 1 && r[..|jobs|] == jobs
      && (|r| > |jobs| ==> r[|jobs|] == NewJob(|jobs| + 1, c))
  {
    assert InsertAbsent(jobs, [c]) == InsertStep(jobs, c);
    InsertAbsentKeepsUnique(jobs, [c]);
    InsertAbsentCovers(jobs, [c]);
    assert (jobs + [NewJob(|jobs| + 1, c)])[..|jobs|] == jobs;
  }

  lemma PlanSlotOccFacts(st: PlanState, s: Slot)
    requires HabitOccurrences.IdsAreIndexes(st.occ) && UniqueSlots(st.occ)
    ensures var r := PlanSlot(st, s).occ;
      HabitOccurrences.IdsAreIndexes(r) && UniqueSlots(r) && |st.occ| <= |r| && r[..|st.occ|] == st.occ
      && 1 <= OccIdOf(st, s) <= |r| && AtSlot(r[OccIdOf(st, s) - 1], s.habitId, s.runAt)
      && FindSlot(r, s.habitId, s.runAt) == Some(OccIdOf(st, s) - 1)
  {
    EnsuredFacts(st.occ, s.habitId, s.userId, s.runAt);
    var r := PlanSlot(st, s).occ;
    var k := FindSlot(r, s.habitId, s.runAt);
    assert k.Some? && k.value == OccIdOf(st, s) - 1;
  }

  lemma PlanSlotKeepsValid(st: PlanState, s: Slot)
    requires StateValid(st)
    ensures StateValid(PlanSlot(st, s)) && Extends(st, PlanSlot(st, s))
    ensures |PlanSlot(st, s).jobs| <= |st.jobs| + 1
  {
    PlanSlotOccFacts(st, s);
    InsertStepFacts(st.jobs, HabitCandidate(s, OccIdOf(st, s)));
  }

  lemma PlanSlotCovers(st: PlanState, s: Slot)
    requires StateValid(st)
    ensures Covered(PlanSlot(st, s), s)
  {
    PlanSlotOccFacts(st, s);
    InsertStepFacts(st.jobs, HabitCandidate(s, OccIdOf(st, s)));
  }

  lemma PlanSlotPoints(st: PlanState, s: Slot)
    requires StateValid(st)
    ensures PointsAtOccurrences(PlanSlot(st, s), |st.jobs|)
  {
    PlanSlotOccFacts(st, s);
    InsertStepFacts(st.jobs, HabitCandidate(s, OccIdOf(st, s)));
  }

  /** One slot keeps both tables valid, only appends, covers the slot, and its
      job, if any, points at the slot's occurrence. */
  lemma PlanSlotFacts(st: PlanState, s: Slot)
    requires StateValid(st)
    ensures var r := PlanSlot(st, s);
      StateValid(r) && Extends(st, r) && Covered(r, s)
      && |r.jobs| <= |st.jobs| + 1 && PointsAtOccurrences(r, |st.jobs|)
      && forall i :: |st.jobs| <= i < |r.jobs| ==> JobOfSlot(r.jobs[i], s)
  {
    PlanSlotKeepsValid(st, s);
    PlanSlotCovers(st, s);
    PlanSlotPoints(st, s);
    InsertStepFacts(st.jobs, HabitCandidate(s, OccIdOf(st, s)));
  }

  /** The first row of a slot stays the first row when rows are appended. */
  lemma FindSlotExtends(rows: seq<Occurrence>, more: seq<Occurrence>, habitId: int, at: Instant)
    requires FindSlot(rows, habitId, at).Some?
    ensures FindSlot(rows + more, habitId, at) == FindSlot(rows, habitId, at)
  {
    var i := FindSlot(rows, habitId, at).value;
    var r := rows + more;
    assert AtSlot(r[i], habitId, at);
    assert forall k :: 0 <= k < i ==> r[k] == rows[k];
    var j := FindSlot(r, habitId, at);
    assert j.Some?;
    assert !(j.value < i) && !(i < j.value);
  }

  lemma CoveredSurvives(a: PlanState, b: PlanState, s: Slot)
    requires Extends(a, b) && Covered(a, s)
    ensures Covered(b, s)
  {
    var k := FindSlot(a.occ, s.habitId, s.runAt);
    assert b.occ == a.occ + b.occ[|a.occ|..];
    assert b.jobs == a.jobs + b.jobs[|a.jobs|..];
    FindSlotExtends(a.occ, b.occ[|a.occ|..], s.habitId, s.runAt);
    assert b.occ[k.value] == a.occ[k.value];
    LiveSurvivesAppend(a.jobs, b.jobs[|a.jobs|..], s.userId, HabitKey(s.habitId, a.occ[k.value].id));
  }

  lemma PointsSurvive(a: PlanState, b: PlanState, from: nat)
    requires PointsAtOccurrences(a, from) && Extends(a, b) && PointsAtOccurrences(b, |a.jobs|)
    ensures PointsAtOccurrences(b, from)
  {
    forall i | from <= i < |a.jobs|
      ensures b.jobs[i] == a.jobs[i]
    {
      assert b.jobs[..|a.jobs|][i] == a.jobs[i];
    }
    forall o | 0 <= o < |a.occ|
      ensures b.occ[o] == a.occ[o]
    {
      assert b.occ[..|a.occ|][o] == a.occ[o];
    }
  }

  /** After a run every slot is covered, the tables keep their invariants and
      only grew, and every new job points at a real occurrence of its slot. */
  lemma {:induction false} PlanSlotsFacts(st: PlanState, ss: seq<Slot>)
    requires StateValid(st)
    ensures var r := PlanSlots(st, ss);
      StateValid(r) && Extends(st, r) && (forall s :: s in ss ==> Covered(r, s))
      && PointsAtOccurrences(r, |st.jobs|) && FromSlots(r, |st.jobs|, ss)
    decreases |ss|
  {
    if ss != [] {
      var init := ss[..|ss| - 1];
      var last := ss[|ss| - 1];
      PlanSlotsFacts(st, init);
      var r0 := PlanSlots(st, init);
      var r := PlanSlot(r0, last);
      PlanSlotFacts(r0, last);
      forall s | s in ss
        ensures Covered(r, s)
      {
        if s != last {
          assert s in init;
          CoveredSurvives(r0, r, s);
        }
      }
      assert r.occ[..|st.occ|] == r0.occ[..|st.occ|];
      assert r.jobs[..|st.jobs|] == r0.jobs[..|st.jobs|];
      PointsSurvive(r0, r, |st.jobs|);
    }
    PlanSlotsFromSlots(st, ss);
  }

  /** Every job of a run is the reminder of one of its slots. */
  lemma {:induction false} PlanSlotsFromSlots(st: PlanState, ss: seq<Slot>)
    requires StateValid(st)
    ensures StateValid(PlanSlots(st, ss)) && Extends(st, PlanSlots(st, ss))
    ensures FromSlots(PlanSlots(st, ss), |st.jobs|, ss)
    decreases |ss|
  {
    if ss != [] {
      var init := ss[..|ss| - 1];
      var last := ss[|ss| - 1];
      PlanSlotsFromSlots(st, init);
      var r0 := PlanSlots(st, init);
      var r := PlanSlot(r0, last);
      PlanSlotFacts(r0, last);
      forall i | |st.jobs| <= i < |r.jobs|
        ensures exists s :: s in ss && JobOfSlot(r.jobs[i], s)
      {
        if i < |r0.jobs| {
          assert r.jobs[..|r0.jobs|][i] == r0.jobs[i];
          var s :| s in init && JobOfSlot(r0.jobs[i], s);
          assert s in ss;
        } else {
          assert JobOfSlot(r.jobs[i], last);
        }
      }
      assert r.jobs[..|st.jobs|] == r0.jobs[..|st.jobs|];
      assert r.occ[..|st.occ|] == r0.occ[..|st.occ|];
    }
  }

  /** A covered slot leaves both tables untouched. */
  lemma PlanSlotIdle(st: PlanState, s: Slot)
    requires Covered(st, s)
    ensures PlanSlot(st, s) == st
  {
  }

  lemma {:induction false} PlanSlotsIdle(st: PlanState, ss: seq<Slot>)
    requires forall s :: s in ss ==> Covered(st, s)
    ensures PlanSlots(st, ss) == st
    decreases |ss|
  {
    if ss != [] {
      PlanSlotsIdle(st, ss[..|ss| - 1]);
      PlanSlotIdle(st, ss[|ss| - 1]);
    }
  }

  /** Running the planner again over the same slots plans nothing new: no
      occurrence and no job. */
  lemma HabitRerunCreatesNothing(st: PlanState, ss: seq<Slot>)
    requires StateValid(st)
    ensures PlanSlots(PlanSlots(st, ss), ss) == PlanSlots(st, ss)
  {
    PlanSlotsFacts(st, ss);
    PlanSlotsIdle(PlanSlots(st, ss), ss);
  }

  // ------------------------------------------------------------- service

  class HabitScheduleService {
    const cfg: HabitSettings
    const habits: HabitsRepo
    const occ: OccurrencesRepo
    const outbox: OutboxRepo
    const users: Users.UsersRepo

    constructor (cfg: HabitSettings, habits: HabitsRepo, occ: OccurrencesRepo, outbox: OutboxRepo, users: Users.UsersRepo)
      ensures this.cfg == cfg && this.habits == habits && this.occ == occ
      ensures this.outbox == outbox && this.users == users
    {
      this.cfg := cfg;
      this.habits := habits;
      this.occ := occ;
      this.outbox := outbox;
      this.users := users;
    }

    function State(): PlanState
      reads occ, outbox
    {
      PlanState(occ.rows, outbox.jobs)
    }

    /** The grouping loop: `by_user.setdefault(user_id, []).append(h)`. */
    static method GroupByUser(hs: seq<Habit>) returns (order: seq<int>, byUser: map<int, seq<Habit>>)
      ensures order == UsersInOrder(hs)
      ensures forall u :: u in byUser <==> u in order
      ensures forall u :: u in byUser ==> byUser[u] == OfUser(hs, u)
    {
      order, byUser := [], map[];
      var i := 0;
      while i < |hs|
        invariant 0 <= i <= |hs|
        invariant order == UsersInOrder(hs[..i])
        invariant forall u :: u in byUser <==> u in order
        invariant forall u :: u in byUser ==> byUser[u] == OfUser(hs[..i], u)
      {
        var h := hs[i];
        assert hs[..i + 1][..i] == hs[..i];
        if h.userId !in byUser {
          OfUserEmpty(hs[..i], h.userId);
          order := order + [h.userId];
          byUser := byUser[h.userId := [h]];
        } else {
          byUser := byUser[h.userId := byUser[h.userId] + [h]];
        }
        i := i + 1;
      }
      assert hs[..i] == hs;
    }

    /** One slot: plan the occurrence, then the job unless its key is live. */
    method PlanOne(s: Slot) returns (created: nat)
      requires occ.Valid() && outbox.Valid()
      modifies occ, outbox
      ensures occ.Valid() && outbox.Valid()
      ensures State() == PlanSlot(old(State()), s)
      ensures created == |outbox.jobs| - |old(outbox.jobs)|
    {
      PlanSlotKeepsValid(State(), s);
      var id := occ.EnsurePlanned(s.habitId, s.userId, s.runAt);
      var c := HabitCandidate(s, id);
      if outbox.ExistsJobFor(s.userId, c.key) {
        return 0;
      }
      var jid := outbox.CreateJob(c.userId, c.runAt, c.payload);
      created := 1;
    }

    /** Plans the given slots in order. */
    method PlanAll(ss: seq<Slot>) returns (created: nat)
      requires occ.Valid() && outbox.Valid()
      modifies occ, outbox
      ensures occ.Valid() && outbox.Valid()
      ensures State() == PlanSlots(old(State()), ss)
      ensures created == |outbox.jobs| - |old(outbox.jobs)|
    {
      ghost var start := State();
      created := 0;
      var i := 0;
      while i < |ss|
        invariant 0 <= i <= |ss|
        invariant occ.Valid() && outbox.Valid()
        invariant State() == PlanSlots(start, ss[..i])
        invariant created == |outbox.jobs| - |start.jobs|
      {
        var n := PlanNext(start, ss, i);
        created := created + n;
        i := i + 1;
      }
      assert ss[..i] == ss;
    }

    /** Slot `i` of a run over `ss` that started in state `start`. */
    method PlanNext(ghost start: PlanState, ss: seq<Slot>, i: nat) returns (created: nat)
      requires i < |ss|
      requires occ.Valid() && outbox.Valid()
      requires State() == PlanSlots(start, ss[..i])
      modifies occ, outbox
      ensures occ.Valid() && outbox.Valid()
      ensures State() == PlanSlots(start, ss[..i + 1])
      ensures created == |outbox.jobs| - |old(outbox.jobs)|
    {
      PlanSlotsStep(start, ss, i);
      created := PlanOne(ss[i]);
    }

    /** The inner `for h in hs` loop on day `d`: the habits due that day, in
        list order. */
    static method DaySlotsLoop(ps: seq<Prepared>, d: Day, z: Zone, now: Instant) returns (ss: seq<Slot>)
      ensures ss == DaySlots(ps, d, z, now)
    {
      ss := [];
      var j := 0;
      while j < |ps|
        invariant 0 <= j <= |ps|
        invariant ss == FlatMap(ps[..j], DayPick(d, z, now))
      {
        var p := ps[j];
        FlatMapStep(ps, j, DayPick(d, z, now));
        if DueOn(p, d, z, now) {
          ss := ss + [SlotOf(p, d, z)];
        }
        j := j + 1;
      }
      assert ps[..j] == ps;
    }

    /** One pass of the day loop: the slots of day `today + i` appended. */
    static method AddDay(ps: seq<Prepared>, today: Day, i: nat, z: Zone, now: Instant, ss: seq<Slot>) returns (ss': seq<Slot>)
      requires ss == UserSlots(ps, today, i, z, now)
      ensures ss' == UserSlots(ps, today, i + 1, z, now)
    {
      var day := DaySlotsLoop(ps, today + i, z, now);
      UserSlotsStep(ps, today, i, z, now);
      ss' := ss + day;
    }

    /** `for i in range(horizon + 1)` over one user's read habits. */
    static method UserSlotsLoop(ps: seq<Prepared>, today: Day, horizon: int, z: Zone, now: Instant) returns (ss: seq<Slot>)
      ensures ss == UserSlots(ps, today, DayCount(horizon), z, now)
    {
      ss := [];
      var i := 0;
      while i < horizon + 1
        invariant 0 <= i <= DayCount(horizon)
        invariant ss == UserSlots(ps, today, i, z, now)
      {
        ss := AddDay(ps, today, i, z, now, ss);
        i := i + 1;
      }
      assert i == DayCount(horizon);
    }

    /** One group of `by_user`: the user's zone, local today and horizon. */
    method SlotsOfUser(active: seq<Habit>, hs: seq<Habit>, u: int, now: Instant) returns (mine: seq<Slot>)
      requires hs == OfUser(active, u)
      ensures mine == SlotsForUser(active, users.rows, cfg, now, u)
    {
      var z := Users.UserZone(users.rows, u, cfg.tzDb, cfg.defaultZone);
      mine := UserSlotsLoop(Prepare(hs), LocalDate(now, z), HorizonDays(cfg), z, now);
    }

    /** The outer `for user_id, hs in by_user.items()` loop, without the writes. */
    method SlotsOfGroups(active: seq<Habit>, order: seq<int>, byUser: map<int, seq<Habit>>, now: Instant)
      returns (ss: seq<Slot>)
      requires forall u :: u in order ==> u in byUser && byUser[u] == OfUser(active, u)
      ensures ss == FlatMap(order, UserPick(active, users.rows, cfg, now))
    {
      var g := UserPick(active, users.rows, cfg, now);
      ss := [];
      var i := 0;
      while i < |order|
        invariant 0 <= i <= |order|
        invariant ss == FlatMap(order[..i], g)
      {
        var u := order[i];
        var mine := SlotsOfUser(active, byUser[u], u, now);
        FlatMapStep(order, i, g);
        ss := ss + mine;
        i := i + 1;
      }
      assert order[..i] == order;
    }

    /** The grouping and both loops of `schedule_due_jobs`, without the writes:
        every slot of the run in the order the run visits it. */
    method CollectSlots(now: Instant) returns (ss: seq<Slot>)
      ensures ss == AllSlots(habits.rows, users.rows, cfg, now)
    {
      var active := ListActive(habits.rows);
      var order, byUser := GroupByUser(active);
      ss := SlotsOfGroups(active, order, byUser, now);
    }

    /** `schedule_due_jobs`: plans every slot of `AllSlots` in order; the result
        is the number of jobs created. */
    method ScheduleDueJobs(now: Instant) returns (created: nat)
      requires occ.Valid() && outbox.Valid()
      modifies occ, outbox
      ensures occ.Valid() && outbox.Valid()
      ensures State() == PlanSlots(old(State()), AllSlots(habits.rows, users.rows, cfg, now))
      ensures created == |outbox.jobs| - |old(outbox.jobs)|
    {
      var ss := CollectSlots(now);
      created := PlanAll(ss);
    }
  }

  /** After a run, every slot the run is meant to plan has its occurrence row and
      a live reminder job, and every job the run created points at a real
      occurrence of its habit at its own run time. */
  lemma ScheduleCovers(st: PlanState, habits: seq<Habit>, users: seq<Users.UserRow>, cfg: HabitSettings, now: Instant)
    requires StateValid(st)
    ensures var r := PlanSlots(st, AllSlots(habits, users, cfg, now));
      StateValid(r) && PointsAtOccurrences(r, |st.jobs|)
      && forall h, d :: h in habits && PlansOn(users, cfg, now, h, d) ==> Covered(r, SlotAt(h, d, ZoneOf(users, cfg, h.userId)))
  {
    var ss := AllSlots(habits, users, cfg, now);
    PlanSlotsFacts(st, ss);
    forall h, d | h in habits && PlansOn(users, cfg, now, h, d)
      ensures SlotAt(h, d, ZoneOf(users, cfg, h.userId)) in ss
    {
      PlannedSlotsComplete(habits, users, cfg, now, h, d);
    }
  }

  /** Every job a run creates is the reminder of an active habit on a day it
      plans on, at that habit's slot, and runs at most five minutes before
      the run's `now`. */
  lemma ScheduleJobsArePlanned(st: PlanState, habits: seq<Habit>, users: seq<Users.UserRow>, cfg: HabitSettings,
                               now: Instant)
    requires StateValid(st)
    ensures var r := PlanSlots(st, AllSlots(habits, users, cfg, now));
      forall i :: |st.jobs| <= i < |r.jobs| ==>
        r.jobs[i].runAt >= now - 300
        && exists h, d :: h in habits && PlansOn(users, cfg, now, h, d) && h.isActive
             && JobOfSlot(r.jobs[i], SlotAt(h, d, ZoneOf(users, cfg, h.userId)))
  {
    var ss := AllSlots(habits, users, cfg, now);
    var r := PlanSlots(st, ss);
    PlanSlotsFacts(st, ss);
    forall i | |st.jobs| <= i < |r.jobs|
      ensures r.jobs[i].runAt >= now - 300
      ensures exists h, d :: h in habits && PlansOn(users, cfg, now, h, d) && h.isActive
                && JobOfSlot(r.jobs[i], SlotAt(h, d, ZoneOf(users, cfg, h.userId)))
    {
      var s :| s in ss && JobOfSlot(r.jobs[i], s);
      PlannedSlotsSound(habits, users, cfg, now, s);
      var h, d :| h in habits && PlansOn(users, cfg, now, h, d) && s == SlotAt(h, d, ZoneOf(users, cfg, h.userId));
    }
  }
}
