/** The one-shot personal-reminder planner (`schedule_due_jobs`): each active
    reminder whose start time is readable and not yet past gets one
    `personal_reminder` job at that start time, keyed by the reminder and the
    start time, unless a live job with that key exists already. */
module PersonalPlanner {
  import opened Common
  import opened Clock
  import opened Outbox
  import opened PersonalReminders
  import Users
  import ScheduleRules

  const DEFAULT_TEXT: string := "Напоминание"

  /** An aware start time: its wall clock and its UTC offset in seconds. */
  datatype Aware = Aware(wall: Instant, offset: int) {
    /** The instant it names. */
    function Utc(): Instant { wall - offset }
  }

  /** Reading `start_at`: no start and an unreadable one are skipped, a naive
      datetime is taken to be UTC. */
  function AwareOf(s: StartAt): (r: Option<Aware>)
    ensures r.None? <==> !s.At?
    ensures r.Some? ==> r.value.wall == s.wall && (s.offset.None? ==> r.value.Utc() == s.wall)
  {
    match s
    case At(wall, offset) => Some(Aware(wall, if offset.Some? then offset.value else 0))
    case _ => None
  }

  /** `personal_once:<id>:<start_at.isoformat()>`: the start as read, with its own offset. */
  function OnceKey(rid: int, a: Aware): string {
    KeyText(rid, IsoDateTime(a.wall, a.offset))
  }

  function KeyText(rid: int, stamp: string): string {
    "personal_once" + [':'] + IntToString(rid) + [':'] + stamp
  }

  /** The key reads back as its leading fields, then the fields of the start. */
  lemma KeyTextParts(rid: int, stamp: string)
    ensures Split(KeyText(rid, stamp), ':') == ["personal_once", IntToString(rid)] + Split(stamp, ':')
  {
    ScheduleRules.IntToStringPlain(rid);
    assert ':' !in "personal_once";
    SplitTwoFields("personal_once", IntToString(rid), stamp);
  }

  lemma SplitTwoFields(head: string, id: string, rest: string)
    requires ':' !in head && ':' !in id
    ensures Split(head + [':'] + id + [':'] + rest, ':') == [head, id] + Split(rest, ':')
  {
    assert head + [':'] + id + [':'] + rest == head + [':'] + (id + [':'] + rest);
    SplitAt(head, ':', id + [':'] + rest);
    SplitAt(id, ':', rest);
  }

  lemma KeyTextInjective(r1: int, s1: string, r2: int, s2: string)
    requires KeyText(r1, s1) == KeyText(r2, s2)
    ensures r1 == r2 && s1 == s2
  {
    KeyTextParts(r1, s1);
    KeyTextParts(r2, s2);
    assert Split(KeyText(r1, s1), ':')[1] == IntToString(r1);
    IntToStringInjective(r1, r2);
    var p := "personal_once" + [':'] + IntToString(r1) + [':'];
    assert KeyText(r1, s1) == p + s1 && KeyText(r2, s2) == p + s2;
    assert (p + s1)[|p|..] == s1 && (p + s2)[|p|..] == s2;
  }

  lemma IntToStringInjective(a: int, b: int)
    requires IntToString(a) == IntToString(b)
    ensures a == b
  {
    ParseIntToString(a);
    ParseIntToString(b);
  }

  /** Two reminders never share a key, and one reminder shares a key only
      between starts written alike. */
  lemma OnceKeyInjective(r1: int, a1: Aware, r2: int, a2: Aware)
    requires OnceKey(r1, a1) == OnceKey(r2, a2)
    ensures r1 == r2
    ensures IsoDateTime(a1.wall, a1.offset) == IsoDateTime(a2.wall, a2.offset)
  {
    KeyTextInjective(r1, IsoDateTime(a1.wall, a1.offset), r2, IsoDateTime(a2.wall, a2.offset));
  }

  /** `r.get("text") or "Напоминание"` */
  function ReminderText(text: string): (t: string)
    ensures t != []
    ensures text != [] ==> t == text
  {
    if text == [] then DEFAULT_TEXT else text
  }

  /** The job for a reminder starting at `a`, for a user in zone `z`. */
  function CandidateOf(r: Reminder, z: Zone, a: Aware): Candidate {
    var t := a.Utc();
    var key := OnceKey(r.id, a);
    Candidate(r.userId, t, key, PersonalReminder(key, r.id, ReminderText(r.text), LocalDate(t, z), LocalHhMm(t, z)))
  }

  /** One reminder's share of a run: at most one job, never for a past start. */
  function ReminderCandidates(r: Reminder, z: Zone, now: Instant): (cs: seq<Candidate>)
    ensures |cs| <= 1
    ensures forall c :: c in cs ==> now <= c.runAt && WellKeyed(c)
  {
    match AwareOf(r.startAt)
    case None => []
    case Some(a) => if a.Utc() < now then [] else [CandidateOf(r, z, a)]
  }

  /** The whole run over the active reminders, in their order. */
  function DueCandidates(rs: seq<Reminder>, users: seq<Users.UserRow>, cfg: ZoneSettings, now: Instant): seq<Candidate> {
    if rs == [] then []
    else
      var r := rs[|rs| - 1];
      DueCandidates(rs[..|rs| - 1], users, cfg, now) + ReminderCandidates(r, UserZoneOf(users, cfg, r.userId), now)
  }

  lemma DueCandidatesSnoc(rs: seq<Reminder>, users: seq<Users.UserRow>, cfg: ZoneSettings, now: Instant, i: int)
    requires 0 <= i < |rs|
    ensures DueCandidates(rs[..i + 1], users, cfg, now)
      == DueCandidates(rs[..i], users, cfg, now) + ReminderCandidates(rs[i], UserZoneOf(users, cfg, rs[i].userId), now)
  {
    assert rs[..i + 1][..i] == rs[..i];
  }

  /** Every planned job comes from a reminder of the run whose start is
      readable and not in the past, and is that start's job. */
  lemma {:induction false} DueCandidatesSound(rs: seq<Reminder>, users: seq<Users.UserRow>, cfg: ZoneSettings, now: Instant, c: Candidate)
    requires c in DueCandidates(rs, users, cfg, now)
    ensures exists r :: (r in rs && AwareOf(r.startAt).Some? && now <= AwareOf(r.startAt).value.Utc()
      && c == CandidateOf(r, UserZoneOf(users, cfg, r.userId), AwareOf(r.startAt).value))
  {
    var r := rs[|rs| - 1];
    var init := rs[..|rs| - 1];
    if c in DueCandidates(init, users, cfg, now) {
      DueCandidatesSound(init, users, cfg, now, c);
      var q :| q in init && AwareOf(q.startAt).Some? && now <= AwareOf(q.startAt).value.Utc()
        && c == CandidateOf(q, UserZoneOf(users, cfg, q.userId), AwareOf(q.startAt).value);
      assert q in rs;
    } else {
      assert r in rs;
    }
  }

  /** Every reminder of the run with a readable start not in the past is
      planned; a start exactly at `now` counts. */
  lemma {:induction false} DueCandidatesComplete(rs: seq<Reminder>, users: seq<Users.UserRow>, cfg: ZoneSettings, now: Instant, r: Reminder)
    requires r in rs && AwareOf(r.startAt).Some? && now <= AwareOf(r.startAt).value.Utc()
    ensures CandidateOf(r, UserZoneOf(users, cfg, r.userId), AwareOf(r.startAt).value) in DueCandidates(rs, users, cfg, now)
  {
    var init := rs[..|rs| - 1];
    if r != rs[|rs| - 1] {
      assert r in init;
      DueCandidatesComplete(init, users, cfg, now, r);
    }
  }

  /** Nothing is planned in the past, and every planned job carries its key. */
  lemma {:induction false} DueCandidatesFacts(rs: seq<Reminder>, users: seq<Users.UserRow>, cfg: ZoneSettings, now: Instant)
    ensures forall c :: c in DueCandidates(rs, users, cfg, now) ==> now <= c.runAt && WellKeyed(c)
  {
    if rs != [] {
      DueCandidatesFacts(rs[..|rs| - 1], users, cfg, now);
    }
  }

  /** A second run over unchanged tables creates no job. */
  lemma PersonalRerunCreatesNothing(jobs: seq<Job>, rs: seq<Reminder>, users: seq<Users.UserRow>, cfg: ZoneSettings, now: Instant)
    ensures var cs := DueCandidates(rs, users, cfg, now);
      InsertAbsent(InsertAbsent(jobs, cs), cs) == InsertAbsent(jobs, cs) && CreatedBy(InsertAbsent(jobs, cs), cs) == 0
  {
    DueCandidatesFacts(rs, users, cfg, now);
    RerunCreatesNothing(jobs, DueCandidates(rs, users, cfg, now));
  }

  /** The payload's local date and time name the minute, in the user's zone,
      in which the job runs. */
  lemma PayloadNamesRunMinute(r: Reminder, z: Zone, now: Instant, c: Candidate)
    requires c in ReminderCandidates(r, z, now)
    ensures c.payload.PersonalReminder? && c.payload.reminderId == r.id && c.payload.forLocalTime.Valid()
    ensures ToUtc(c.payload.forLocalDate, c.payload.forLocalTime, z) <= c.runAt
      < ToUtc(c.payload.forLocalDate, c.payload.forLocalTime, z) + 60
  {
    LocalHhMmBrackets(c.runAt, z);
  }

  /** A reminder created from typed text `s` in zone `z` is planned at that
      local date and time, in that zone, unless the time has passed. */
  lemma PlannedAsTyped(r: Reminder, s: LocalStamp, z: Zone, now: Instant)
    requires ValidStamp(s) && r.startAt == StoredStart(s, z)
    ensures var t := ToUtc(YmdToOrdinal(s.date), s.time, z);
      && (now <= t <==> ReminderCandidates(r, z, now) != [])
      && (now <= t ==> var c := ReminderCandidates(r, z, now)[0];
            c.runAt == t && c.payload.forLocalDate == YmdToOrdinal(s.date) && c.payload.forLocalTime == s.time)
  {
    ToUtcRoundTrip(YmdToOrdinal(s.date), s.time, z);
  }

  // ----------------------------------------------------------- the service

  class PersonalReminderScheduleService {
    const cfg: ZoneSettings
    const repo: PersonalRemindersRepo
    const outbox: OutboxRepo
    const users: Users.UsersRepo

    constructor (cfg: ZoneSettings, repo: PersonalRemindersRepo, outbox: OutboxRepo, users: Users.UsersRepo)
      ensures this.cfg == cfg && this.repo == repo && this.outbox == outbox && this.users == users
    {
      this.cfg := cfg;
      this.repo := repo;
      this.outbox := outbox;
      this.users := users;
    }

    /** The loop body for one reminder of a user in zone `z`. */
    method PlanReminder(r: Reminder, z: Zone, now: Instant) returns (created: nat)
      requires outbox.Valid()
      modifies outbox
      ensures outbox.Valid()
      ensures outbox.jobs == InsertAbsent(old(outbox.jobs), ReminderCandidates(r, z, now))
      ensures created == |outbox.jobs| - |old(outbox.jobs)|
    {
      ghost var cs := ReminderCandidates(r, z, now);
      InsertAbsentKeepsUnique(outbox.jobs, cs);
      var start := AwareOf(r.startAt);
      if start.None? || start.value.Utc() < now {
        assert cs == [];
        return 0;
      }
      var c := CandidateOf(r, z, start.value);
      assert cs == [] + [c];
      InsertAbsentSnoc(outbox.jobs, [], c);
      if outbox.ExistsJobFor(c.userId, c.key) {
        return 0;
      }
      var id := outbox.CreateJob(c.userId, c.runAt, c.payload);
      created := 1;
    }

    /** `schedule_due_jobs`: the count is the number of jobs created. */
    method ScheduleDueJobs(now: Instant) returns (created: nat)
      requires outbox.Valid()
      modifies outbox
      ensures outbox.Valid()
      ensures outbox.jobs == InsertAbsent(old(outbox.jobs), DueCandidates(ListActive(repo.rows), users.rows, cfg, now))
      ensures created == |outbox.jobs| - |old(outbox.jobs)|
    {
      var active := ListActive(repo.rows);
      ghost var start := outbox.jobs;
      created := 0;
      var i := 0;
      while i < |active|
        invariant 0 <= i <= |active|
        invariant outbox.Valid()
        invariant outbox.jobs == InsertAbsent(start, DueCandidates(active[..i], users.rows, cfg, now))
        invariant created == |outbox.jobs| - |start|
      {
        var r := active[i];
        ghost var before := DueCandidates(active[..i], users.rows, cfg, now);
        DueCandidatesSnoc(active, users.rows, cfg, now, i);
        var n := PlanReminder(r, UserZoneOf(users.rows, cfg, r.userId), now);
        InsertAbsentConcat(start, before, ReminderCandidates(r, UserZoneOf(users.rows, cfg, r.userId), now));
        created := created + n;
        i := i + 1;
      }
      assert active[..i] == active;
    }
  }
}
