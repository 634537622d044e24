/** The daily scheduler (`ScheduleService`). For today and tomorrow in each
    enrolled user's zone it queues the day's lesson, quest and day questionnaires
    at the user's delivery time, and a backlog reminder later that day. Each job
    sits behind two guards: the sent ledger for that local date, and the
    live-job check on its idempotency key.

    The planner's work is described by candidate lists (pure functions of the
    tables it reads); each method is proved to perform exactly the
    insert-if-absent run over its candidates (`Outbox.InsertAbsent`). */
module Schedule {
  import opened Common
  import opened Clock
  import opened Outbox
  import opened SentJobs
  import opened Content
  import Q = Questionnaires
  import opened Enrollment
  import opened Users
  import opened ScheduleRules

  /** The settings the scheduler reads; integer settings left at 0 take their defaults. */
  datatype ScheduleSettings = ScheduleSettings(
    defaultZone: Zone, tzDb: TzDb, deliveryGraceMinutes: int, remindAfterHours: int,
    quietHoursStart: string, quietHoursEnd: string, reminderFallbackTime: string)

  /** The tables the scheduler reads and does not change. */
  datatype World = World(lessons: map<int, LessonRow>, quests: map<int, QuestRow>,
                         questionnaires: seq<Q.Questionnaire>, enrollments: seq<Enrollment>,
                         users: seq<UserRow>, sent: set<SentKey>)

  /** Questionnaire types a course day carries. */
  const DAY_QTYPES: seq<string> := ["manual", "daily"]

  /** The kinds `reschedule_user` cancels by kind. */
  const DAY_KINDS: seq<string> := ["day_lesson", "day_quest", "daily_reminder"]

  /** The enrollment's `HH:MM` delivery time, 21:00 when blank or unreadable. */
  function DeliveryTime(e: Enrollment): (t: HhMm)
    ensures t.Valid()
  {
    ParseHhmm(e.deliveryTime, HhMm(21, 0))
  }

  function GraceMinutes(cfg: ScheduleSettings): int {
    OrDefault(cfg.deliveryGraceMinutes, 15)
  }

  /** The backlog reminder instant for a delivery instant, under the quiet-hours
      settings (defaults 22:00-09:00, fallback 09:30). */
  function ReminderAt(cfg: ScheduleSettings, delivery: Instant, z: Zone): Instant {
    ReminderRun(delivery, z, OrDefault(cfg.remindAfterHours, 12),
                ParseHhmm(cfg.quietHoursStart, HhMm(22, 0)), ParseHhmm(cfg.quietHoursEnd, HhMm(9, 0)),
                ParseHhmm(cfg.reminderFallbackTime, HhMm(9, 30)))
  }

  function Lookup<T>(m: map<int, T>, k: int): (r: Option<T>)
    ensures r.Some? <==> k in m
    ensures r.Some? ==> r.value == m[k]
  {
    if k in m then Some(m[k]) else None
  }

  /** What one pass of the `for offset_days in (0, 1)` loop works from. */
  datatype DayPlan = DayPlan(userId: int, forDate: Day, dayIndex: int, runAt: Instant, reminderAt: Instant,
                             canAutosend: bool, lesson: Option<LessonRow>, quest: Option<QuestRow>,
                             questionnaires: seq<Q.Questionnaire>)

  /** The plan for local day `today + offset`: its course day index (from the
      active enrollment), the delivery instant, the grace decision, and the day's
      content. */
  function PlanFor(w: World, cfg: ScheduleSettings, userId: int, e: Enrollment, z: Zone, now: Instant,
                   offset: int): DayPlan {
    var forDate := LocalDate(now, z) + offset;
    var d := DayIndexFor(Get(w.enrollments, userId), z, forDate);
    var delivery := ToUtc(forDate, DeliveryTime(e), z);
    var tooLate := now > delivery + 60 * GraceMinutes(cfg);
    DayPlan(userId, forDate, d, delivery, ReminderAt(cfg, delivery, z), !tooLate || offset == 1,
            Lookup(w.lessons, d), Lookup(w.quests, d), Q.ListByDay(w.questionnaires, d, DAY_QTYPES))
  }

  predicate HasContent(p: DayPlan) {
    p.lesson.Some? || p.quest.Some? || p.questionnaires != []
  }

  // ------------------------------------------------------------ candidates

  function LessonCandidate(userId: int, runAt: Instant, d: int, forDate: Option<Day>, l: LessonRow): Candidate {
    var key := JobKey(d, Some(l.id), None, LessonVersion(l));
    var card := LessonCard(l.title, l.description, Some(l.videoUrl), l.pointsViewed);
    Candidate(userId, runAt, key, DayLesson(key, Some(d), forDate, Some(card)))
  }

  function QuestCandidate(userId: int, runAt: Instant, d: int, forDate: Option<Day>, q: QuestRow): Candidate {
    var key := JobKey(d, None, Some(q.id), QuestVersion(q));
    Candidate(userId, runAt, key, DayQuest(key, Some(d), forDate, Some(QuestCard(q.prompt, q.points, q.photoFileId))))
  }

  /** `questionnaire_content_type`: the ledger type of a day questionnaire. */
  function QuestionnaireContentType(qid: int): string {
    "questionnaire:" + IntToString(qid)
  }

  function QuestionnaireKey(qid: int, d: int, forDate: Day): string {
    "questionnaire:" + IntToString(qid) + ":day=" + IntToString(d) + ":date=" + IsoDate(forDate)
  }

  function QuestionnaireCandidate(userId: int, runAt: Instant, d: int, forDate: Day, qid: int): Candidate {
    var key := QuestionnaireKey(qid, d, forDate);
    Candidate(userId, runAt, key, QuestionnaireBroadcast(key, Some(qid), Some(d), Some(forDate), false))
  }

  function ReminderKey(d: int, forDate: Day): string {
    "daily_reminder:day=" + IntToString(d) + ":date=" + IsoDate(forDate)
  }

  function ReminderCandidate(p: DayPlan): Candidate {
    var key := ReminderKey(p.dayIndex, p.forDate);
    Candidate(p.userId, p.reminderAt, key, DailyReminder(key, Some(p.dayIndex), Some(p.forDate)))
  }

  /** The ledger row that, once present, stops a candidate of this day. */
  function LedgerKey(p: DayPlan, contentType: string): SentKey {
    SentKey(p.userId, contentType, p.dayIndex, p.forDate)
  }

  function LessonPart(p: DayPlan, sent: set<SentKey>): seq<Candidate> {
    if p.lesson.Some? && LedgerKey(p, "lesson") !in sent
    then [LessonCandidate(p.userId, p.runAt, p.dayIndex, Some(p.forDate), p.lesson.value)] else []
  }

  function QuestPart(p: DayPlan, sent: set<SentKey>): seq<Candidate> {
    if p.quest.Some? && LedgerKey(p, "quest") !in sent
    then [QuestCandidate(p.userId, p.runAt, p.dayIndex, Some(p.forDate), p.quest.value)] else []
  }

  /** The day questionnaires, in list order, whose ledger row is absent. */
  function QuestionnairePart(p: DayPlan, qs: seq<Q.Questionnaire>, sent: set<SentKey>): seq<Candidate> {
    if qs == [] then []
    else
      var q := qs[|qs| - 1];
      var rest := QuestionnairePart(p, qs[..|qs| - 1], sent);
      if LedgerKey(p, QuestionnaireContentType(q.id)) in sent then rest
      else rest + [QuestionnaireCandidate(p.userId, p.runAt, p.dayIndex, p.forDate, q.id)]
  }

  function ReminderPart(p: DayPlan, sent: set<SentKey>): seq<Candidate> {
    if LedgerKey(p, "daily_reminder") in sent then [] else [ReminderCandidate(p)]
  }

  /** One day's candidates: nothing for a day without content; otherwise the
      lesson, the quest and the day questionnaires when still within the grace
      window (or for tomorrow), then the backlog reminder regardless of grace. */
  function DayCandidates(p: DayPlan, sent: set<SentKey>): seq<Candidate> {
    if !HasContent(p) then []
    else
      var auto := if p.canAutosend then LessonPart(p, sent) + QuestPart(p, sent) + QuestionnairePart(p, p.questionnaires, sent) else [];
      auto + ReminderPart(p, sent)
  }

  /** `_schedule_for_user`: today's then tomorrow's candidates, for the given
      enrollment row or else the user's active enrollment. */
  function UserCandidates(w: World, cfg: ScheduleSettings, userId: int, now: Instant, row: Option<Enrollment>): seq<Candidate> {
    var e := if row.Some? then row else Get(w.enrollments, userId);
    if e.None? then []
    else
      var z := UserZone(w.users, userId, cfg.tzDb, cfg.defaultZone);
      DayCandidates(PlanFor(w, cfg, userId, e.value, z, now, 0), w.sent)
        + DayCandidates(PlanFor(w, cfg, userId, e.value, z, now, 1), w.sent)
  }

  /** `schedule_due_jobs`: every active enrollment in turn. */
  function DueCandidates(w: World, cfg: ScheduleSettings, now: Instant, active: seq<Enrollment>): seq<Candidate> {
    if active == [] then []
    else
      var e := active[|active| - 1];
      DueCandidates(w, cfg, now, active[..|active| - 1]) + UserCandidates(w, cfg, e.userId, now, Some(e))
  }

  /** `enqueue_day_now`: the day's lesson, quest and every day questionnaire,
      due immediately, with no ledger check and no grace window. */
  function NowCandidates(w: World, cfg: ScheduleSettings, userId: int, d: int, now: Instant): seq<Candidate> {
    var lesson, quest := Lookup(w.lessons, d), Lookup(w.quests, d);
    var qs := Q.ListByDay(w.questionnaires, d, DAY_QTYPES);
    if lesson.None? && quest.None? && qs == [] then []
    else
      var forDate := LocalDate(now, UserZone(w.users, userId, cfg.tzDb, cfg.defaultZone));
      var l := if lesson.Some? then [LessonCandidate(userId, now, d, None, lesson.value)] else [];
      var q := if quest.Some? then [QuestCandidate(userId, now, d, None, quest.value)] else [];
      l + q + AllQuestionnaires(userId, now, d, forDate, qs)
  }

  function AllQuestionnaires(userId: int, runAt: Instant, d: int, forDate: Day, qs: seq<Q.Questionnaire>): seq<Candidate> {
    if qs == [] then []
    else
      var last := QuestionnaireCandidate(userId, runAt, d, forDate, qs[|qs| - 1].id);
      AllQuestionnaires(userId, runAt, d, forDate, qs[..|qs| - 1]) + [last]
  }

  // ------------------------------------------------------------ broadcast

  /** The `qcast` candidate of one user: today's local `hh:mm`, or five seconds
      from now once that has passed; the key names the local date of the run. */
  function BroadcastCandidate(w: World, cfg: ScheduleSettings, qid: int, c: HhMm, hhmm: string, optional: bool,
                              now: Instant, uid: int): Candidate {
    var z := UserZone(w.users, uid, cfg.tzDb, cfg.defaultZone);
    var target := ToUtc(LocalDate(now, z), c, z);
    var run := if target < now then now + 5 else target;
    var key := "qcast:" + IntToString(qid) + ":" + IsoDate(LocalDate(run, z)) + ":" + hhmm;
    Candidate(uid, run, key, QuestionnaireBroadcast(key, Some(qid), None, None, optional))
  }

  function BroadcastCandidates(w: World, cfg: ScheduleSettings, qid: int, c: HhMm, hhmm: string, optional: bool,
                               now: Instant, uids: seq<int>): seq<Candidate> {
    if uids == [] then []
    else
      var last := BroadcastCandidate(w, cfg, qid, c, hhmm, optional, now, uids[|uids| - 1]);
      BroadcastCandidates(w, cfg, qid, c, hhmm, optional, now, uids[..|uids| - 1]) + [last]
  }

  /** `hh, mm = [int(x) for x in hhmm.split(":")]`: None where that raises. */
  function BroadcastTime(hhmm: string): Option<(int, int)> {
    var p := Split(hhmm, ':');
    if |p| != 2 then None
    else match (ParseInt(p[0]), ParseInt(p[1]))
      case (Some(h), Some(m)) => Some((h, m))
      case _ => None
  }

  // ------------------------------------------------------------ properties

  /** Every candidate belongs to the planned user and carries its key in its payload. */
  lemma {:induction false} QuestionnairePartFacts(p: DayPlan, qs: seq<Q.Questionnaire>, sent: set<SentKey>)
    ensures forall c :: c in QuestionnairePart(p, qs, sent) ==>
      WellKeyed(c) && c.userId == p.userId && c.runAt == p.runAt && c.payload.QuestionnaireBroadcast?
      && c.payload.questionnaireId.Some?
      && LedgerKey(p, QuestionnaireContentType(c.payload.questionnaireId.value)) !in sent
  {
    if qs != [] {
      QuestionnairePartFacts(p, qs[..|qs| - 1], sent);
    }
  }

  /** A day questionnaire is queued exactly when it is listed for the day and its
      ledger row is absent. */
  lemma {:induction false} QuestionnairePartExact(p: DayPlan, qs: seq<Q.Questionnaire>, sent: set<SentKey>, q: Q.Questionnaire)
    requires q in qs
    ensures QuestionnaireCandidate(p.userId, p.runAt, p.dayIndex, p.forDate, q.id) in QuestionnairePart(p, qs, sent)
      <==> LedgerKey(p, QuestionnaireContentType(q.id)) !in sent
  {
    var c := QuestionnaireCandidate(p.userId, p.runAt, p.dayIndex, p.forDate, q.id);
    var init := qs[..|qs| - 1];
    var last := qs[|qs| - 1];
    var rest := QuestionnairePart(p, init, sent);
    if q != last {
      assert q in init;
      QuestionnairePartExact(p, init, sent, q);
    } else if LedgerKey(p, QuestionnaireContentType(q.id)) in sent {
      QuestionnairePartFacts(p, init, sent);
      assert QuestionnairePart(p, qs, sent) == rest;
    } else {
      assert QuestionnairePart(p, qs, sent) == rest + [c];
    }
  }

  /** A candidate of day `p` is well keyed, belongs to the day's user, and the
      ledger row of its content type is absent. */
  predicate Guarded(p: DayPlan, sent: set<SentKey>, c: Candidate) {
    WellKeyed(c) && c.userId == p.userId
    && (c.payload.DayLesson? ==> LedgerKey(p, "lesson") !in sent)
    && (c.payload.DayQuest? ==> LedgerKey(p, "quest") !in sent)
    && (c.payload.DailyReminder? ==> LedgerKey(p, "daily_reminder") !in sent)
    && (c.payload.QuestionnaireBroadcast? ==>
          c.payload.questionnaireId.Some?
          && LedgerKey(p, QuestionnaireContentType(c.payload.questionnaireId.value)) !in sent)
  }

  /** The planner's candidates respect the sent ledger: no candidate's ledger
      row is already present. */
  lemma DayCandidatesGuarded(p: DayPlan, sent: set<SentKey>)
    ensures forall c :: c in DayCandidates(p, sent) ==> Guarded(p, sent, c)
  {
    QuestionnairePartFacts(p, p.questionnaires, sent);
    assert forall c :: c in QuestionnairePart(p, p.questionnaires, sent) ==> Guarded(p, sent, c);
    assert forall c :: c in LessonPart(p, sent) + QuestPart(p, sent) + ReminderPart(p, sent) ==> Guarded(p, sent, c);
  }

  /** The reminder is planned only for a day with content, and then whenever its
      ledger row is absent, inside or outside the grace window. */
  lemma ReminderNeedsContent(p: DayPlan, sent: set<SentKey>)
    ensures DayCandidates(p, sent) != [] ==> HasContent(p)
    ensures ReminderCandidate(p) in DayCandidates(p, sent) <==> HasContent(p) && LedgerKey(p, "daily_reminder") !in sent
  {
    QuestionnairePartFacts(p, p.questionnaires, sent);
  }

  /** The grace window: for today, content jobs are created only while `now` is
      at most the grace minutes past the delivery instant; tomorrow is always
      eligible. */
  lemma GraceWindow(w: World, cfg: ScheduleSettings, userId: int, e: Enrollment, z: Zone, now: Instant)
    ensures var p := PlanFor(w, cfg, userId, e, z, now, 0);
      forall c :: c in DayCandidates(p, w.sent) && !c.payload.DailyReminder? ==>
        now <= ToUtc(LocalDate(now, z), DeliveryTime(e), z) + 60 * GraceMinutes(cfg)
    ensures PlanFor(w, cfg, userId, e, z, now, 1).canAutosend
  {
    var p := PlanFor(w, cfg, userId, e, z, now, 0);
    if !p.canAutosend {
      OnlyReminderWhenLate(p, w.sent);
    } else {
      assert p.runAt == ToUtc(LocalDate(now, z), DeliveryTime(e), z);
    }
  }

  /** Past the grace window, a day offers only its reminder. */
  lemma OnlyReminderWhenLate(p: DayPlan, sent: set<SentKey>)
    requires !p.canAutosend
    ensures forall c :: c in DayCandidates(p, sent) ==> c.payload.DailyReminder?
  {
    assert DayCandidates(p, sent) == [] || DayCandidates(p, sent) == ReminderPart(p, sent);
  }

  /** Within the window, a lesson whose ledger row is absent is offered under
      its exact key `day:<d>:l<id>:q:q0:v:<version>`. */
  lemma LessonOffered(p: DayPlan, sent: set<SentKey>)
    requires p.canAutosend && p.lesson.Some? && LedgerKey(p, "lesson") !in sent
    ensures exists c :: (c in DayCandidates(p, sent) && c.payload.DayLesson?
                         && c.key == JobKey(p.dayIndex, Some(p.lesson.value.id), None, LessonVersion(p.lesson.value)))
  {
    var c := LessonCandidate(p.userId, p.runAt, p.dayIndex, Some(p.forDate), p.lesson.value);
    assert DayCandidates(p, sent)[0] == c;
  }

  lemma UserCandidatesWellKeyed(w: World, cfg: ScheduleSettings, userId: int, now: Instant, row: Option<Enrollment>)
    ensures forall c :: c in UserCandidates(w, cfg, userId, now, row) ==> WellKeyed(c) && c.userId == userId
  {
    var e := if row.Some? then row else Get(w.enrollments, userId);
    if e.Some? {
      var z := UserZone(w.users, userId, cfg.tzDb, cfg.defaultZone);
      var p0 := PlanFor(w, cfg, userId, e.value, z, now, 0);
      var p1 := PlanFor(w, cfg, userId, e.value, z, now, 1);
      PlansWellKeyed(p0, p1, w.sent, userId);
      assert UserCandidates(w, cfg, userId, now, row) == DayCandidates(p0, w.sent) + DayCandidates(p1, w.sent);
    }
  }

  /** Today's and tomorrow's plans of one user give well-keyed candidates of that user. */
  lemma PlansWellKeyed(p0: DayPlan, p1: DayPlan, sent: set<SentKey>, userId: int)
    requires p0.userId == userId && p1.userId == userId
    ensures forall c :: c in DayCandidates(p0, sent) + DayCandidates(p1, sent) ==> WellKeyed(c) && c.userId == userId
  {
    DayCandidatesGuarded(p0, sent);
    DayCandidatesGuarded(p1, sent);
  }

  lemma {:induction false} AllQuestionnairesWellKeyed(userId: int, runAt: Instant, d: int, forDate: Day, qs: seq<Q.Questionnaire>)
    ensures forall c :: c in AllQuestionnaires(userId, runAt, d, forDate, qs) ==> WellKeyed(c) && c.userId == userId
    decreases |qs|
  {
    if qs != [] {
      AllQuestionnairesWellKeyed(userId, runAt, d, forDate, qs[..|qs| - 1]);
    }
  }

  lemma NowCandidatesWellKeyed(w: World, cfg: ScheduleSettings, userId: int, d: int, now: Instant)
    ensures forall c :: c in NowCandidates(w, cfg, userId, d, now) ==> WellKeyed(c) && c.userId == userId
  {
    var forDate := LocalDate(now, UserZone(w.users, userId, cfg.tzDb, cfg.defaultZone));
    AllQuestionnairesWellKeyed(userId, now, d, forDate, Q.ListByDay(w.questionnaires, d, DAY_QTYPES));
  }

  lemma {:induction false} BroadcastCandidatesWellKeyed(w: World, cfg: ScheduleSettings, qid: int, c: HhMm, hhmm: string,
                                                        optional: bool, now: Instant, uids: seq<int>)
    ensures forall x :: x in BroadcastCandidates(w, cfg, qid, c, hhmm, optional, now, uids) ==> WellKeyed(x)
    decreases |uids|
  {
    if uids != [] {
      BroadcastCandidatesWellKeyed(w, cfg, qid, c, hhmm, optional, now, uids[..|uids| - 1]);
    }
  }

  lemma {:induction false} DueCandidatesWellKeyed(w: World, cfg: ScheduleSettings, now: Instant, active: seq<Enrollment>)
    ensures forall c :: c in DueCandidates(w, cfg, now, active) ==> WellKeyed(c)
  {
    if active != [] {
      var e := active[|active| - 1];
      DueCandidatesWellKeyed(w, cfg, now, active[..|active| - 1]);
      UserCandidatesWellKeyed(w, cfg, e.userId, now, Some(e));
    }
  }

  lemma DueCandidatesSnoc(w: World, cfg: ScheduleSettings, now: Instant, active: seq<Enrollment>, i: int)
    requires 0 <= i < |active|
    ensures DueCandidates(w, cfg, now, active[..i + 1])
      == DueCandidates(w, cfg, now, active[..i]) + UserCandidates(w, cfg, active[i].userId, now, Some(active[i]))
  {
    assert active[..i + 1][..i] == active[..i];
  }

  /** A second planning run over unchanged tables creates no job. */
  lemma ScheduleRerunCreatesNothing(jobs: seq<Job>, w: World, cfg: ScheduleSettings, userId: int, now: Instant,
                                    row: Option<Enrollment>)
    ensures var cs := UserCandidates(w, cfg, userId, now, row);
      CreatedBy(InsertAbsent(jobs, cs), cs) == 0
  {
    UserCandidatesWellKeyed(w, cfg, userId, now, row);
    RerunCreatesNothing(jobs, UserCandidates(w, cfg, userId, now, row));
  }

  /** The broadcast never runs in the past; a time still ahead today is kept
      exactly, on today's local date. */
  lemma BroadcastRunTime(w: World, cfg: ScheduleSettings, qid: int, c: HhMm, hhmm: string, optional: bool,
                         now: Instant, uid: int)
    requires c.Valid()
    ensures var b := BroadcastCandidate(w, cfg, qid, c, hhmm, optional, now, uid);
      var z := UserZone(w.users, uid, cfg.tzDb, cfg.defaultZone);
      b.runAt >= now && b.userId == uid && WellKeyed(b)
      && (ToUtc(LocalDate(now, z), c, z) >= now ==>
            b.runAt == ToUtc(LocalDate(now, z), c, z) && LocalHhMm(b.runAt, z) == c
            && b.key == "qcast:" + IntToString(qid) + ":" + IsoDate(LocalDate(now, z)) + ":" + hhmm)
      && (ToUtc(LocalDate(now, z), c, z) < now ==> b.runAt == now + 5)
  {
    var z := UserZone(w.users, uid, cfg.tzDb, cfg.defaultZone);
    ToUtcRoundTrip(LocalDate(now, z), c, z);
  }

  // ------------------------------------------------------------ the service

  class ScheduleService {
    const cfg: ScheduleSettings
    const outbox: OutboxRepo
    const sentJobs: SentJobsRepo
    const content: ContentRepo
    const questionnaires: Q.QuestionnaireRepo
    const enroll: EnrollmentRepo
    const users: UsersRepo

    constructor (cfg: ScheduleSettings, outbox: OutboxRepo, sentJobs: SentJobsRepo, content: ContentRepo,
                 questionnaires: Q.QuestionnaireRepo, enroll: EnrollmentRepo, users: UsersRepo)
      ensures this.cfg == cfg && this.outbox == outbox && this.sentJobs == sentJobs && this.content == content
      ensures this.questionnaires == questionnaires && this.enroll == enroll && this.users == users
    {
      this.cfg := cfg;
      this.outbox := outbox;
      this.sentJobs := sentJobs;
      this.content := content;
      this.questionnaires := questionnaires;
      this.enroll := enroll;
      this.users := users;
    }

    /** The tables the planner reads. */
    function Snapshot(): World
      reads sentJobs, content, questionnaires, enroll, users
    {
      World(content.lessons, content.quests, questionnaires.rows, enroll.rows, users.rows, sentJobs.rows)
    }

    /** For each candidate in order: `if not outbox.exists_job_for(user, key):
        outbox.create_job(...)`; the count is the number of jobs created. */
    method OfferAll(cs: seq<Candidate>) returns (created: nat)
      modifies outbox
      ensures outbox.jobs == InsertAbsent(old(outbox.jobs), cs)
      ensures created == |outbox.jobs| - |old(outbox.jobs)|
    {
      ghost var start := outbox.jobs;
      created := 0;
      var i := 0;
      while i < |cs|
        invariant 0 <= i <= |cs|
        invariant outbox.jobs == InsertAbsent(start, cs[..i])
        invariant created == |outbox.jobs| - |start|
      {
        InsertAbsentSnoc(start, cs[..i], cs[i]);
        assert cs[..i + 1] == cs[..i] + [cs[i]];
        if !outbox.ExistsJobFor(cs[i].userId, cs[i].key) {
          var id := outbox.CreateJob(cs[i].userId, cs[i].runAt, cs[i].payload);
          created := created + 1;
        }
        i := i + 1;
      }
      assert cs[..i] == cs;
    }

    /** `_schedule_for_user`: plan today, then tomorrow, for the given enrollment
        row or else the user's active enrollment; the count is the number of jobs
        created. */
    method ScheduleForUser(userId: int, now: Instant, row: Option<Enrollment>) returns (created: nat)
      requires outbox.Valid()
      modifies outbox
      ensures outbox.Valid()
      ensures outbox.jobs == InsertAbsent(old(outbox.jobs), UserCandidates(Snapshot(), cfg, userId, now, row))
      ensures created == CreatedBy(old(outbox.jobs), UserCandidates(Snapshot(), cfg, userId, now, row))
    {
      created := PlanUser(Snapshot(), userId, now, row);
    }

    /** The body of `_schedule_for_user` over the tables as read at the start
        of the run. */
    method PlanUser(w: World, userId: int, now: Instant, row: Option<Enrollment>) returns (created: nat)
      requires outbox.Valid()
      modifies outbox
      ensures outbox.Valid()
      ensures outbox.jobs == InsertAbsent(old(outbox.jobs), UserCandidates(w, cfg, userId, now, row))
      ensures created == CreatedBy(old(outbox.jobs), UserCandidates(w, cfg, userId, now, row))
    {
      ghost var cs := UserCandidates(w, cfg, userId, now, row);
      UserCandidatesWellKeyed(w, cfg, userId, now, row);
      InsertAbsentKeepsUnique(outbox.jobs, cs);
      var e := if row.Some? then row else Get(w.enrollments, userId);
      if e.None? {
        return 0;
      }
      var z := UserZone(w.users, userId, cfg.tzDb, cfg.defaultZone);
      ghost var start := outbox.jobs;
      var today := DayCandidates(PlanFor(w, cfg, userId, e.value, z, now, 0), w.sent);
      var tomorrow := DayCandidates(PlanFor(w, cfg, userId, e.value, z, now, 1), w.sent);
      assert cs == today + tomorrow;
      var a := OfferAll(today);
      var b := OfferAll(tomorrow);
      InsertAbsentConcat(start, today, tomorrow);
      created := a + b;
    }

    /** `schedule_due_jobs`: every active enrollment, with its own row. */
    method ScheduleDueJobs(now: Instant) returns (created: nat)
      requires outbox.Valid()
      modifies outbox
      ensures outbox.Valid()
      ensures outbox.jobs == InsertAbsent(old(outbox.jobs), DueCandidates(Snapshot(), cfg, now, ListActive(enroll.rows)))
      ensures created == |outbox.jobs| - |old(outbox.jobs)|
    {
      var w := Snapshot();
      var active := ListActive(w.enrollments);
      created := PlanAll(w, now, active);
    }

    /** The loop of `schedule_due_jobs`. */
    method PlanAll(w: World, now: Instant, active: seq<Enrollment>) returns (created: nat)
      requires outbox.Valid()
      modifies outbox
      ensures outbox.Valid()
      ensures outbox.jobs == InsertAbsent(old(outbox.jobs), DueCandidates(w, cfg, now, active))
      ensures created == |outbox.jobs| - |old(outbox.jobs)|
    {
      ghost var start := outbox.jobs;
      created := 0;
      var i := 0;
      while i < |active|
        invariant 0 <= i <= |active|
        invariant outbox.Valid()
        invariant outbox.jobs == InsertAbsent(start, DueCandidates(w, cfg, now, active[..i]))
        invariant created == |outbox.jobs| - |start|
      {
        var e := active[i];
        ghost var before := DueCandidates(w, cfg, now, active[..i]);
        DueCandidatesSnoc(w, cfg, now, active, i);
        var n := PlanUser(w, e.userId, now, Some(e));
        InsertAbsentConcat(start, before, UserCandidates(w, cfg, e.userId, now, Some(e)));
        created := created + n;
        i := i + 1;
      }
      assert active[..i] == active;
    }

    /** `enqueue_day_now`: the day's content, due now, with no ledger check; the
        count is the number of jobs created. */
    method EnqueueDayNow(userId: int, d: int, now: Instant) returns (created: nat)
      requires outbox.Valid()
      modifies outbox
      ensures outbox.Valid()
      ensures outbox.jobs == InsertAbsent(old(outbox.jobs), NowCandidates(Snapshot(), cfg, userId, d, now))
      ensures created == |outbox.jobs| - |old(outbox.jobs)|
    {
      var cs := NowCandidates(Snapshot(), cfg, userId, d, now);
      NowCandidatesWellKeyed(Snapshot(), cfg, userId, d, now);
      InsertAbsentKeepsUnique(outbox.jobs, cs);
      created := OfferAll(cs);
    }

    /** `schedule_questionnaire_broadcast`: None where the `hh:mm` argument makes
        Python raise (not two integers, or out of range once a user is reached);
        otherwise each listed user without a live job under the `qcast` key gets
        one, and the result is the number created. */
    method ScheduleQuestionnaireBroadcast(qid: int, hhmm: string, optional: bool, now: Instant)
      returns (r: Option<nat>)
      requires outbox.Valid()
      modifies outbox
      ensures outbox.Valid()
      ensures r.None? ==> outbox.jobs == old(outbox.jobs)
      ensures r.Some? <==> (BroadcastTime(hhmm).Some?
        && (ListUserIds(users.rows, 20000) == [] || HhMm(BroadcastTime(hhmm).value.0, BroadcastTime(hhmm).value.1).Valid()))
      ensures r.Some? && ListUserIds(users.rows, 20000) != [] ==>
        var t := BroadcastTime(hhmm).value;
        HhMm(t.0, t.1).Valid()
        && outbox.jobs == InsertAbsent(old(outbox.jobs), BroadcastCandidates(Snapshot(), cfg, qid, HhMm(t.0, t.1),
                                       hhmm, optional, now, ListUserIds(users.rows, 20000)))
        && r.value == |outbox.jobs| - |old(outbox.jobs)|
      ensures r.Some? && ListUserIds(users.rows, 20000) == [] ==> r.value == 0 && outbox.jobs == old(outbox.jobs)
    {
      var t := BroadcastTime(hhmm);
      if t.None? {
        return None;
      }
      var c := HhMm(t.value.0, t.value.1);
      var uids := ListUserIds(users.rows, 20000);
      if uids == [] {
        return Some(0);
      }
      if !c.Valid() {
        return None;
      }
      var cs := BroadcastCandidates(Snapshot(), cfg, qid, c, hhmm, optional, now, uids);
      BroadcastCandidatesWellKeyed(Snapshot(), cfg, qid, c, hhmm, optional, now, uids);
      InsertAbsentKeepsUnique(outbox.jobs, cs);
      var n := OfferAll(cs);
      r := Some(n);
    }

    /** `reschedule_user`: cancel the user's future pending day jobs (by kind, and
        the day questionnaires by key), then plan today and tomorrow again from
        the user's active enrollment. */
    method RescheduleUser(userId: int, now: Instant) returns (created: nat)
      requires outbox.Valid()
      modifies outbox
      ensures outbox.Valid()
      ensures var cancelled := CancelIn(CancelIn(old(outbox.jobs), UserKinds(userId, DAY_KINDS), now),
                                        DayQuestionnaires(userId), now);
        outbox.jobs == InsertAbsent(cancelled, UserCandidates(Snapshot(), cfg, userId, now, None))
        && created == CreatedBy(cancelled, UserCandidates(Snapshot(), cfg, userId, now, None))
    {
      var n1 := outbox.CancelFuture(UserKinds(userId, DAY_KINDS), now);
      var n2 := outbox.CancelFuture(DayQuestionnaires(userId), now);
      created := ScheduleForUser(userId, now, None);
    }
  }
}
