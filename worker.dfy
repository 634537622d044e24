/** The outbox worker (`scheduling/worker.py`): `tick` runs the planners, then
    one pass takes at most 50 due pending jobs, earliest first, and hands each
    to the handler of its kind; every job ends as sent or as failed. A
    `daily_reminder` lists what the user left unfinished on every course day
    so far (the backlog scan). */
module Worker {
  import opened Common
  import opened Clock
  import opened Outbox
  import opened SentJobs
  import opened Deliveries
  import opened Content
  import Q = Questionnaires
  import opened Points
  import opened Answers
  import opened Progress
  import opened UserState
  import opened HabitOccurrences
  import opened Learning
  import opened Users
  import opened ScheduleRules
  import Schedule
  import Habits
  import HabitPlanner
  import PersonalPlanner
  import PersonalReminders
  import Enrollment

  // ------------------------------------------------------ the backlog scan

  /** The tables the backlog scan reads. */
  datatype Learner = Learner(lessons: map<int, LessonRow>, quests: map<int, QuestRow>,
                             questionnaires: seq<Q.Questionnaire>, responses: seq<Q.Response>,
                             points: seq<PointsEntry>, answers: seq<Answer>)

  datatype Track = LessonTrack | QuestTrack | QuestionnaireTrack

  /** One line of the reminder: what is unfinished, and on which day. */
  datatype BacklogItem = BacklogItem(track: Track, day: int)

  /** Day `d` has an unviewed lesson, an unanswered quest, or a day
      questionnaire (manual or daily) without a response of this user. */
  predicate Unfinished(v: Learner, u: int, t: Track, d: int) {
    match t
    case LessonTrack => d in v.lessons && !HasViewedLesson(v.points, u, d)
    case QuestTrack => d in v.quests && !HasQuestAnswer(v.answers, u, d)
    case QuestionnaireTrack =>
      exists q :: q in Q.ListByDay(v.questionnaires, d, Schedule.DAY_QTYPES) && !Q.HasUserResponse(v.responses, u, q.id)
  }

  /** Pending, as a relation on tracks and days. */
  function PendingOf(v: Learner, u: int): (Track, int) -> bool {
    (t, d) => Unfinished(v, u, t, d)
  }

  function ItemIf(p: (Track, int) -> bool, t: Track, d: int): seq<BacklogItem> {
    if p(t, d) then [BacklogItem(t, d)] else []
  }

  /** One day's lines: lesson, then quest, then questionnaire. */
  function DayItems(p: (Track, int) -> bool, d: int): seq<BacklogItem> {
    ItemIf(p, LessonTrack, d) + ItemIf(p, QuestTrack, d) + ItemIf(p, QuestionnaireTrack, d)
  }

  /** The lines for days 1..n, day by day. */
  function Backlog(p: (Track, int) -> bool, n: int): seq<BacklogItem>
    decreases n
  {
    if n <= 0 then [] else Backlog(p, n - 1) + DayItems(p, n)
  }

  /** `first_lesson_day` / `first_quest_day`: the day scan keeps the first
      day with something pending on the track. */
  function FirstPending(p: (Track, int) -> bool, t: Track, n: int): Option<int>
    decreases n
  {
    if n <= 0 then None
    else
      var r := FirstPending(p, t, n - 1);
      if r.Some? then r else if p(t, n) then Some(n) else None
  }

  /** The first pending day is the least day in 1..n pending on the track,
      and None when there is none. */
  lemma {:induction false} FirstPendingLeast(p: (Track, int) -> bool, t: Track, n: int)
    ensures var r := FirstPending(p, t, n);
      r.Some? ==> (1 <= r.value <= n && p(t, r.value) && forall e :: 1 <= e < r.value ==> !p(t, e))
    ensures FirstPending(p, t, n).None? <==> forall e :: 1 <= e <= n ==> !p(t, e)
    decreases n
  {
    if n > 0 {
      FirstPendingLeast(p, t, n - 1);
    }
  }

  /** Lines sort by day, then lesson < quest < questionnaire. */
  function Rank(it: BacklogItem): int {
    3 * it.day + match it.track case LessonTrack => 0 case QuestTrack => 1 case QuestionnaireTrack => 2
  }

  /** Lines in strictly ascending rank. */
  predicate Ascending(b: seq<BacklogItem>) {
    forall i, j :: 0 <= i < j < |b| ==> Rank(b[i]) < Rank(b[j])
  }

  lemma DayItemsMembers(p: (Track, int) -> bool, n: int, it: BacklogItem)
    ensures it in DayItems(p, n) <==> it.day == n && p(it.track, it.day)
  {
    var l, q, r := ItemIf(p, LessonTrack, n), ItemIf(p, QuestTrack, n), ItemIf(p, QuestionnaireTrack, n);
    assert DayItems(p, n) == l + q + r;
    assert it in l + q + r <==> it in l || it in q || it in r;
    match it.track
    case LessonTrack =>
      assert it !in q && it !in r;
    case QuestTrack =>
      assert it !in l && it !in r;
    case QuestionnaireTrack =>
      assert it !in l && it !in q;
  }

  /** A line is in the backlog exactly when its day is in 1..n and that track
      is pending on that day. */
  lemma {:induction false} BacklogItems(p: (Track, int) -> bool, n: int, it: BacklogItem)
    ensures it in Backlog(p, n) <==> 1 <= it.day <= n && p(it.track, it.day)
    decreases n
  {
    if n > 0 {
      BacklogItems(p, n - 1, it);
      DayItemsMembers(p, n, it);
      assert Backlog(p, n) == Backlog(p, n - 1) + DayItems(p, n);
    }
  }

  /** One day's lines lie in that day's rank band, in ascending order. */
  lemma DayItemsOrdered(p: (Track, int) -> bool, n: int)
    ensures forall it :: it in DayItems(p, n) ==> 3 * n <= Rank(it) <= 3 * n + 2
    ensures Ascending(DayItems(p, n))
  {
  }

  /** Lines come in ascending rank: days ascending, and within a day at most
      one line per track, lesson first, questionnaire last. */
  lemma {:induction false} BacklogOrdered(p: (Track, int) -> bool, n: int)
    ensures Ascending(Backlog(p, n))
    decreases n
  {
    if n > 0 {
      BacklogOrdered(p, n - 1);
      var a := Backlog(p, n - 1);
      var m := DayItems(p, n);
      forall k | 0 <= k < |a|
        ensures Rank(a[k]) < 3 * n
      {
        BacklogItems(p, n - 1, a[k]);
      }
      DayItemsOrdered(p, n);
      var b := a + m;
      assert Backlog(p, n) == b;
      forall i, j | 0 <= i < j < |b|
        ensures Rank(b[i]) < Rank(b[j])
      {
        if j < |a| {
          assert b[i] == a[i] && b[j] == a[j];
        } else if i < |a| {
          assert b[i] == a[i] && b[j] == m[j - |a|];
          assert m[j - |a|] in m;
        } else {
          assert b[i] == m[i - |a|] && b[j] == m[j - |a|];
        }
      }
    }
  }

  /** The backlog is empty exactly when nothing is pending on any day, and
      then there is no first lesson or quest day. */
  lemma BacklogEmptyIff(p: (Track, int) -> bool, n: int)
    ensures Backlog(p, n) == [] <==> forall t, d :: 1 <= d <= n ==> !p(t, d)
    ensures Backlog(p, n) == [] ==> FirstPending(p, LessonTrack, n).None? && FirstPending(p, QuestTrack, n).None?
  {
    FirstPendingLeast(p, LessonTrack, n);
    FirstPendingLeast(p, QuestTrack, n);
    if Backlog(p, n) != [] {
      BacklogItems(p, n, Backlog(p, n)[0]);
    }
    forall t, d | 1 <= d <= n && p(t, d)
      ensures Backlog(p, n) != []
    {
      BacklogItems(p, n, BacklogItem(t, d));
    }
  }

  /** One step of the scan: day `d` appends its lines and may set the first
      lesson or quest day. */
  lemma BacklogStep(p: (Track, int) -> bool, d: int, lessonDue: bool, questDue: bool, questionnaireDue: bool)
    requires d >= 1
    requires lessonDue == p(LessonTrack, d) && questDue == p(QuestTrack, d) && questionnaireDue == p(QuestionnaireTrack, d)
    ensures Backlog(p, d) == Backlog(p, d - 1)
      + (if lessonDue then [BacklogItem(LessonTrack, d)] else [])
      + (if questDue then [BacklogItem(QuestTrack, d)] else [])
      + (if questionnaireDue then [BacklogItem(QuestionnaireTrack, d)] else [])
    ensures FirstPending(p, LessonTrack, d)
      == if FirstPending(p, LessonTrack, d - 1).None? && lessonDue then Some(d) else FirstPending(p, LessonTrack, d - 1)
    ensures FirstPending(p, QuestTrack, d)
      == if FirstPending(p, QuestTrack, d - 1).None? && questDue then Some(d) else FirstPending(p, QuestTrack, d - 1)
  {
  }

  /** Before day 1 nothing is scanned. */
  lemma ScanBeforeDayOne(p: (Track, int) -> bool, n: int)
    requires n <= 0
    ensures Backlog(p, n) == [] && FirstPending(p, LessonTrack, n) == None && FirstPending(p, QuestTrack, n) == None
  {
  }

  /** The questionnaire check of one day: some day questionnaire has no
      response of this user yet. */
  method QuestionnaireDue(v: Learner, u: int, d: int) returns (due: bool)
    ensures due == Unfinished(v, u, QuestionnaireTrack, d)
  {
    var qs := Q.ListByDay(v.questionnaires, d, Schedule.DAY_QTYPES);
    due := false;
    var i := 0;
    while i < |qs|
      invariant 0 <= i <= |qs|
      invariant due == exists k :: 0 <= k < i && !Q.HasUserResponse(v.responses, u, qs[k].id)
    {
      if !Q.HasUserResponse(v.responses, u, qs[i].id) {
        due := true;
      }
      i := i + 1;
    }
    assert due == exists q :: q in qs && !Q.HasUserResponse(v.responses, u, q.id);
  }

  /** What is unfinished on day `d`, track by track. */
  method DayDue(v: Learner, u: int, d: int) returns (lessonDue: bool, questDue: bool, questionnaireDue: bool)
    ensures lessonDue == PendingOf(v, u)(LessonTrack, d)
    ensures questDue == PendingOf(v, u)(QuestTrack, d)
    ensures questionnaireDue == PendingOf(v, u)(QuestionnaireTrack, d)
  {
    lessonDue := d in v.lessons && !HasViewedLesson(v.points, u, d);
    questDue := d in v.quests && !HasQuestAnswer(v.answers, u, d);
    questionnaireDue := QuestionnaireDue(v, u, d);
  }

  /** `_collect_pending_backlog`: days 1..day_index in ascending order. */
  method CollectPendingBacklog(v: Learner, u: int, dayIndex: int)
    returns (pending: seq<BacklogItem>, firstLesson: Option<int>, firstQuest: Option<int>)
    ensures pending == Backlog(PendingOf(v, u), dayIndex)
    ensures firstLesson == FirstPending(PendingOf(v, u), LessonTrack, dayIndex)
    ensures firstQuest == FirstPending(PendingOf(v, u), QuestTrack, dayIndex)
  {
    ghost var p := PendingOf(v, u);
    ghost var last := if dayIndex < 0 then 0 else dayIndex;
    pending, firstLesson, firstQuest := [], None, None;
    var d := 1;
    while d <= dayIndex
      invariant 1 <= d <= last + 1
      invariant pending == Backlog(p, d - 1)
      invariant firstLesson == FirstPending(p, LessonTrack, d - 1)
      invariant firstQuest == FirstPending(p, QuestTrack, d - 1)
    {
      var lessonDue, questDue, questionnaireDue := DayDue(v, u, d);
      BacklogStep(p, d, lessonDue, questDue, questionnaireDue);
      var day := (if lessonDue then [BacklogItem(LessonTrack, d)] else [])
        + (if questDue then [BacklogItem(QuestTrack, d)] else [])
        + (if questionnaireDue then [BacklogItem(QuestionnaireTrack, d)] else []);
      pending := pending + day;
      if lessonDue && firstLesson.None? {
        firstLesson := Some(d);
      }
      if questDue && firstQuest.None? {
        firstQuest := Some(d);
      }
      d := d + 1;
    }
    if dayIndex < 0 {
      ScanBeforeDayOne(p, dayIndex);
      ScanBeforeDayOne(p, d - 1);
    } else {
      assert d - 1 == dayIndex;
    }
  }

  // ------------------------------------------------------ handling one job

  /** What the bot is asked to send; the texts around these fields are not
      modelled. */
  datatype Message =
    | LessonMessage(dayIndex: int, title: string, description: string, video: Option<string>, viewedCb: string)
    | QuestMessage(dayIndex: int, prompt: string, replyCb: string)
    | BacklogMessage(items: seq<BacklogItem>, lessonLink: Option<string>, questLink: Option<string>)
    | QuestionnaireMessage(questionnaireId: int, question: string)
    | HabitMessage(title: string, doneCb: string, skipCb: string)
    | PersonalMessage(text: string)

  datatype Outgoing = Outgoing(chatId: int, message: Message)

  /** The rows a handler writes once its message is out: the `last_quest`
      step, the progress day, the `sent_jobs` key, the `deliveries` key. */
  datatype Writes = Writes(lastQuest: Option<map<string, Value>>, progressDay: Option<int>,
                           ledger: Option<SentKey>, delivery: Option<DeliveryKey>)

  const NO_WRITES: Writes := Writes(None, None, None, None)

  /** A handler either raises before sending (the job fails), or names the
      habit occurrence it marks first, the message it sends and what it
      writes afterwards. */
  datatype Handling =
    | Broken(error: string)
    | Handle(occurrence: Option<int>, message: Option<Message>, after: Writes)

  const SILENT: Handling := Handle(None, None, NO_WRITES)

  /** Stands for the text of the exception a payload the worker cannot read
      raises (`int(None)`, a missing key, JSON that does not decode). */
  const UNREADABLE_PAYLOAD: string := "unreadable payload"

  /** What a pass reads and does not change, and what the outside world does:
      the bot's username, the jobs whose send raises (with the error text),
      the habit occurrences whose `mark_sent` raises. */
  datatype Env = Env(learner: Learner, users: seq<UserRow>, tzDb: TzDb, defaultZone: Zone, now: Instant,
                     botName: Option<string>, sendErrors: map<int, string>, occErrors: set<int>)

  /** `schedule._user_tz` */
  function ZoneOf(env: Env, u: int): Zone {
    UserZone(env.users, u, env.tzDb, env.defaultZone)
  }

  /** The payload's `for_date`, else today in the user's zone. */
  function ForDateOr(env: Env, u: int, forDate: Option<Day>): (r: Day)
    ensures forDate.Some? ==> r == forDate.value
    ensures forDate.None? ==> r == LocalDate(env.now, ZoneOf(env, u))
  {
    if forDate.Some? then forDate.value else LocalDate(env.now, ZoneOf(env, u))
  }

  /** `_deep_link`: a `t.me` start link, None without a bot username. */
  function DeepLink(botName: Option<string>, payload: string): (r: Option<string>)
    ensures r.Some? <==> botName.Some? && botName.value != []
    ensures r.Some? ==> r.value == "https://t.me/" + botName.value + "?start=" + payload
  {
    if botName.Some? && botName.value != [] then Some("https://t.me/" + botName.value + "?start=" + payload) else None
  }

  /** The deep link to the first pending day of a track, `gol_<d>` or `goq_<d>`. */
  function FirstLink(botName: Option<string>, tag: string, first: Option<int>): Option<string> {
    if first.Some? then DeepLink(botName, tag + IntToString(first.value)) else None
  }

  function LessonTitle(title: string, d: int): string {
    if title == [] then "День " + IntToString(d) else title
  }

  function VideoOf(url: Option<string>): Option<string> {
    if url.Some? && url.value != [] then url else None
  }

  /** `(text or "").strip() or "Напоминание"` */
  function PersonalText(text: string): (t: string)
    ensures t != []
    ensures Trim(text) != [] ==> t == Trim(text)
    ensures Trim(text) == [] ==> t == PersonalPlanner.DEFAULT_TEXT
  {
    var s := Trim(text);
    if s == [] then PersonalPlanner.DEFAULT_TEXT else s
  }

  /** `day_lesson` */
  function LessonHandling(env: Env, u: int, dayIndex: Option<int>, forDate: Option<Day>, lesson: Option<LessonCard>): Handling {
    if dayIndex.None? then Broken(UNREADABLE_PAYLOAD)
    else if lesson.None? then SILENT
    else
      var d, l := dayIndex.value, lesson.value;
      var fd := ForDateOr(env, u, forDate);
      Handle(None, Some(LessonMessage(d, LessonTitle(l.title, d), l.description, VideoOf(l.videoUrl), MakeViewedCb(d, l.pointsViewed))),
             Writes(None, None, Some(SentKey(u, "lesson", d, fd)), Some(DeliveryKey(u, d, "lesson"))))
  }

  /** The `last_quest` step payload. */
  function LastQuest(d: int, q: QuestCard): map<string, Value> {
    map["day_index" := Int(d), "points" := Int(q.points), "prompt" := Str(q.prompt)]
  }

  /** `day_quest` */
  function QuestHandling(env: Env, u: int, dayIndex: Option<int>, forDate: Option<Day>, quest: Option<QuestCard>): Handling {
    if dayIndex.None? then Broken(UNREADABLE_PAYLOAD)
    else if quest.None? then SILENT
    else
      var d, q := dayIndex.value, quest.value;
      var fd := ForDateOr(env, u, forDate);
      Handle(None, Some(QuestMessage(d, q.prompt, "quest:reply:" + IntToString(d))),
             Writes(Some(LastQuest(d, q)), Some(d), Some(SentKey(u, "quest", d, fd)), Some(DeliveryKey(u, d, "quest"))))
  }

  /** `int(x or 0)` for an optional integer. */
  function OrZero(x: Option<int>): int {
    if x.Some? then x.value else 0
  }

  /** `daily_reminder`: the ledger row is written with or without a message,
      but only when the payload names its date. */
  function ReminderHandling(env: Env, u: int, dayIndex: Option<int>, forDate: Option<Day>): Handling {
    var d := OrZero(dayIndex);
    if d <= 0 then SILENT
    else
      var p := PendingOf(env.learner, u);
      var items := Backlog(p, d);
      var ledger := if forDate.Some? then Some(SentKey(u, "daily_reminder", d, forDate.value)) else None;
      var after := Writes(None, None, ledger, None);
      if items == [] then Handle(None, None, after)
      else
        var lessonLink := FirstLink(env.botName, "gol_", FirstPending(p, LessonTrack, d));
        var questLink := FirstLink(env.botName, "goq_", FirstPending(p, QuestTrack, d));
        Handle(None, Some(BacklogMessage(items, lessonLink, questLink)), after)
  }

  /** `questionnaire_broadcast` */
  function BroadcastHandling(env: Env, u: int, qid: Option<int>, dayIndex: Option<int>, forDate: Option<Day>, optional: bool): Handling {
    if qid.None? then Broken(UNREADABLE_PAYLOAD)
    else
      var item := Q.Get(env.learner.questionnaires, qid.value);
      if item.None? then SILENT
      else
        var d := OrZero(dayIndex);
        var ledger := if !optional && d != 0 && forDate.Some?
          then Some(SentKey(u, Schedule.QuestionnaireContentType(qid.value), d, forDate.value)) else None;
        Handle(None, Some(QuestionnaireMessage(qid.value, item.value.question)), Writes(None, None, ledger, None))
  }

  /** `habit_reminder`: the occurrence is marked before the message goes out. */
  function HabitHandling(occurrenceId: int, title: string): Handling {
    if occurrenceId <= 0 then SILENT
    else
      var t := if title == [] then Habits.DEFAULT_TITLE else title;
      var occ := IntToString(occurrenceId);
      Handle(Some(occurrenceId), Some(HabitMessage(t, "habit:done:" + occ, "habit:skip:" + occ)), NO_WRITES)
  }

  /** The branch of `_process_outbox` a job takes. A kind the worker does not
      know is marked sent; a payload it cannot read fails. */
  function HandlingOf(env: Env, j: Job): Handling {
    var u := j.userId;
    match j.payload
    case DayLesson(_, d, fd, lesson) => LessonHandling(env, u, d, fd, lesson)
    case DayQuest(_, d, fd, quest) => QuestHandling(env, u, d, fd, quest)
    case DailyReminder(_, d, fd) => ReminderHandling(env, u, d, fd)
    case QuestionnaireBroadcast(_, qid, d, fd, optional) => BroadcastHandling(env, u, qid, d, fd, optional)
    case HabitReminder(_, _, occ, title, _, _) => HabitHandling(occ, title)
    case PersonalReminder(_, _, text, _, _) => Handle(None, Some(PersonalMessage(PersonalText(text))), NO_WRITES)
    case OtherKind(_, _) => SILENT
    case Malformed(_) => Broken(UNREADABLE_PAYLOAD)
  }

  // ------------------------------------------------------------ the tables

  /** The tables a pass writes, and the messages the bot has sent. */
  datatype Tables = Tables(jobs: seq<Job>, sent: set<SentKey>, deliveries: set<DeliveryKey>,
                           progress: map<DayKey, ProgressRow>, steps: map<int, Step>,
                           occurrences: seq<Occurrence>, outgoing: seq<Outgoing>)

  /** The writes after a successful send, in the handler's order. */
  function Written(t: Tables, u: int, w: Writes): Tables {
    t.(steps := if w.lastQuest.Some? then t.steps[u := Step("last_quest", w.lastQuest.value)] else t.steps,
       progress := if w.progressDay.Some? then WithSent(t.progress, DayKey(u, w.progressDay.value)) else t.progress,
       sent := if w.ledger.Some? then t.sent + {w.ledger.value} else t.sent,
       deliveries := if w.delivery.Some? then t.deliveries + {w.delivery.value} else t.deliveries)
  }

  /** The occurrence write, which a raising `mark_sent` leaves undone. */
  function OccurrenceMarked(t: Tables, env: Env, occurrence: Option<int>): Tables {
    if occurrence.Some? && occurrence.value !in env.occErrors
    then t.(occurrences := SentIn(t.occurrences, occurrence.value))
    else t
  }

  /** Carrying out a handling: a raise anywhere fails the job and skips the
      rest of its branch, otherwise the job ends sent. */
  function Performed(t: Tables, env: Env, j: Job, h: Handling): Tables {
    match h
    case Broken(err) => t.(jobs := FailedIn(t.jobs, j.id, err))
    case Handle(occurrence, message, after) =>
      var t1 := OccurrenceMarked(t, env, occurrence);
      if message.Some? && j.id in env.sendErrors then t1.(jobs := FailedIn(t1.jobs, j.id, env.sendErrors[j.id]))
      else
        var t2 := if message.Some? then t1.(outgoing := t1.outgoing + [Outgoing(j.userId, message.value)]) else t1;
        Written(t2, j.userId, after).(jobs := Marked(t2.jobs, j.id))
  }

  /** One job of a pass. */
  function RunJob(t: Tables, env: Env, j: Job): Tables {
    Performed(t, env, j, HandlingOf(env, j))
  }

  /** The handlings of a pass, one per job. */
  function HandlingsOf(env: Env, js: seq<Job>): (hs: seq<Handling>)
    ensures |hs| == |js| && forall i :: 0 <= i < |js| ==> hs[i] == HandlingOf(env, js[i])
  {
    seq(|js|, i requires 0 <= i < |js| => HandlingOf(env, js[i]))
  }

  /** Handlings carried out one job after the other. */
  function PerformAll(t: Tables, env: Env, js: seq<Job>, hs: seq<Handling>): Tables
    requires |hs| == |js|
    decreases |js|
  {
    if js == [] then t
    else
      var n := |js| - 1;
      Performed(PerformAll(t, env, js[..n], hs[..n]), env, js[n], hs[n])
  }

  /** Carrying out one more handling extends the run. */
  lemma PerformAllSnoc(t: Tables, env: Env, js: seq<Job>, hs: seq<Handling>, i: int)
    requires |hs| == |js| && 0 <= i < |js|
    ensures PerformAll(t, env, js[..i + 1], hs[..i + 1]) == Performed(PerformAll(t, env, js[..i], hs[..i]), env, js[i], hs[i])
  {
    assert js[..i + 1][..i] == js[..i] && hs[..i + 1][..i] == hs[..i];
  }

  /** The jobs of a pass, one after the other. */
  function RunBatch(t: Tables, env: Env, js: seq<Job>): Tables {
    PerformAll(t, env, js, HandlingsOf(env, js))
  }

  /** A pass is its prefix followed by its last job. */
  lemma RunBatchSnoc(t: Tables, env: Env, js: seq<Job>)
    requires js != []
    ensures RunBatch(t, env, js) == RunJob(RunBatch(t, env, js[..|js| - 1]), env, js[|js| - 1])
  {
    var n := |js| - 1;
    assert HandlingsOf(env, js)[..n] == HandlingsOf(env, js[..n]);
  }

  /** Carrying out a handling touches the job's own row only. */
  lemma PerformedOwnRow(t: Tables, env: Env, j: Job, h: Handling)
    ensures var r := Performed(t, env, j, h);
      |r.jobs| == |t.jobs| && forall k :: 0 <= k < |t.jobs| && t.jobs[k].id != j.id ==> r.jobs[k] == t.jobs[k]
  {
  }

  // ------------------------------------------------- what a job's run does

  /** The job ends failed: its payload cannot be read, or its send raises. */
  predicate Fails(env: Env, j: Job) {
    var h := HandlingOf(env, j);
    h.Broken? || (h.message.Some? && j.id in env.sendErrors)
  }

  /** A run touches the job's own row only, and leaves it sent or failed
      (failed exactly when `Fails`) with its other fields kept. */
  lemma RunJobSettles(t: Tables, env: Env, j: Job)
    ensures var r := RunJob(t, env, j);
      |r.jobs| == |t.jobs|
      && forall k :: 0 <= k < |t.jobs| ==>
           if t.jobs[k].id == j.id
           then r.jobs[k].status == (if Fails(env, j) then Failed else Sent)
                && r.jobs[k].(status := t.jobs[k].status, attempts := t.jobs[k].attempts, lastError := t.jobs[k].lastError) == t.jobs[k]
           else r.jobs[k] == t.jobs[k]
  {
  }

  /** Over a pass whose jobs have distinct ids, every job of the pass ends
      sent or failed (failed exactly when `Fails`), and every other row is
      left as it was. */
  lemma {:induction false} RunBatchSettles(t: Tables, env: Env, js: seq<Job>)
    requires forall a, b :: 0 <= a < b < |js| ==> js[a].id != js[b].id
    ensures var r := RunBatch(t, env, js);
      |r.jobs| == |t.jobs|
      && (forall k :: 0 <= k < |t.jobs| ==> r.jobs[k].id == t.jobs[k].id)
      && (forall k :: 0 <= k < |t.jobs| && (forall i :: 0 <= i < |js| ==> js[i].id != t.jobs[k].id) ==> r.jobs[k] == t.jobs[k])
      && (forall i, k :: 0 <= i < |js| && 0 <= k < |t.jobs| && t.jobs[k].id == js[i].id ==>
            r.jobs[k].status == (if Fails(env, js[i]) then Failed else Sent))
    decreases |js|
  {
    if js != [] {
      var n := |js| - 1;
      var init := js[..n];
      RunBatchSettles(t, env, init);
      var mid := RunBatch(t, env, init);
      RunJobSettles(mid, env, js[n]);
      RunBatchSnoc(t, env, js);
      forall k | 0 <= k < |t.jobs| && (forall i :: 0 <= i < |js| ==> js[i].id != t.jobs[k].id)
        ensures RunBatch(t, env, js).jobs[k] == t.jobs[k]
      {
        assert forall i :: 0 <= i < |init| ==> init[i] == js[i];
      }
      forall i, k | 0 <= i < |js| && 0 <= k < |t.jobs| && t.jobs[k].id == js[i].id
        ensures RunBatch(t, env, js).jobs[k].status == (if Fails(env, js[i]) then Failed else Sent)
      {
        if i < n {
          assert init[i] == js[i];
          assert js[n].id != js[i].id;
        } else {
          assert forall a :: 0 <= a < |init| ==> init[a].id != t.jobs[k].id;
        }
      }
    }
  }

  /** Marked sent without a message and without any other write: an unknown
      kind, a reminder for day 0 or before, a habit reminder without an
      occurrence, a broadcast of a questionnaire that no longer exists. */
  lemma SilentJobs(t: Tables, env: Env, j: Job)
    requires || j.payload.OtherKind?
             || (j.payload.DailyReminder? && OrZero(j.payload.dayIndex) <= 0)
             || (j.payload.HabitReminder? && j.payload.occurrenceId <= 0)
             || (j.payload.QuestionnaireBroadcast? && j.payload.questionnaireId.Some?
                 && Q.Get(env.learner.questionnaires, j.payload.questionnaireId.value).None?)
    ensures RunJob(t, env, j) == t.(jobs := Marked(t.jobs, j.id))
  {
    assert HandlingOf(env, j) == SILENT;
  }

  /** A send that raises fails the job and skips every write after it; only
      the habit occurrence, marked before the send, stays marked. */
  lemma SendFailureWritesNothing(t: Tables, env: Env, j: Job)
    requires HandlingOf(env, j).Handle? && HandlingOf(env, j).message.Some? && j.id in env.sendErrors
    ensures var r := RunJob(t, env, j);
      r == OccurrenceMarked(t, env, HandlingOf(env, j).occurrence).(jobs := FailedIn(t.jobs, j.id, env.sendErrors[j.id]))
      && r.outgoing == t.outgoing && r.sent == t.sent && r.deliveries == t.deliveries
      && r.progress == t.progress && r.steps == t.steps
  {
  }

  /** A habit reminder marks its occurrence sent before sending, whether the
      send then succeeds or not; an occurrence write that raises is swallowed
      and the job goes on. */
  lemma HabitOccurrenceFirst(t: Tables, env: Env, j: Job)
    requires j.payload.HabitReminder? && j.payload.occurrenceId > 0
    ensures var r := RunJob(t, env, j);
      var o := j.payload.occurrenceId;
      r.occurrences == (if o in env.occErrors then t.occurrences else SentIn(t.occurrences, o))
      && (!Fails(env, j) <==> j.id !in env.sendErrors)
  {
  }

  /** `day_lesson`: an unreadable day fails the job; without a lesson nothing is
      written; with one, the message carries a "viewed" button that reads back
      as this day and the lesson's points, and the ledger and the delivery
      table get the lesson under the payload's date, else today's local date. */
  lemma LessonDelivery(env: Env, u: int, dayIndex: Option<int>, forDate: Option<Day>, lesson: Option<LessonCard>)
    ensures var h := LessonHandling(env, u, dayIndex, forDate, lesson);
      (h.Broken? <==> dayIndex.None?)
      && (dayIndex.Some? && lesson.None? ==> h == SILENT)
      && (dayIndex.Some? && lesson.Some? ==>
            var d := dayIndex.value;
            h.Handle? && h.occurrence.None? && h.message.Some?
            && ParseViewedPayload(h.message.value.viewedCb) == Some(ScheduleRules.Viewed(d, lesson.value.pointsViewed))
            && h.after.ledger == Some(SentKey(u, "lesson", d, ForDateOr(env, u, forDate)))
            && h.after.delivery == Some(DeliveryKey(u, d, "lesson"))
            && h.after.lastQuest.None? && h.after.progressDay.None?)
  {
    if dayIndex.Some? && lesson.Some? {
      ViewedRoundTrip(dayIndex.value, lesson.value.pointsViewed);
    }
  }

  /** `day_quest`: like the lesson, and on delivery the user's step becomes
      `last_quest` and the day's progress row is marked sent. */
  lemma QuestDelivery(env: Env, u: int, dayIndex: Option<int>, forDate: Option<Day>, quest: Option<QuestCard>)
    ensures var h := QuestHandling(env, u, dayIndex, forDate, quest);
      (h.Broken? <==> dayIndex.None?)
      && (dayIndex.Some? && quest.None? ==> h == SILENT)
      && (dayIndex.Some? && quest.Some? ==>
            var d := dayIndex.value;
            h.Handle? && h.occurrence.None? && h.message.Some?
            && h.after.ledger == Some(SentKey(u, "quest", d, ForDateOr(env, u, forDate)))
            && h.after.delivery == Some(DeliveryKey(u, d, "quest"))
            && h.after.progressDay == Some(d)
            && h.after.lastQuest.Some? && h.after.lastQuest.value["day_index"] == Int(d))
  {
  }

  /** `questionnaire_broadcast`: an unreadable id fails the job; a found
      questionnaire is sent, and its ledger row is written exactly when the
      job is not optional and names a day and a date. */
  lemma BroadcastLedger(env: Env, u: int, qid: Option<int>, dayIndex: Option<int>, forDate: Option<Day>, optional: bool)
    ensures var h := BroadcastHandling(env, u, qid, dayIndex, forDate, optional);
      (h.Broken? <==> qid.None?)
      && (qid.Some? && Q.Get(env.learner.questionnaires, qid.value).Some? ==>
            h.Handle? && h.message.Some? && h.after.delivery.None?
            && (h.after.ledger.Some? <==> !optional && OrZero(dayIndex) != 0 && forDate.Some?)
            && (h.after.ledger.Some? ==>
                  h.after.ledger.value == SentKey(u, Schedule.QuestionnaireContentType(qid.value), dayIndex.value, forDate.value)))
  {
  }

  /** `daily_reminder` for day d >= 1: nothing is sent exactly when nothing is
      pending on days 1..d; with or without a message the `daily_reminder`
      ledger row is written exactly when the payload names its date. */
  lemma ReminderLedger(env: Env, u: int, dayIndex: Option<int>, forDate: Option<Day>)
    requires OrZero(dayIndex) >= 1
    ensures var h := ReminderHandling(env, u, dayIndex, forDate);
      h.Handle? && h.occurrence.None?
      && (h.message.None? <==> forall t, e :: 1 <= e <= OrZero(dayIndex) ==> !Unfinished(env.learner, u, t, e))
      && h.after == Writes(None, None, if forDate.Some? then Some(SentKey(u, "daily_reminder", OrZero(dayIndex), forDate.value)) else None, None)
  {
    var p := PendingOf(env.learner, u);
    BacklogEmptyIff(p, OrZero(dayIndex));
    assert forall t, e :: p(t, e) == Unfinished(env.learner, u, t, e);
  }

  /** The link to the first pending day of a track: present exactly when the
      bot has a username and something on the track is pending, and then
      pointing at the least such day. */
  lemma FirstLinkLeast(botName: Option<string>, tag: string, p: (Track, int) -> bool, t: Track, n: int)
    ensures var l := FirstLink(botName, tag, FirstPending(p, t, n));
      (l.Some? ==>
         exists e :: 1 <= e <= n && p(t, e) && (forall e' :: 1 <= e' < e ==> !p(t, e'))
           && l == DeepLink(botName, tag + IntToString(e)))
      && (l.None? <==> (botName.None? || botName.value == []) || forall e :: 1 <= e <= n ==> !p(t, e))
  {
    FirstPendingLeast(p, t, n);
  }

  /** The reminder lists exactly the pending lines of days 1..d, in ascending
      order, and links to the least day with an unviewed lesson and to the
      least day with an unanswered quest. */
  lemma ReminderMessage(env: Env, u: int, dayIndex: Option<int>, forDate: Option<Day>)
    requires OrZero(dayIndex) >= 1
    requires ReminderHandling(env, u, dayIndex, forDate).message.Some?
    ensures var m := ReminderHandling(env, u, dayIndex, forDate).message.value;
      var p := PendingOf(env.learner, u);
      var d := OrZero(dayIndex);
      m == BacklogMessage(m.items, m.lessonLink, m.questLink)
      && (forall it :: it in m.items <==> 1 <= it.day <= d && Unfinished(env.learner, u, it.track, it.day))
      && Ascending(m.items)
      && m.lessonLink == FirstLink(env.botName, "gol_", FirstPending(p, LessonTrack, d))
      && m.questLink == FirstLink(env.botName, "goq_", FirstPending(p, QuestTrack, d))
  {
    var p := PendingOf(env.learner, u);
    var d := OrZero(dayIndex);
    forall it
      ensures it in Backlog(p, d) <==> 1 <= it.day <= d && Unfinished(env.learner, u, it.track, it.day)
    {
      BacklogItems(p, d, it);
    }
    BacklogOrdered(p, d);
  }

  // ------------------------------------------------------------ the worker

  /** The jobs of the pass from the `i`-th on are still pending in the table. */
  predicate PendingFrom(jobs: seq<Job>, batch: seq<Job>, i: int) {
    forall k :: 0 <= i <= k < |batch| ==> 1 <= batch[k].id <= |jobs| && jobs[batch[k].id - 1].status == Pending
  }

  /** A fetched batch is pending in the table it was fetched from, with
      distinct ids. */
  lemma BatchStartsPending(jobs: seq<Job>, batch: seq<Job>, now: Instant)
    requires Outbox.IdsAreIndexes(jobs)
    requires forall j :: j in batch ==> j in jobs && IsDue(j, now)
    ensures PendingFrom(jobs, batch, 0)
  {
    forall k | 0 <= k < |batch|
      ensures 1 <= batch[k].id <= |jobs| && jobs[batch[k].id - 1].status == Pending
    {
      assert batch[k] in batch;
      var x :| 0 <= x < |jobs| && jobs[x] == batch[k];
    }
  }

  /** Running the `i`-th job leaves the later ones pending. */
  lemma NextPending(t: Tables, env: Env, batch: seq<Job>, i: int, h: Handling)
    requires Outbox.IdsAreIndexes(t.jobs) && 0 <= i < |batch| && PendingFrom(t.jobs, batch, i)
    requires forall a, b :: 0 <= a < b < |batch| ==> batch[a].id != batch[b].id
    ensures PendingFrom(Performed(t, env, batch[i], h).jobs, batch, i + 1)
  {
    PerformedOwnRow(t, env, batch[i], h);
  }

  /** A pass takes at most this many jobs. */
  const BATCH_LIMIT: nat := 50

  class OutboxWorker {
    const outbox: OutboxRepo
    const sentJobs: SentJobsRepo
    const deliveries: DeliveriesRepo
    const progress: ProgressRepo
    const state: StateRepo
    const occurrences: OccurrencesRepo
    const content: ContentRepo
    const points: PointsRepo
    const answers: AnswersRepo
    const questionnaires: Q.QuestionnaireRepo
    const users: UsersRepo
    const cfg: Schedule.ScheduleSettings
    /** The messages the bot has sent, oldest first. */
    var outgoing: seq<Outgoing>

    constructor (outbox: OutboxRepo, sentJobs: SentJobsRepo, deliveries: DeliveriesRepo, progress: ProgressRepo,
                 state: StateRepo, occurrences: OccurrencesRepo, content: ContentRepo, points: PointsRepo,
                 answers: AnswersRepo, questionnaires: Q.QuestionnaireRepo, users: UsersRepo, cfg: Schedule.ScheduleSettings)
      ensures this.outbox == outbox && this.sentJobs == sentJobs && this.deliveries == deliveries
      ensures this.progress == progress && this.state == state && this.occurrences == occurrences
      ensures this.content == content && this.points == points && this.answers == answers
      ensures this.questionnaires == questionnaires && this.users == users && this.cfg == cfg
      ensures outgoing == []
    {
      this.outbox := outbox;
      this.sentJobs := sentJobs;
      this.deliveries := deliveries;
      this.progress := progress;
      this.state := state;
      this.occurrences := occurrences;
      this.content := content;
      this.points := points;
      this.answers := answers;
      this.questionnaires := questionnaires;
      this.users := users;
      this.cfg := cfg;
      outgoing := [];
    }

    /** The tables a pass writes. */
    function TablesNow(): Tables
      reads this, outbox, sentJobs, deliveries, progress, state, occurrences
    {
      Tables(outbox.jobs, sentJobs.rows, deliveries.rows, progress.rows, state.steps, occurrences.rows, outgoing)
    }

    /** What a pass reads, with the outside world's answers. */
    function EnvAt(now: Instant, botName: Option<string>, sendErrors: map<int, string>, occErrors: set<int>): Env
      reads content, points, answers, questionnaires, users
    {
      Env(Learner(content.lessons, content.quests, questionnaires.rows, questionnaires.responses, points.rows, answers.rows),
          users.rows, cfg.tzDb, cfg.defaultZone, now, botName, sendErrors, occErrors)
    }

    /** The branch taken for a job; the reminder branch runs the backlog scan. */
    method Decide(env: Env, j: Job) returns (h: Handling)
      ensures h == HandlingOf(env, j)
    {
      match j.payload {
        case DailyReminder(_, dayIndex, forDate) =>
          var d := OrZero(dayIndex);
          if d <= 0 {
            return SILENT;
          }
          var pending, firstLesson, firstQuest := CollectPendingBacklog(env.learner, j.userId, d);
          var ledger := if forDate.Some? then Some(SentKey(j.userId, "daily_reminder", d, forDate.value)) else None;
          if pending == [] {
            h := Handle(None, None, Writes(None, None, ledger, None));
          } else {
            var lessonLink := FirstLink(env.botName, "gol_", firstLesson);
            var questLink := FirstLink(env.botName, "goq_", firstQuest);
            h := Handle(None, Some(BacklogMessage(pending, lessonLink, questLink)), Writes(None, None, ledger, None));
          }
        case _ =>
          h := HandlingOf(env, j);
      }
    }

    /** `habit_occ.mark_sent`, unless it raises. */
    method MarkOccurrence(env: Env, occurrence: Option<int>)
      requires occurrences.Valid()
      modifies occurrences
      ensures occurrences.Valid()
      ensures TablesNow() == OccurrenceMarked(old(TablesNow()), env, occurrence)
    {
      if occurrence.Some? && occurrence.value !in env.occErrors {
        var count := occurrences.MarkSent(occurrence.value);
      }
    }

    /** The writes after a send: `last_quest` step, progress, ledger, deliveries. */
    method WriteAfter(u: int, after: Writes)
      modifies state, progress, sentJobs, deliveries
      ensures TablesNow() == Written(old(TablesNow()), u, after)
    {
      if after.lastQuest.Some? {
        state.SetState(u, "last_quest", after.lastQuest.value);
      }
      if after.progressDay.Some? {
        progress.MarkSent(u, after.progressDay.value);
      }
      if after.ledger.Some? {
        var inserted := sentJobs.MarkSent(after.ledger.value);
      }
      if after.delivery.Some? {
        deliveries.MarkSent(after.delivery.value.userId, after.delivery.value.dayIndex, after.delivery.value.itemType);
      }
    }

    /** Carrying out a handling: the occurrence write, the send, the writes
        after it, then `mark_sent`; a raise goes to `mark_failed`. */
    method Perform(env: Env, j: Job, h: Handling)
      requires outbox.Valid() && occurrences.Valid()
      requires 1 <= j.id <= |outbox.jobs| && outbox.jobs[j.id - 1].status == Pending
      modifies this, outbox, sentJobs, deliveries, progress, state, occurrences
      ensures outbox.Valid() && occurrences.Valid()
      ensures TablesNow() == Performed(old(TablesNow()), env, j, h)
    {
      match h
      case Broken(err) =>
        outbox.MarkFailed(j.id, err);
      case Handle(occurrence, message, after) =>
        MarkOccurrence(env, occurrence);
        if message.Some? && j.id in env.sendErrors {
          outbox.MarkFailed(j.id, env.sendErrors[j.id]);
        } else {
          if message.Some? {
            outgoing := outgoing + [Outgoing(j.userId, message.value)];
          }
          WriteAfter(j.userId, after);
          MarkedKeepsUnique(outbox.jobs, j.id);
          outbox.MarkSent(j.id);
        }
    }

    /** The jobs of a pass, each decided and carried out in turn. */
    method RunAll(env: Env, batch: seq<Job>)
      requires outbox.Valid() && occurrences.Valid()
      requires PendingFrom(outbox.jobs, batch, 0)
      requires forall a, b :: 0 <= a < b < |batch| ==> batch[a].id != batch[b].id
      modifies this, outbox, sentJobs, deliveries, progress, state, occurrences
      ensures outbox.Valid() && occurrences.Valid()
      ensures TablesNow() == RunBatch(old(TablesNow()), env, batch)
    {
      ghost var t0 := TablesNow();
      ghost var hs := HandlingsOf(env, batch);
      var i := 0;
      while i < |batch|
        invariant 0 <= i <= |batch|
        invariant outbox.Valid() && occurrences.Valid()
        invariant TablesNow() == PerformAll(t0, env, batch[..i], hs[..i])
        invariant PendingFrom(outbox.jobs, batch, i)
      {
        var j := batch[i];
        var h := Decide(env, j);
        assert h == hs[i];
        ghost var before := TablesNow();
        NextPending(before, env, batch, i, h);
        PerformAllSnoc(t0, env, batch, hs, i);
        Perform(env, j, h);
        assert TablesNow() == Performed(before, env, j, h);
        i := i + 1;
      }
      assert batch[..i] == batch && hs[..i] == hs;
    }

    /** `_process_outbox`: the due pending jobs, earliest first, at most 50,
        each delivered in turn. */
    method ProcessOutbox(now: Instant, botName: Option<string>, sendErrors: map<int, string>, occErrors: set<int>)
      requires outbox.Valid() && occurrences.Valid()
      modifies this, outbox, sentJobs, deliveries, progress, state, occurrences
      ensures outbox.Valid() && occurrences.Valid()
      ensures TablesNow() == RunBatch(old(TablesNow()), EnvAt(now, botName, sendErrors, occErrors),
                                      FetchDuePending(old(outbox.jobs), now, BATCH_LIMIT))
    {
      var env := EnvAt(now, botName, sendErrors, occErrors);
      var batch := FetchDuePending(outbox.jobs, now, BATCH_LIMIT);
      FetchedIdsDistinct(outbox.jobs, now, BATCH_LIMIT);
      BatchStartsPending(outbox.jobs, batch, now);
      RunAll(env, batch);
    }
  }

  // ------------------------------------------------------------------ tick

  /** The occurrence and job tables after the course planner, the habit
      planner and the personal reminder planner have run, in that order. */
  ghost function Planned(schedule: Schedule.ScheduleService, habitSchedule: HabitPlanner.HabitScheduleService,
                         personalSchedule: PersonalPlanner.PersonalReminderScheduleService,
                         st: HabitPlanner.PlanState, now: Instant): HabitPlanner.PlanState
    reads schedule, schedule.sentJobs, schedule.content, schedule.questionnaires, schedule.enroll, schedule.users
    reads habitSchedule, habitSchedule.habits, habitSchedule.users, personalSchedule, personalSchedule.repo, personalSchedule.users
  {
    var courseJobs := InsertAbsent(st.jobs, Schedule.DueCandidates(schedule.Snapshot(), schedule.cfg, now, Enrollment.ListActive(schedule.enroll.rows)));
    var habitState := HabitPlanner.PlanSlots(HabitPlanner.PlanState(st.occ, courseJobs),
                                             HabitPlanner.AllSlots(habitSchedule.habits.rows, habitSchedule.users.rows, habitSchedule.cfg, now));
    var personal := PersonalPlanner.DueCandidates(PersonalReminders.ListActive(personalSchedule.repo.rows),
                                                  personalSchedule.users.rows, personalSchedule.cfg, now);
    habitState.(jobs := InsertAbsent(habitState.jobs, personal))
  }

  /** The planning half of `tick`: the three planners, in order. */
  method PlanAll(schedule: Schedule.ScheduleService, habitSchedule: HabitPlanner.HabitScheduleService,
                 personalSchedule: PersonalPlanner.PersonalReminderScheduleService,
                 outbox: OutboxRepo, occurrences: OccurrencesRepo, now: Instant)
    requires schedule.outbox == outbox && habitSchedule.outbox == outbox && personalSchedule.outbox == outbox
    requires habitSchedule.occ == occurrences
    requires outbox.Valid() && occurrences.Valid()
    modifies outbox, occurrences
    ensures outbox.Valid() && occurrences.Valid()
    ensures HabitPlanner.PlanState(occurrences.rows, outbox.jobs)
         == old(Planned(schedule, habitSchedule, personalSchedule, HabitPlanner.PlanState(occurrences.rows, outbox.jobs), now))
  {
    var courseCreated := schedule.ScheduleDueJobs(now);
    var habitCreated := habitSchedule.ScheduleDueJobs(now);
    var personalCreated := personalSchedule.ScheduleDueJobs(now);
  }

  /** `tick`: the planners add their jobs to the one outbox, then one pass
      delivers what is due. */
  method Tick(schedule: Schedule.ScheduleService, habitSchedule: HabitPlanner.HabitScheduleService,
              personalSchedule: PersonalPlanner.PersonalReminderScheduleService, worker: OutboxWorker,
              now: Instant, botName: Option<string>, sendErrors: map<int, string>, occErrors: set<int>)
    requires schedule.outbox == worker.outbox && habitSchedule.outbox == worker.outbox && personalSchedule.outbox == worker.outbox
    requires habitSchedule.occ == worker.occurrences
    requires worker.outbox.Valid() && worker.occurrences.Valid()
    modifies worker, worker.outbox, worker.sentJobs, worker.deliveries, worker.progress, worker.state, worker.occurrences
    ensures worker.outbox.Valid() && worker.occurrences.Valid()
    ensures var p := old(Planned(schedule, habitSchedule, personalSchedule,
                                 HabitPlanner.PlanState(worker.occurrences.rows, worker.outbox.jobs), now));
      worker.TablesNow() == RunBatch(old(worker.TablesNow()).(jobs := p.jobs, occurrences := p.occ),
                                     worker.EnvAt(now, botName, sendErrors, occErrors),
                                     FetchDuePending(p.jobs, now, BATCH_LIMIT))
  {
    ghost var t0 := worker.TablesNow();
    ghost var p := Planned(schedule, habitSchedule, personalSchedule,
                           HabitPlanner.PlanState(worker.occurrences.rows, worker.outbox.jobs), now);
    PlanAll(schedule, habitSchedule, personalSchedule, worker.outbox, worker.occurrences, now);
    assert worker.TablesNow() == t0.(jobs := p.jobs, occurrences := p.occ);
    worker.ProcessOutbox(now, botName, sendErrors, occErrors);
  }
}
