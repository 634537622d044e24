/** The outbox (`outbox_jobs`): every delivery is a job with a run time, a JSON
    payload and a status. Planners insert jobs guarded by "is there already a
    live job with this user and key", the worker drains due pending jobs. */
module Outbox {
  import opened Common
  import opened Clock
  import opened Sorting

  datatype JobStatus = Pending | Sent | Failed | Cancelled

  /** The lesson fields a `day_lesson` payload carries. */
  datatype LessonCard = LessonCard(title: string, description: string, videoUrl: Option<string>, pointsViewed: int)

  /** The quest fields a `day_quest` payload carries. */
  datatype QuestCard = QuestCard(prompt: string, points: int, photoFileId: Option<string>)

  /** A job payload, tagged by its `kind`. `dayIndex` and `questionnaireId` are
      None where the JSON key is absent or null; `Malformed` stands for a payload
      of a known kind whose fields the worker cannot read. */
  datatype Payload =
    | DayLesson(jobKey: string, dayIndex: Option<int>, forDate: Option<Day>, lesson: Option<LessonCard>)
    | DayQuest(jobKey: string, dayIndex: Option<int>, forDate: Option<Day>, quest: Option<QuestCard>)
    | DailyReminder(jobKey: string, dayIndex: Option<int>, forDate: Option<Day>)
    | QuestionnaireBroadcast(jobKey: string, questionnaireId: Option<int>, dayIndex: Option<int>, forDate: Option<Day>, optional: bool)
    | HabitReminder(jobKey: string, habitId: int, occurrenceId: int, title: string, forLocalDate: Day, forLocalTime: HhMm)
    | PersonalReminder(jobKey: string, reminderId: int, text: string, forLocalDate: Day, forLocalTime: HhMm)
    | OtherKind(kind: string, jobKey: string)
    | Malformed(kind: string)

  function KindOf(p: Payload): string {
    match p
    case DayLesson(_, _, _, _) => "day_lesson"
    case DayQuest(_, _, _, _) => "day_quest"
    case DailyReminder(_, _, _) => "daily_reminder"
    case QuestionnaireBroadcast(_, _, _, _, _) => "questionnaire_broadcast"
    case HabitReminder(_, _, _, _, _, _) => "habit_reminder"
    case PersonalReminder(_, _, _, _, _) => "personal_reminder"
    case OtherKind(k, _) => k
    case Malformed(k) => k
  }

  /** `payload_json->>'job_key'` */
  function KeyOf(p: Payload): Option<string> {
    if p.Malformed? then None else Some(p.jobKey)
  }

  datatype Job = Job(id: int, userId: int, runAt: Instant, payload: Payload,
                     status: JobStatus, attempts: int, lastError: Option<string>)

  predicate Live(j: Job) { j.status == Pending || j.status == Sent }

  predicate IsLiveFor(j: Job, userId: int, key: string) {
    j.userId == userId && KeyOf(j.payload) == Some(key) && Live(j)
  }

  /** `exists_job_for`: a pending or sent job of this user carries this key;
      failed and cancelled jobs do not count. */
  function HasLiveJob(jobs: seq<Job>, userId: int, key: string): (r: bool)
    ensures r <==> exists i :: 0 <= i < |jobs| && IsLiveFor(jobs[i], userId, key)
  {
    if jobs == [] then false
    else HasLiveJob(jobs[..|jobs| - 1], userId, key) || IsLiveFor(jobs[|jobs| - 1], userId, key)
  }

  /** Job ids are the SERIAL sequence 1, 2, 3, ... */
  predicate IdsAreIndexes(jobs: seq<Job>) {
    forall i :: 0 <= i < |jobs| ==> jobs[i].id == i + 1
  }

  /** Jobs `i` and `j` are both live, of one user, under one key. */
  predicate Clash(jobs: seq<Job>, i: int, j: int)
    requires 0 <= i < |jobs| && 0 <= j < |jobs|
  {
    LiveKeyed(jobs[i]) && IsLiveFor(jobs[j], jobs[i].userId, KeyOrEmpty(jobs[i].payload))
  }

  /** No two live jobs of one user share a key. */
  predicate UniqueLive(jobs: seq<Job>) {
    forall i, j :: 0 <= i < j < |jobs| ==> !Clash(jobs, i, j)
  }

  predicate LiveKeyed(j: Job) { Live(j) && KeyOf(j.payload).Some? }

  function KeyOrEmpty(p: Payload): string {
    match KeyOf(p)
    case Some(k) => k
    case None => ""
  }

  // ---------------------------------------------------------- fetching

  predicate IsDue(j: Job, now: Instant) { j.status == Pending && j.runAt <= now }

  function DuePending(jobs: seq<Job>, now: Instant): (r: seq<Job>)
    ensures forall j :: j in r <==> j in jobs && IsDue(j, now)
  {
    if jobs == [] then []
    else DuePending(jobs[..|jobs| - 1], now) + if IsDue(jobs[|jobs| - 1], now) then [jobs[|jobs| - 1]] else []
  }

  function RunAtOf(j: Job): int { j.runAt }

  /** `fetch_due_pending`: pending jobs whose run time has come, earliest first,
      at most `limit` of them, and no due job left behind is earlier than one taken. */
  function FetchDuePending(jobs: seq<Job>, now: Instant, limit: nat): (batch: seq<Job>)
    ensures |batch| == Min(limit, |DuePending(jobs, now)|)
    ensures forall j :: j in batch ==> j in jobs && IsDue(j, now)
    ensures SortedBy(batch, RunAtOf)
    ensures forall j, k :: j in jobs && IsDue(j, now) && j !in batch && k in batch ==> k.runAt <= j.runAt
  {
    var sorted := SortBy(DuePending(jobs, now), RunAtOf);
    var m := Min(limit, |sorted|);
    EarliestTaken(jobs, now, sorted, m);
    sorted[..m]
  }

  lemma EarliestTaken(jobs: seq<Job>, now: Instant, sorted: seq<Job>, m: nat)
    requires sorted == SortBy(DuePending(jobs, now), RunAtOf) && m <= |sorted|
    ensures forall j :: j in sorted[..m] ==> j in jobs && IsDue(j, now)
    ensures forall j, k :: j in jobs && IsDue(j, now) && j !in sorted[..m] && k in sorted[..m] ==> k.runAt <= j.runAt
  {
    forall j | j in sorted[..m]
      ensures j in jobs && IsDue(j, now)
    {
      assert j in multiset(sorted);
    }
    forall j, k | j in jobs && IsDue(j, now) && j !in sorted[..m] && k in sorted[..m]
      ensures k.runAt <= j.runAt
    {
      InSorted(DuePending(jobs, now), RunAtOf, j);
      var p :| 0 <= p < |sorted| && sorted[p] == j;
      var q :| 0 <= q < m && sorted[..m][q] == k;
      assert RunAtOf(sorted[q]) <= RunAtOf(sorted[p]);
    }
  }

  /** No job appears twice. */
  predicate NoRepeats(s: seq<Job>) {
    forall a, b :: 0 <= a < b < |s| ==> s[a] != s[b]
  }

  lemma {:induction false} DuePendingNoRepeats(jobs: seq<Job>, now: Instant)
    requires IdsAreIndexes(jobs)
    ensures NoRepeats(DuePending(jobs, now))
  {
    if jobs != [] {
      var init := jobs[..|jobs| - 1];
      var last := jobs[|jobs| - 1];
      assert IdsAreIndexes(init);
      DuePendingNoRepeats(init, now);
      var d := DuePending(init, now);
      forall k | 0 <= k < |d|
        ensures d[k] != last
      {
        assert d[k] in init;
      }
    }
  }

  lemma {:induction false} NoRepeatsCountsOnce(s: seq<Job>, x: Job)
    requires NoRepeats(s)
    ensures multiset(s)[x] <= 1
  {
    if s != [] {
      var init := s[..|s| - 1];
      assert s == init + [s[|s| - 1]];
      assert NoRepeats(init);
      NoRepeatsCountsOnce(init, x);
      if s[|s| - 1] == x {
        forall k | 0 <= k < |init|
          ensures init[k] != x
        {
          assert init[k] == s[k];
        }
      }
    }
  }

  /** A reordering of a sequence without repeats has none either. */
  lemma PermutationNoRepeats(s: seq<Job>, r: seq<Job>)
    requires NoRepeats(s) && multiset(r) == multiset(s)
    ensures NoRepeats(r)
  {
    forall a, b | 0 <= a < b < |r|
      ensures r[a] != r[b]
    {
      NoRepeatsCountsOnce(s, r[a]);
      RepeatCountsTwice(r, a, b);
    }
  }

  lemma RepeatCountsTwice(r: seq<Job>, a: int, b: int)
    requires 0 <= a < b < |r|
    ensures r[a] == r[b] ==> multiset(r)[r[a]] >= 2
  {
    var x := r[a];
    assert r == r[..b] + r[b..];
    assert x in r[..b] && r[b..][0] == r[b];
    assert multiset(r)[x] == multiset(r[..b])[x] + multiset(r[b..])[x];
  }

  /** The jobs a fetch returns carry distinct ids. */
  lemma FetchedIdsDistinct(jobs: seq<Job>, now: Instant, limit: nat)
    requires IdsAreIndexes(jobs)
    ensures var batch := FetchDuePending(jobs, now, limit);
      forall a, b :: 0 <= a < b < |batch| ==> batch[a].id != batch[b].id
  {
    var sorted := SortBy(DuePending(jobs, now), RunAtOf);
    DuePendingNoRepeats(jobs, now);
    PermutationNoRepeats(DuePending(jobs, now), sorted);
    var batch := FetchDuePending(jobs, now, limit);
    assert batch == sorted[..|batch|];
    forall a, b | 0 <= a < b < |batch|
      ensures batch[a].id != batch[b].id
    {
      assert batch[a] in jobs && batch[b] in jobs;
      var p :| 0 <= p < |jobs| && jobs[p] == batch[a];
      var q :| 0 <= q < |jobs| && jobs[q] == batch[b];
      assert sorted[a] != sorted[b];
    }
  }

  // ------------------------------------------------------- status updates

  /** `mark_sent`: the job with this id becomes sent whatever its prior status. */
  function Marked(jobs: seq<Job>, id: int): seq<Job> {
    seq(|jobs|, i requires 0 <= i < |jobs| => if jobs[i].id == id then jobs[i].(status := Sent) else jobs[i])
  }

  /** `mark_failed`: status failed, one more attempt, the error kept to 1000 characters. */
  function FailedIn(jobs: seq<Job>, id: int, err: string): seq<Job> {
    seq(|jobs|, i requires 0 <= i < |jobs| =>
      if jobs[i].id == id
      then jobs[i].(status := Failed, attempts := jobs[i].attempts + 1, lastError := Some(Take(err, 1000)))
      else jobs[i])
  }

  /** Marking a pending job sent keeps live keys unique. */
  lemma MarkedKeepsUnique(jobs: seq<Job>, id: int)
    requires UniqueLive(jobs) && IdsAreIndexes(jobs)
    requires 1 <= id <= |jobs| && jobs[id - 1].status == Pending
    ensures UniqueLive(Marked(jobs, id)) && IdsAreIndexes(Marked(jobs, id))
  {
    var r := Marked(jobs, id);
    forall i, j | 0 <= i < j < |r|
      ensures !Clash(r, i, j)
    {
      assert !Clash(jobs, i, j);
    }
  }

  /** A failed job is no longer live, so uniqueness of live keys survives. */
  lemma FailedKeepsUnique(jobs: seq<Job>, id: int, err: string)
    requires UniqueLive(jobs) && IdsAreIndexes(jobs)
    ensures UniqueLive(FailedIn(jobs, id, err)) && IdsAreIndexes(FailedIn(jobs, id, err))
  {
    var r := FailedIn(jobs, id, err);
    forall i, j | 0 <= i < j < |r|
      ensures !Clash(r, i, j)
    {
      assert !Clash(jobs, i, j);
    }
  }

  // ------------------------------------------------------ cancellation

  /** Which pending future jobs a cancellation reaches. The last two scopes stand
      for helpers the services call but the repository does not define. */
  datatype CancelScope =
    | UserKinds(userId: int, kinds: seq<string>)
    | HabitJobs(habitId: int)
    | DayQuestionnaires(userId: int)
    | PersonalReminderJobs(reminderId: int)

  predicate InScope(j: Job, scope: CancelScope) {
    match scope
    case UserKinds(u, kinds) => j.userId == u && KindOf(j.payload) in kinds
    case HabitJobs(h) => j.payload.HabitReminder? && j.payload.habitId == h
    case DayQuestionnaires(u) =>
      j.userId == u && j.payload.QuestionnaireBroadcast? && StartsWith(j.payload.jobKey, "questionnaire:")
    case PersonalReminderJobs(r) => j.payload.PersonalReminder? && j.payload.reminderId == r
  }

  predicate Cancellable(j: Job, scope: CancelScope, from: Instant) {
    j.status == Pending && j.runAt >= from && InScope(j, scope)
  }

  function CancelIn(jobs: seq<Job>, scope: CancelScope, from: Instant): (r: seq<Job>)
    ensures |r| == |jobs|
    ensures forall i :: 0 <= i < |jobs| ==>
      r[i] == if Cancellable(jobs[i], scope, from) then jobs[i].(status := Cancelled) else jobs[i]
  {
    if jobs == [] then []
    else
      var last := jobs[|jobs| - 1];
      CancelIn(jobs[..|jobs| - 1], scope, from)
        + [if Cancellable(last, scope, from) then last.(status := Cancelled) else last]
  }

  function CountCancellable(jobs: seq<Job>, scope: CancelScope, from: Instant): nat {
    if jobs == [] then 0
    else CountCancellable(jobs[..|jobs| - 1], scope, from) + if Cancellable(jobs[|jobs| - 1], scope, from) then 1 else 0
  }

  /** The number of positions where two equally long tables differ. */
  function Changed(a: seq<Job>, b: seq<Job>): nat
    requires |a| == |b|
  {
    if a == [] then 0
    else Changed(a[..|a| - 1], b[..|b| - 1]) + if a[|a| - 1] != b[|b| - 1] then 1 else 0
  }

  lemma {:induction false} NothingChanged(a: seq<Job>)
    ensures Changed(a, a) == 0
  {
    if a != [] {
      NothingChanged(a[..|a| - 1]);
    }
  }

  /** The count a cancellation reports is the number of rows it changed. */
  lemma {:induction false} CancelCountIsRowcount(jobs: seq<Job>, scope: CancelScope, from: Instant)
    ensures CountCancellable(jobs, scope, from) == Changed(jobs, CancelIn(jobs, scope, from))
  {
    if jobs != [] {
      var init := jobs[..|jobs| - 1];
      CancelCountIsRowcount(init, scope, from);
      assert CancelIn(jobs, scope, from)[..|jobs| - 1] == CancelIn(init, scope, from);
    }
  }

  /** Cancelling twice changes nothing the second time, and reports zero. */
  lemma {:induction false} CancelIdempotent(jobs: seq<Job>, scope: CancelScope, from: Instant)
    ensures CancelIn(CancelIn(jobs, scope, from), scope, from) == CancelIn(jobs, scope, from)
    ensures CountCancellable(CancelIn(jobs, scope, from), scope, from) == 0
  {
    if jobs != [] {
      var init := jobs[..|jobs| - 1];
      CancelIdempotent(init, scope, from);
      var c := CancelIn(jobs, scope, from);
      assert c[..|c| - 1] == CancelIn(init, scope, from);
    }
  }

  /** Cancelling only takes jobs out of the live set. */
  lemma CancelKeepsUnique(jobs: seq<Job>, scope: CancelScope, from: Instant)
    requires UniqueLive(jobs) && IdsAreIndexes(jobs)
    ensures UniqueLive(CancelIn(jobs, scope, from)) && IdsAreIndexes(CancelIn(jobs, scope, from))
  {
    var r := CancelIn(jobs, scope, from);
    forall i, j | 0 <= i < j < |r|
      ensures !Clash(r, i, j)
    {
      assert !Clash(jobs, i, j);
    }
  }

  // ------------------------------------------- planning: insert if absent

  /** A job a planner wants to create, under an explicit idempotency key. */
  datatype Candidate = Candidate(userId: int, runAt: Instant, key: string, payload: Payload)

  predicate WellKeyed(c: Candidate) { KeyOf(c.payload) == Some(c.key) }

  function NewJob(id: int, c: Candidate): Job {
    Job(id, c.userId, c.runAt, c.payload, Pending, 0, None)
  }

  /** `if outbox.exists_job_for(user, key): skip; else outbox.create_job(...)` */
  function InsertStep(jobs: seq<Job>, c: Candidate): seq<Job> {
    if HasLiveJob(jobs, c.userId, c.key) then jobs else jobs + [NewJob(|jobs| + 1, c)]
  }

  /** A planner's whole run over its candidates, in order. */
  function InsertAbsent(jobs: seq<Job>, cs: seq<Candidate>): seq<Job>
    decreases |cs|
  {
    if cs == [] then jobs else InsertStep(InsertAbsent(jobs, cs[..|cs| - 1]), cs[|cs| - 1])
  }

  /** Number of jobs a run created. */
  function CreatedBy(jobs: seq<Job>, cs: seq<Candidate>): int {
    |InsertAbsent(jobs, cs)| - |jobs|
  }

  /** A run only appends fresh pending jobs with the next ids, one per candidate at most. */
  lemma {:induction false} InsertAbsentAppends(jobs: seq<Job>, cs: seq<Candidate>)
    ensures var r := InsertAbsent(jobs, cs);
      |jobs| <= |r| <= |jobs| + |cs| && r[..|jobs|] == jobs
      && (forall i :: |jobs| <= i < |r| ==> r[i].status == Pending && r[i].id == i + 1)
    decreases |cs|
  {
    if cs != [] {
      InsertAbsentAppends(jobs, cs[..|cs| - 1]);
      var r0 := InsertAbsent(jobs, cs[..|cs| - 1]);
      assert (r0 + [NewJob(|r0| + 1, cs[|cs| - 1])])[..|jobs|] == r0[..|jobs|];
    }
  }

  lemma InsertAbsentConcat(jobs: seq<Job>, a: seq<Candidate>, b: seq<Candidate>)
    ensures InsertAbsent(jobs, a + b) == InsertAbsent(InsertAbsent(jobs, a), b)
    decreases |b|
  {
    if b == [] {
      assert a + b == a;
    } else {
      assert (a + b)[..|a + b| - 1] == a + b[..|b| - 1];
      InsertAbsentConcat(jobs, a, b[..|b| - 1]);
    }
  }

  /** One more candidate is one more insert step. */
  lemma InsertAbsentSnoc(jobs: seq<Job>, cs: seq<Candidate>, c: Candidate)
    ensures InsertAbsent(jobs, cs + [c]) == InsertStep(InsertAbsent(jobs, cs), c)
  {
    assert (cs + [c])[..|cs|] == cs;
  }

  /** Appending jobs never hides a live job. */
  lemma LiveSurvivesAppend(jobs: seq<Job>, more: seq<Job>, userId: int, key: string)
    requires HasLiveJob(jobs, userId, key)
    ensures HasLiveJob(jobs + more, userId, key)
  {
    var i :| 0 <= i < |jobs| && IsLiveFor(jobs[i], userId, key);
    assert (jobs + more)[i] == jobs[i];
  }

  /** After a run every well-keyed candidate has a live job under its key. */
  lemma {:induction false} InsertAbsentCovers(jobs: seq<Job>, cs: seq<Candidate>)
    requires forall c :: c in cs ==> WellKeyed(c)
    ensures forall c :: c in cs ==> HasLiveJob(InsertAbsent(jobs, cs), c.userId, c.key)
    decreases |cs|
  {
    if cs != [] {
      var init := cs[..|cs| - 1];
      var last := cs[|cs| - 1];
      InsertAbsentCovers(jobs, init);
      var r0 := InsertAbsent(jobs, init);
      var r := InsertAbsent(jobs, cs);
      assert r == InsertStep(r0, last);
      assert r[..|r0|] == r0;
      assert r == r0 + r[|r0|..];
      forall c | c in cs
        ensures HasLiveJob(r, c.userId, c.key)
      {
        if c in init {
          LiveSurvivesAppend(r0, r[|r0|..], c.userId, c.key);
        } else if !HasLiveJob(r0, last.userId, last.key) {
          assert IsLiveFor(r[|r0|], last.userId, last.key);
        }
      }
    }
  }

  /** When every candidate already has a live job, a run creates nothing. */
  lemma {:induction false} InsertAbsentIdle(jobs: seq<Job>, cs: seq<Candidate>)
    requires forall c :: c in cs ==> HasLiveJob(jobs, c.userId, c.key)
    ensures InsertAbsent(jobs, cs) == jobs
    decreases |cs|
  {
    if cs != [] {
      InsertAbsentIdle(jobs, cs[..|cs| - 1]);
    }
  }

  /** Running a planner again over the same candidates creates no job. */
  lemma RerunCreatesNothing(jobs: seq<Job>, cs: seq<Candidate>)
    requires forall c :: c in cs ==> WellKeyed(c)
    ensures InsertAbsent(InsertAbsent(jobs, cs), cs) == InsertAbsent(jobs, cs)
    ensures CreatedBy(InsertAbsent(jobs, cs), cs) == 0
  {
    InsertAbsentCovers(jobs, cs);
    InsertAbsentIdle(InsertAbsent(jobs, cs), cs);
  }

  /** A run keeps live keys unique per user and ids sequential. */
  lemma {:induction false} InsertAbsentKeepsUnique(jobs: seq<Job>, cs: seq<Candidate>)
    requires UniqueLive(jobs) && IdsAreIndexes(jobs)
    requires forall c :: c in cs ==> WellKeyed(c)
    ensures UniqueLive(InsertAbsent(jobs, cs)) && IdsAreIndexes(InsertAbsent(jobs, cs))
    decreases |cs|
  {
    if cs != [] {
      var init := cs[..|cs| - 1];
      var c := cs[|cs| - 1];
      InsertAbsentKeepsUnique(jobs, init);
      var r0 := InsertAbsent(jobs, init);
      if !HasLiveJob(r0, c.userId, c.key) {
        var r := r0 + [NewJob(|r0| + 1, c)];
        forall i, j | 0 <= i < j < |r|
          ensures !Clash(r, i, j)
        {
          if j < |r0| {
            assert !Clash(r0, i, j);
          } else if Clash(r, i, j) {
            assert c in cs && r[i] == r0[i];
            assert IsLiveFor(r0[i], c.userId, c.key);
          }
        }
      }
    }
  }

  // ------------------------------------------------------------ the table

  class OutboxRepo {
    var jobs: seq<Job>

    ghost predicate Valid()
      reads this
    {
      IdsAreIndexes(jobs) && UniqueLive(jobs)
    }

    constructor ()
      ensures Valid() && jobs == []
    {
      jobs := [];
    }

    /** `exists_job_for` */
    function ExistsJobFor(userId: int, key: string): bool
      reads this
    {
      HasLiveJob(jobs, userId, key)
    }

    /** `create_job`: a new pending job with no attempts. */
    method CreateJob(userId: int, runAt: Instant, payload: Payload) returns (id: int)
      modifies this
      ensures id == |old(jobs)| + 1
      ensures jobs == old(jobs) + [Job(id, userId, runAt, payload, Pending, 0, None)]
    {
      id := |jobs| + 1;
      jobs := jobs + [Job(id, userId, runAt, payload, Pending, 0, None)];
    }

    /** `mark_sent` */
    method MarkSent(id: int)
      modifies this
      ensures jobs == Marked(old(jobs), id)
      ensures old(Valid()) && 1 <= id <= |old(jobs)| && old(jobs)[id - 1].status == Pending ==> Valid()
    {
      if Valid() && 1 <= id <= |jobs| && jobs[id - 1].status == Pending {
        MarkedKeepsUnique(jobs, id);
      }
      jobs := Marked(jobs, id);
    }

    /** `mark_failed` */
    method MarkFailed(id: int, err: string)
      requires Valid()
      modifies this
      ensures Valid()
      ensures jobs == FailedIn(old(jobs), id, err)
    {
      FailedKeepsUnique(jobs, id, err);
      jobs := FailedIn(jobs, id, err);
    }

    /** `cancel_future_jobs` and its siblings: pending jobs in scope from `from` on
        become cancelled; the result is the number of rows changed. An empty kind
        list cancels nothing without touching the table. */
    method CancelFuture(scope: CancelScope, from: Instant) returns (count: nat)
      requires Valid()
      modifies this
      ensures Valid()
      ensures jobs == CancelIn(old(jobs), scope, from)
      ensures count == Changed(old(jobs), jobs)
    {
      if scope.UserKinds? && scope.kinds == [] {
        assert CancelIn(jobs, scope, from) == jobs;
        NothingChanged(jobs);
        return 0;
      }
      CancelKeepsUnique(jobs, scope, from);
      CancelCountIsRowcount(jobs, scope, from);
      count := CountCancellable(jobs, scope, from);
      jobs := CancelIn(jobs, scope, from);
    }
  }
}
