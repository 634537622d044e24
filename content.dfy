/** Course content: one lesson and one quest per day index (`lessons`,
    `quests`, both UNIQUE on day_index), read by the planners and the worker. */
module Content {
  import opened Common
  import opened Clock

  datatype LessonRow = LessonRow(id: int, dayIndex: int, title: string, description: string,
                                 videoUrl: string, pointsViewed: int,
                                 createdAt: Option<Instant>, updatedAt: Option<Instant>)

  datatype QuestRow = QuestRow(id: int, dayIndex: int, prompt: string, points: int, photoFileId: Option<string>,
                               createdAt: Option<Instant>, updatedAt: Option<Instant>)

  /** `_row_version_ts`: the row's update instant, else its creation instant, else
      0; a missing row is version 0. */
  function RowVersionTs(updatedAt: Option<Instant>, createdAt: Option<Instant>): (v: int)
    ensures updatedAt.Some? ==> v == updatedAt.value
    ensures updatedAt.None? && createdAt.Some? ==> v == createdAt.value
    ensures updatedAt.None? && createdAt.None? ==> v == 0
  {
    match updatedAt
    case Some(t) => t
    case None => if createdAt.Some? then createdAt.value else 0
  }

  function LessonVersion(l: LessonRow): int { RowVersionTs(l.updatedAt, l.createdAt) }

  function QuestVersion(q: QuestRow): int { RowVersionTs(q.updatedAt, q.createdAt) }

  /** The lesson and quest tables, keyed by day index. */
  class ContentRepo {
    var lessons: map<int, LessonRow>
    var quests: map<int, QuestRow>

    constructor ()
      ensures lessons == map[] && quests == map[]
    {
      lessons := map[];
      quests := map[];
    }
  }
}

/** Lesson viewing and quest answering. */
module Learning {
  import opened Common
  import opened Clock
  import opened Points
  import opened Answers
  import opened Progress
  import opened UserState

  /** The points source key of a course day, `day:<n>`. */
  function DayKeyText(d: int): (k: string)
    ensures StartsWith(k, "day:") && k[4..] == IntToString(d)
  {
    "day:" + IntToString(d)
  }

  /** `has_quest_answer` */
  predicate HasQuestAnswer(answers: seq<Answer>, userId: int, d: int) {
    ExistsForDay(answers, userId, d)
  }

  /** `has_viewed_lesson`: the `lesson_viewed` award for `day:<d>` exists. */
  predicate HasViewedLesson(points: seq<PointsEntry>, userId: int, d: int) {
    HasEntry(points, userId, "lesson_viewed", Some(DayKeyText(d)))
  }

  /** Answering is not idempotent: every submission adds another quest award. */
  lemma SubmitTwiceAwardsTwice(points: seq<PointsEntry>, userId: int, d: int, p1: int, p2: int)
    ensures var e1 := PointsEntry(userId, "quest", Some(DayKeyText(d)), p1);
      var e2 := PointsEntry(userId, "quest", Some(DayKeyText(d)), p2);
      CountEntries(points + [e1] + [e2], userId, "quest", Some(DayKeyText(d)))
        == CountEntries(points, userId, "quest", Some(DayKeyText(d))) + 2
      && Total(points + [e1] + [e2], userId) == Total(points, userId) + p1 + p2
  {
    var e1 := PointsEntry(userId, "quest", Some(DayKeyText(d)), p1);
    var e2 := PointsEntry(userId, "quest", Some(DayKeyText(d)), p2);
    AddedEntryCounts(points, e1, userId);
    AddedEntryCounts(points + [e1], e2, userId);
  }

  class LearningService {
    const state: StateRepo
    const progress: ProgressRepo
    const points: PointsRepo
    const answers: AnswersRepo

    constructor (state: StateRepo, progress: ProgressRepo, points: PointsRepo, answers: AnswersRepo)
      ensures this.state == state && this.progress == progress && this.points == points && this.answers == answers
    {
      this.state := state;
      this.progress := progress;
      this.points := points;
      this.answers := answers;
    }

    /** `mark_viewed_today` */
    method MarkViewedToday(userId: int, d: int)
      modifies progress
      ensures progress.rows == WithViewed(old(progress.rows), DayKey(userId, d))
    {
      progress.MarkViewed(userId, d);
    }

    /** `submit_answer`: store the answer, award the quest points, complete the
        day, clear the conversation step. */
    method SubmitAnswer(userId: int, d: int, pts: int, text: string, now: Instant)
      modifies answers, points, progress, state
      ensures answers.rows == old(answers.rows) + [Answer(userId, d, text)]
      ensures points.rows == old(points.rows) + [PointsEntry(userId, "quest", Some(DayKeyText(d)), pts)]
      ensures progress.rows == WithDone(old(progress.rows), DayKey(userId, d), now)
      ensures state.steps == old(state.steps) - {userId}
      ensures HasQuestAnswer(answers.rows, userId, d)
    {
      answers.Save(userId, d, text);
      points.AddPoints(userId, "quest", Some(DayKeyText(d)), pts);
      progress.MarkDone(userId, d, now);
      state.ClearState(userId);
    }
  }
}
