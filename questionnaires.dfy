/** Questionnaires (`questionnaires`) and their responses
    (`questionnaire_responses`, deleted with their questionnaire). */
module Questionnaires {
  import opened Common
  import opened Clock

  datatype Questionnaire = Questionnaire(id: int, question: string, qtype: string, dayIndex: Option<int>,
                                         useInCharts: bool, points: int, createdBy: Option<int>)

  datatype Response = Response(questionnaireId: int, userId: int, score: int, comment: string)

  /** Rows are kept in SERIAL id order. */
  predicate IdsIncreasing(rows: seq<Questionnaire>) {
    forall i, j :: 0 <= i < j < |rows| ==> rows[i].id < rows[j].id
  }

  /** The `list_by_day` filter: bound to day `d` with a listed type, or, when
      "daily" is listed, a daily questionnaire bound to no day at all. */
  predicate MatchesDay(q: Questionnaire, d: int, qtypes: seq<string>) {
    (q.dayIndex == Some(d) && q.qtype in qtypes)
    || ("daily" in qtypes && q.qtype == "daily" && q.dayIndex.None?)
  }

  /** `list_by_day`, in ascending id order. */
  function ListByDay(rows: seq<Questionnaire>, d: int, qtypes: seq<string>): (r: seq<Questionnaire>)
    ensures forall q :: q in r <==> q in rows && MatchesDay(q, d, qtypes)
    ensures IdsIncreasing(rows) ==> IdsIncreasing(r)
    ensures |r| <= |rows|
  {
    if rows == [] then []
    else
      var init := ListByDay(rows[..|rows| - 1], d, qtypes);
      var last := rows[|rows| - 1];
      if MatchesDay(last, d, qtypes) then
        AppendKeepsIncreasing(rows, init, last);
        init + [last]
      else init
  }

  /** A filtered prefix stays in id order when the table's last row is appended. */
  lemma AppendKeepsIncreasing(rows: seq<Questionnaire>, init: seq<Questionnaire>, last: Questionnaire)
    requires rows != [] && last == rows[|rows| - 1]
    requires forall q :: q in init ==> q in rows[..|rows| - 1]
    requires IdsIncreasing(rows) ==> IdsIncreasing(init)
    ensures IdsIncreasing(rows) ==> IdsIncreasing(init + [last])
  {
    if IdsIncreasing(rows) {
      forall k | 0 <= k < |init|
        ensures init[k].id < last.id
      {
        assert init[k] in init;
        assert init[k] in rows[..|rows| - 1];
        var i :| 0 <= i < |rows| - 1 && rows[i] == init[k];
      }
    }
  }

  /** `get` */
  function Get(rows: seq<Questionnaire>, qid: int): (r: Option<Questionnaire>)
    ensures r.Some? ==> r.value in rows && r.value.id == qid
    ensures r.None? ==> forall q :: q in rows ==> q.id != qid
  {
    if rows == [] then None
    else if rows[|rows| - 1].id == qid then Some(rows[|rows| - 1])
    else Get(rows[..|rows| - 1], qid)
  }

  /** `has_user_response` */
  predicate HasUserResponse(responses: seq<Response>, userId: int, qid: int) {
    exists i :: 0 <= i < |responses| && responses[i].userId == userId && responses[i].questionnaireId == qid
  }

  /** `update`: every field it sets is overwritten, including the day binding,
      which an edit that passes no day clears. */
  function UpdatedIn(rows: seq<Questionnaire>, qid: int, question: string, qtype: string,
                     useInCharts: bool, points: int, dayIndex: Option<int>): (r: seq<Questionnaire>)
    ensures |r| == |rows|
    ensures forall i :: 0 <= i < |rows| && rows[i].id != qid ==> r[i] == rows[i]
    ensures forall i :: 0 <= i < |rows| && rows[i].id == qid ==>
      r[i] == Questionnaire(qid, question, qtype, dayIndex, useInCharts, points, rows[i].createdBy)
  {
    seq(|rows|, i requires 0 <= i < |rows| =>
      if rows[i].id == qid then rows[i].(question := question, qtype := qtype, dayIndex := dayIndex,
                                         useInCharts := useInCharts, points := points)
      else rows[i])
  }

  function WithoutQuestionnaire(rows: seq<Questionnaire>, qid: int): (r: seq<Questionnaire>)
    ensures forall q :: q in r <==> q in rows && q.id != qid
    ensures IdsIncreasing(rows) ==> IdsIncreasing(r)
  {
    if rows == [] then []
    else
      var init := WithoutQuestionnaire(rows[..|rows| - 1], qid);
      var last := rows[|rows| - 1];
      if last.id != qid then
        AppendKeepsIncreasing(rows, init, last);
        init + [last]
      else init
  }

  function WithoutResponses(responses: seq<Response>, qid: int): (r: seq<Response>)
    ensures forall x :: x in r <==> x in responses && x.questionnaireId != qid
  {
    if responses == [] then []
    else
      var init := WithoutResponses(responses[..|responses| - 1], qid);
      var last := responses[|responses| - 1];
      if last.questionnaireId != qid then init + [last] else init
  }

  /** An edit without a day unbinds the questionnaire: it no longer shows up for
      any day, unless it is a daily one and daily questionnaires are requested. */
  lemma UpdateWithoutDayUnbinds(rows: seq<Questionnaire>, qid: int, question: string, qtype: string,
                                useInCharts: bool, points: int, d: int, qtypes: seq<string>)
    requires !("daily" in qtypes && qtype == "daily")
    ensures var r := UpdatedIn(rows, qid, question, qtype, useInCharts, points, None);
      forall q :: q in ListByDay(r, d, qtypes) ==> q.id != qid
  {
    var r := UpdatedIn(rows, qid, question, qtype, useInCharts, points, None);
    forall q | q in ListByDay(r, d, qtypes)
      ensures q.id != qid
    {
      var i :| 0 <= i < |r| && r[i] == q;
    }
  }

  /** With the default type list only manual questionnaires bound to the day are listed. */
  lemma DefaultListIsManualOfDay(rows: seq<Questionnaire>, d: int)
    ensures forall q :: q in ListByDay(rows, d, ["manual"]) <==> q in rows && q.dayIndex == Some(d) && q.qtype == "manual"
  {
  }

  class QuestionnaireRepo {
    var rows: seq<Questionnaire>
    var responses: seq<Response>
    var nextId: int

    ghost predicate Valid()
      reads this
    {
      nextId >= 1 && IdsIncreasing(rows) && (forall i :: 0 <= i < |rows| ==> 1 <= rows[i].id < nextId)
    }

    constructor ()
      ensures Valid() && rows == [] && responses == [] && nextId == 1
    {
      rows := [];
      responses := [];
      nextId := 1;
    }

    /** `create`: the next SERIAL id. */
    method Create(question: string, qtype: string, useInCharts: bool, points: int,
                  createdBy: Option<int>, dayIndex: Option<int>) returns (id: int)
      requires Valid()
      modifies this
      ensures Valid()
      ensures id == old(nextId) && nextId == id + 1 && responses == old(responses)
      ensures rows == old(rows) + [Questionnaire(id, question, qtype, dayIndex, useInCharts, points, createdBy)]
      ensures Get(old(rows), id).None?
    {
      id := nextId;
      rows := rows + [Questionnaire(id, question, qtype, dayIndex, useInCharts, points, createdBy)];
      nextId := nextId + 1;
    }

    method Update(qid: int, question: string, qtype: string, useInCharts: bool, points: int, dayIndex: Option<int>)
      requires Valid()
      modifies this
      ensures Valid()
      ensures rows == UpdatedIn(old(rows), qid, question, qtype, useInCharts, points, dayIndex)
      ensures responses == old(responses) && nextId == old(nextId)
    {
      rows := UpdatedIn(rows, qid, question, qtype, useInCharts, points, dayIndex);
    }

    /** `delete`: true iff a row went; its responses go with it. */
    method Delete(qid: int) returns (removed: bool)
      requires Valid()
      modifies this
      ensures Valid()
      ensures removed <==> Get(old(rows), qid).Some?
      ensures rows == WithoutQuestionnaire(old(rows), qid)
      ensures responses == WithoutResponses(old(responses), qid)
      ensures Get(rows, qid).None?
      ensures forall u :: !HasUserResponse(responses, u, qid)
      ensures nextId == old(nextId)
    {
      removed := Get(rows, qid).Some?;
      rows := WithoutQuestionnaire(rows, qid);
      responses := WithoutResponses(responses, qid);
    }

    /** `QuestionnaireResponsesRepo.add`; the foreign key refuses a response to a
        questionnaire that does not exist, and then nothing is stored. */
    method AddResponse(qid: int, userId: int, score: int, comment: string) returns (ok: bool)
      modifies this
      ensures ok <==> Get(rows, qid).Some?
      ensures ok ==> responses == old(responses) + [Response(qid, userId, score, comment)]
      ensures !ok ==> responses == old(responses)
      ensures ok ==> HasUserResponse(responses, userId, qid)
      ensures rows == old(rows) && nextId == old(nextId)
    {
      ok := Get(rows, qid).Some?;
      if ok {
        responses := responses + [Response(qid, userId, score, comment)];
        assert responses[|responses| - 1] == Response(qid, userId, score, comment);
      }
    }
  }
}

/** The questionnaire answering flow: score, optional comment, points. */
module QuestionnaireFlow {
  import opened Common
  import opened Questionnaires
  import opened Points
  import opened UserState

  const STEP_WAIT_Q_COMMENT: string := "wait_q_comment"

  /** The points source key of a questionnaire, `q:<id>`. */
  function ScoreKey(qid: int): (k: string)
    ensures StartsWith(k, "q:") && k[2..] == IntToString(qid)
  {
    "q:" + IntToString(qid)
  }

  /** `list_for_day`: the default type list is ("manual",). */
  function ListForDay(rows: seq<Questionnaire>, d: int, qtypes: Option<seq<string>>): (r: seq<Questionnaire>)
    ensures qtypes.None? ==> r == ListByDay(rows, d, ["manual"])
    ensures qtypes.Some? ==> r == ListByDay(rows, d, qtypes.value)
  {
    ListByDay(rows, d, if qtypes.Some? then qtypes.value else ["manual"])
  }

  class QuestionnaireService {
    const q: QuestionnaireRepo
    const points: PointsRepo
    const state: StateRepo

    constructor (q: QuestionnaireRepo, points: PointsRepo, state: StateRepo)
      ensures this.q == q && this.points == points && this.state == state
    {
      this.q := q;
      this.points := points;
      this.state := state;
    }

    /** `start_comment_flow`: score points now, then wait for a comment; no response yet. */
    method StartCommentFlow(userId: int, qid: int, score: int, pts: int)
      modifies points, state
      ensures points.rows == old(points.rows) + [PointsEntry(userId, "questionnaire_score", Some(ScoreKey(qid)), pts)]
      ensures state.steps == old(state.steps)[userId := Step(STEP_WAIT_Q_COMMENT,
                                                             map["questionnaire_id" := Int(qid), "score" := Int(score)])]
      ensures q.responses == old(q.responses)
    {
      points.AddPoints(userId, "questionnaire_score", Some(ScoreKey(qid)), pts);
      state.SetState(userId, STEP_WAIT_Q_COMMENT, map["questionnaire_id" := Int(qid), "score" := Int(score)]);
    }

    /** `submit_score_only`: points and a response with an empty comment; the step is left alone. */
    method SubmitScoreOnly(userId: int, qid: int, score: int, pts: int) returns (stored: bool)
      modifies points, q
      ensures points.rows == old(points.rows) + [PointsEntry(userId, "questionnaire_score", Some(ScoreKey(qid)), pts)]
      ensures stored <==> Get(q.rows, qid).Some?
      ensures stored ==> q.responses == old(q.responses) + [Response(qid, userId, score, "")]
      ensures !stored ==> q.responses == old(q.responses)
      ensures q.rows == old(q.rows) && state.steps == old(state.steps)
    {
      points.AddPoints(userId, "questionnaire_score", Some(ScoreKey(qid)), pts);
      stored := q.AddResponse(qid, userId, score, "");
    }

    /** `save_comment`: the response with its comment, then the step is cleared; a refused
        insert raises before the step is touched. */
    method SaveComment(userId: int, qid: int, score: int, comment: string) returns (stored: bool)
      modifies q, state
      ensures stored <==> Get(q.rows, qid).Some?
      ensures stored ==> q.responses == old(q.responses) + [Response(qid, userId, score, comment)]
      ensures !stored ==> q.responses == old(q.responses)
      ensures stored ==> state.steps == old(state.steps) - {userId}
      ensures !stored ==> state.steps == old(state.steps)
      ensures points.rows == old(points.rows)
    {
      stored := q.AddResponse(qid, userId, score, comment);
      if stored {
        state.ClearState(userId);
      }
    }
  }
}
