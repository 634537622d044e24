/** The points ledger (`points_ledger`): an append-only list of awards, each
    with a source type and an optional source key. */
module Points {
  import opened Common

  datatype PointsEntry = PointsEntry(userId: int, sourceType: string, sourceKey: Option<string>, points: int)

  predicate IsEntry(e: PointsEntry, userId: int, sourceType: string, sourceKey: Option<string>) {
    e.userId == userId && e.sourceType == sourceType && e.sourceKey == sourceKey
  }

  /** `has_entry`: some award of this user carries this source type and key. */
  function HasEntry(rows: seq<PointsEntry>, userId: int, sourceType: string, sourceKey: Option<string>): (r: bool)
    ensures r <==> exists i :: 0 <= i < |rows| && IsEntry(rows[i], userId, sourceType, sourceKey)
  {
    if rows == [] then false
    else
      var last := rows[|rows| - 1];
      HasEntry(rows[..|rows| - 1], userId, sourceType, sourceKey) || IsEntry(last, userId, sourceType, sourceKey)
  }

  /** `total_points`: the sum of a user's awards. */
  function Total(rows: seq<PointsEntry>, userId: int): int {
    if rows == [] then 0
    else Total(rows[..|rows| - 1], userId) + if rows[|rows| - 1].userId == userId then rows[|rows| - 1].points else 0
  }

  /** Number of awards a user holds under one source type and key. */
  function CountEntries(rows: seq<PointsEntry>, userId: int, sourceType: string, sourceKey: Option<string>): (n: nat)
    ensures n == 0 <==> !HasEntry(rows, userId, sourceType, sourceKey)
  {
    if rows == [] then 0
    else
      var last := rows[|rows| - 1];
      CountEntries(rows[..|rows| - 1], userId, sourceType, sourceKey) + if IsEntry(last, userId, sourceType, sourceKey) then 1 else 0
  }

  /** An award shows up in the ledger and in the user's total, and nobody else's total moves. */
  lemma AddedEntryCounts(rows: seq<PointsEntry>, e: PointsEntry, u: int)
    ensures HasEntry(rows + [e], e.userId, e.sourceType, e.sourceKey)
    ensures Total(rows + [e], u) == Total(rows, u) + (if e.userId == u then e.points else 0)
    ensures CountEntries(rows + [e], e.userId, e.sourceType, e.sourceKey)
         == CountEntries(rows, e.userId, e.sourceType, e.sourceKey) + 1
  {
    assert (rows + [e])[..|rows|] == rows;
    assert IsEntry((rows + [e])[|rows|], e.userId, e.sourceType, e.sourceKey);
  }

  class PointsRepo {
    var rows: seq<PointsEntry>

    constructor ()
      ensures rows == []
    {
      rows := [];
    }

    /** `add_points`: always appends, there is no uniqueness on the ledger. */
    method AddPoints(userId: int, sourceType: string, sourceKey: Option<string>, points: int)
      modifies this
      ensures rows == old(rows) + [PointsEntry(userId, sourceType, sourceKey, points)]
    {
      rows := rows + [PointsEntry(userId, sourceType, sourceKey, points)];
    }
  }
}

/** Free-text quest answers (`quest_answers`). */
module Answers {

  datatype Answer = Answer(userId: int, dayIndex: int, text: string)

  /** `exists_for_day` */
  predicate ExistsForDay(rows: seq<Answer>, userId: int, dayIndex: int) {
    exists i :: 0 <= i < |rows| && rows[i].userId == userId && rows[i].dayIndex == dayIndex
  }

  class AnswersRepo {
    var rows: seq<Answer>

    constructor ()
      ensures rows == []
    {
      rows := [];
    }

    /** `save`: appends; answering twice keeps both answers. */
    method Save(userId: int, dayIndex: int, text: string)
      modifies this
      ensures rows == old(rows) + [Answer(userId, dayIndex, text)]
      ensures ExistsForDay(rows, userId, dayIndex)
    {
      rows := rows + [Answer(userId, dayIndex, text)];
      assert rows[|rows| - 1] == Answer(userId, dayIndex, text);
    }
  }
}

/** The per-user conversation step (`user_state`): at most one step per user. */
module UserState {
  import opened Common

  datatype Step = Step(step: string, payload: map<string, Value>)

  class StateRepo {
    var steps: map<int, Step>

    constructor ()
      ensures steps == map[]
    {
      steps := map[];
    }

    /** `set_state`: insert or overwrite. */
    method SetState(userId: int, step: string, payload: map<string, Value>)
      modifies this
      ensures steps == old(steps)[userId := Step(step, payload)]
    {
      steps := steps[userId := Step(step, payload)];
    }

    /** `clear_state` */
    method ClearState(userId: int)
      modifies this
      ensures steps == old(steps) - {userId}
    {
      steps := steps - {userId};
    }
  }
}

/** Course progress (`progress`): one row per user and day, status
    sent, viewed or done. */
module Progress {
  import opened Common
  import opened Clock

  datatype ProgressStatus = SentStatus | Viewed | Done

  datatype DayKey = DayKey(userId: int, dayIndex: int)

  datatype ProgressRow = ProgressRow(status: ProgressStatus, doneAt: Option<Instant>)

  /** `mark_sent`: insert, never overwrite. */
  function WithSent(rows: map<DayKey, ProgressRow>, k: DayKey): (r: map<DayKey, ProgressRow>)
    ensures k in r && r.Keys == rows.Keys + {k}
    ensures k in rows ==> r == rows
    ensures k !in rows ==> r[k] == ProgressRow(SentStatus, None)
  {
    if k in rows then rows else rows[k := ProgressRow(SentStatus, None)]
  }

  /** `mark_viewed`: insert or overwrite the status, whatever it was (a done day
      becomes viewed again); `done_at` is kept. */
  function WithViewed(rows: map<DayKey, ProgressRow>, k: DayKey): (r: map<DayKey, ProgressRow>)
    ensures r.Keys == rows.Keys + {k} && r[k].status == Viewed
    ensures forall k2 :: k2 in rows && k2 != k ==> r[k2] == rows[k2]
  {
    rows[k := ProgressRow(Viewed, if k in rows then rows[k].doneAt else None)]
  }

  /** `mark_done`: insert or overwrite with status done stamped `now`. */
  function WithDone(rows: map<DayKey, ProgressRow>, k: DayKey, now: Instant): (r: map<DayKey, ProgressRow>)
    ensures r.Keys == rows.Keys + {k} && r[k] == ProgressRow(Done, Some(now))
    ensures forall k2 :: k2 in rows && k2 != k ==> r[k2] == rows[k2]
  {
    rows[k := ProgressRow(Done, Some(now))]
  }

  function DoneKeys(rows: map<DayKey, ProgressRow>, userId: int): set<DayKey> {
    set k | k in rows && k.userId == userId && rows[k].status == Done
  }

  /** `count_done` */
  function CountDone(rows: map<DayKey, ProgressRow>, userId: int): nat {
    |DoneKeys(rows, userId)|
  }

  /** `was_delivered`: any row for that user and day, whatever its status. */
  predicate WasDelivered(rows: map<DayKey, ProgressRow>, userId: int, dayIndex: int) {
    DayKey(userId, dayIndex) in rows
  }

  /** Completing a day adds one to that user's done count unless it was already
      done; other users' counts do not move. */
  lemma DoneCountsOnce(rows: map<DayKey, ProgressRow>, k: DayKey, now: Instant, u: int)
    ensures CountDone(WithDone(rows, k, now), u)
         == CountDone(rows, u) + (if k.userId == u && !(k in rows && rows[k].status == Done) then 1 else 0)
  {
    var before := DoneKeys(rows, u);
    var after := DoneKeys(WithDone(rows, k, now), u);
    if k.userId == u {
      assert after == before + {k};
      if !(k in rows && rows[k].status == Done) {
        assert k !in before;
      } else {
        assert after == before;
      }
    } else {
      assert after == before;
    }
  }

  /** Viewing a done day takes it out of the done count. */
  lemma ViewedUndoesDone(rows: map<DayKey, ProgressRow>, k: DayKey)
    requires k in rows && rows[k].status == Done
    ensures CountDone(WithViewed(rows, k), k.userId) == CountDone(rows, k.userId) - 1
  {
    var before := DoneKeys(rows, k.userId);
    var after := DoneKeys(WithViewed(rows, k), k.userId);
    assert after == before - {k};
  }

  class ProgressRepo {
    var rows: map<DayKey, ProgressRow>

    constructor ()
      ensures rows == map[]
    {
      rows := map[];
    }

    method MarkSent(userId: int, dayIndex: int)
      modifies this
      ensures rows == WithSent(old(rows), DayKey(userId, dayIndex))
    {
      rows := WithSent(rows, DayKey(userId, dayIndex));
    }

    method MarkViewed(userId: int, dayIndex: int)
      modifies this
      ensures rows == WithViewed(old(rows), DayKey(userId, dayIndex))
    {
      rows := WithViewed(rows, DayKey(userId, dayIndex));
    }

    method MarkDone(userId: int, dayIndex: int, now: Instant)
      modifies this
      ensures rows == WithDone(old(rows), DayKey(userId, dayIndex), now)
    {
      rows := WithDone(rows, DayKey(userId, dayIndex), now);
    }
  }
}

/** Course enrollment (`enrollments`): at most one row per user, never deleted,
    only deactivated. */
module Enrollment {
  import opened Common
  import opened Clock

  datatype Enrollment = Enrollment(userId: int, deliveryTime: string, enrolledAt: Instant, isActive: bool)

  /** The primary key: no two rows of one user. */
  predicate UniqueUsers(rows: seq<Enrollment>) {
    forall i, j :: 0 <= i < j < |rows| ==> rows[i].userId != rows[j].userId
  }

  /** Index of the user's row, if any. */
  function Find(rows: seq<Enrollment>, userId: int): (r: Option<nat>)
    ensures r.Some? ==> r.value < |rows| && rows[r.value].userId == userId
    ensures r.None? ==> forall i :: 0 <= i < |rows| ==> rows[i].userId != userId
  {
    if rows == [] then None
    else if rows[|rows| - 1].userId == userId then Some(|rows| - 1)
    else Find(rows[..|rows| - 1], userId)
  }

  /** `get`: the user's row, only while it is active. */
  function Get(rows: seq<Enrollment>, userId: int): (r: Option<Enrollment>)
    ensures r.Some? ==> r.value in rows && r.value.userId == userId && r.value.isActive
    ensures UniqueUsers(rows) && r.None? ==> forall e :: e in rows && e.userId == userId ==> !e.isActive
  {
    match Find(rows, userId)
    case None => None
    case Some(i) => if rows[i].isActive then Some(rows[i]) else None
  }

  /** `list_active` */
  function ListActive(rows: seq<Enrollment>): (r: seq<Enrollment>)
    ensures forall e :: e in r <==> e in rows && e.isActive
    ensures |r| <= |rows|
  {
    if rows == [] then []
    else ListActive(rows[..|rows| - 1]) + if rows[|rows| - 1].isActive then [rows[|rows| - 1]] else []
  }

  /** `upsert`: a new active row, or the existing one with the new delivery time,
      reactivated, and its enrollment instant kept. */
  function Upserted(rows: seq<Enrollment>, userId: int, deliveryTime: string, now: Instant): seq<Enrollment> {
    match Find(rows, userId)
    case None => rows + [Enrollment(userId, deliveryTime, now, true)]
    case Some(i) => rows[i := Enrollment(userId, deliveryTime, rows[i].enrolledAt, true)]
  }

  lemma UpsertedFacts(rows: seq<Enrollment>, userId: int, deliveryTime: string, now: Instant)
    requires UniqueUsers(rows)
    ensures var r := Upserted(rows, userId, deliveryTime, now);
      UniqueUsers(r)
      && Get(r, userId).Some?
      && Get(r, userId).value.deliveryTime == deliveryTime
      && (forall e :: e in rows && e.userId == userId ==> Get(r, userId).value.enrolledAt == e.enrolledAt)
      && (forall u :: u != userId ==> Get(r, u) == Get(rows, u))
  {
    var r := Upserted(rows, userId, deliveryTime, now);
    match Find(rows, userId)
    case None =>
      assert r[..|rows|] == rows;
      forall u | u != userId
        ensures Get(r, u) == Get(rows, u)
      {
        assert Find(r, u) == Find(rows, u);
      }
    case Some(i) =>
      forall u | u != userId
        ensures Find(r, u) == Find(rows, u)
      {
        FindAfterUpdate(rows, i, r[i], u);
      }
      assert Find(r, userId) == Some(i) by {
        FindUnique(r, i);
      }
  }

  lemma {:induction false} FindUnique(rows: seq<Enrollment>, i: nat)
    requires UniqueUsers(rows) && i < |rows|
    ensures Find(rows, rows[i].userId) == Some(i)
    decreases |rows|
  {
    if i < |rows| - 1 {
      FindUnique(rows[..|rows| - 1], i);
    }
  }

  lemma {:induction false} FindAfterUpdate(rows: seq<Enrollment>, i: nat, e: Enrollment, u: int)
    requires i < |rows| && e.userId == rows[i].userId && u != e.userId
    ensures Find(rows[i := e], u) == Find(rows, u)
    decreases |rows|
  {
    if i < |rows| - 1 {
      assert rows[i := e][..|rows| - 1] == rows[..|rows| - 1][i := e];
      FindAfterUpdate(rows[..|rows| - 1], i, e, u);
    }
  }

  class EnrollmentRepo {
    var rows: seq<Enrollment>

    ghost predicate Valid()
      reads this
    {
      UniqueUsers(rows)
    }

    constructor ()
      ensures Valid() && rows == []
    {
      rows := [];
    }

    method Upsert(userId: int, deliveryTime: string, now: Instant)
      requires Valid()
      modifies this
      ensures Valid()
      ensures rows == Upserted(old(rows), userId, deliveryTime, now)
    {
      UpsertedFacts(rows, userId, deliveryTime, now);
      rows := Upserted(rows, userId, deliveryTime, now);
    }
  }
}

/** The users table and timezone resolution. */
module Users {
  import opened Common
  import opened Clock
  import opened Sorting

  datatype UserRow = UserRow(id: int, username: Option<string>, displayName: Option<string>,
                             timezone: Option<string>, pdConsent: bool, pdConsentAt: Option<Instant>,
                             createdAt: Instant)

  predicate UniqueIds(rows: seq<UserRow>) {
    forall i, j :: 0 <= i < j < |rows| ==> rows[i].id != rows[j].id
  }

  function Find(rows: seq<UserRow>, id: int): (r: Option<nat>)
    ensures r.Some? ==> r.value < |rows| && rows[r.value].id == id
    ensures r.None? ==> forall i :: 0 <= i < |rows| ==> rows[i].id != id
  {
    if rows == [] then None
    else if rows[|rows| - 1].id == id then Some(|rows| - 1)
    else Find(rows[..|rows| - 1], id)
  }

  /** SQL `COALESCE(a, b)` */
  function Coalesce<T>(a: Option<T>, b: Option<T>): (r: Option<T>)
    ensures a.Some? ==> r == a
    ensures a.None? ==> r == b
  {
    if a.Some? then a else b
  }

  /** `upsert_user` on conflict: the username is overwritten, a stored display name
      wins over the new one, and the timezone is replaced only by a non-null value. */
  function Merged(old_: UserRow, username: Option<string>, displayName: Option<string>, tz: Option<string>): (r: UserRow)
    ensures r.id == old_.id && r.username == username
    ensures old_.displayName.Some? ==> r.displayName == old_.displayName
    ensures old_.displayName.None? ==> r.displayName == displayName
    ensures tz.Some? ==> r.timezone == tz
    ensures tz.None? ==> r.timezone == old_.timezone
    ensures r.pdConsent == old_.pdConsent && r.pdConsentAt == old_.pdConsentAt && r.createdAt == old_.createdAt
  {
    old_.(username := username, displayName := Coalesce(old_.displayName, displayName),
          timezone := Coalesce(tz, old_.timezone))
  }

  /** `get_timezone`: None for an unknown user or a null column. */
  function GetTimezone(rows: seq<UserRow>, id: int): (r: Option<string>)
    ensures (forall i :: 0 <= i < |rows| ==> rows[i].id != id) ==> r.None?
  {
    match Find(rows, id)
    case None => None
    case Some(i) => rows[i].timezone
  }

  /** The named zones the timezone database knows, as fixed offsets. */
  type TzDb = map<string, Zone>

  /** `_user_tz`: the stored zone name, or the default one when it is missing,
      empty or unknown. */
  function ZoneFor(tzName: Option<string>, db: TzDb, fallback: Zone): (z: Zone)
    ensures tzName.Some? && tzName.value in db ==> z == db[tzName.value]
    ensures tzName.None? || tzName.value !in db ==> z == fallback
  {
    match tzName
    case Some(n) => if n in db then db[n] else fallback
    case None => fallback
  }

  function UserZone(rows: seq<UserRow>, id: int, db: TzDb, fallback: Zone): Zone {
    ZoneFor(GetTimezone(rows, id), db, fallback)
  }

  function NegCreatedAt(u: UserRow): int { -u.createdAt }

  /** The rows `ORDER BY created_at DESC LIMIT limit` selects: newest first. */
  function NewestUsers(rows: seq<UserRow>, limit: nat): (r: seq<UserRow>)
    ensures |r| == Min(limit, |rows|)
    ensures forall i :: 0 <= i < |r| ==> r[i] in rows
    ensures forall i, j :: 0 <= i < j < |r| ==> r[i].createdAt >= r[j].createdAt
  {
    var sorted := SortBy(rows, NegCreatedAt);
    var taken := sorted[..Min(limit, |sorted|)];
    forall i | 0 <= i < |taken|
      ensures taken[i] in rows
    {
      assert taken[i] in multiset(rows);
    }
    forall i, j | 0 <= i < j < |taken|
      ensures taken[i].createdAt >= taken[j].createdAt
    {
      assert NegCreatedAt(sorted[i]) <= NegCreatedAt(sorted[j]);
    }
    taken
  }

  /** `list_user_ids`: the ids of the newest users, at most `limit` of them. */
  function ListUserIds(rows: seq<UserRow>, limit: nat): (r: seq<int>)
    ensures |r| == Min(limit, |rows|)
    ensures forall i :: 0 <= i < |r| ==> r[i] == NewestUsers(rows, limit)[i].id
    ensures forall i :: 0 <= i < |r| ==> exists j :: 0 <= j < |rows| && rows[j].id == r[i]
  {
    var taken := NewestUsers(rows, limit);
    forall i | 0 <= i < |taken|
      ensures exists j :: 0 <= j < |rows| && rows[j].id == taken[i].id
    {
      var j :| 0 <= j < |rows| && rows[j] == taken[i];
    }
    seq(|taken|, i requires 0 <= i < |taken| => taken[i].id)
  }

  class UsersRepo {
    var rows: seq<UserRow>

    ghost predicate Valid()
      reads this
    {
      UniqueIds(rows)
    }

    constructor ()
      ensures Valid() && rows == []
    {
      rows := [];
    }

    /** `upsert_user` */
    method UpsertUser(id: int, username: Option<string>, displayName: Option<string>, tz: Option<string>, now: Instant)
      requires Valid()
      modifies this
      ensures Valid()
      ensures match Find(old(rows), id)
        case None => rows == old(rows) + [UserRow(id, username, displayName, tz, false, None, now)]
        case Some(i) => rows == old(rows)[i := Merged(old(rows)[i], username, displayName, tz)]
    {
      match Find(rows, id)
      case None =>
        rows := rows + [UserRow(id, username, displayName, tz, false, None, now)];
      case Some(i) =>
        rows := rows[i := Merged(rows[i], username, displayName, tz)];
    }

    /** `set_pd_consent`: consent comes with a timestamp, withdrawal clears both. */
    method SetPdConsent(id: int, consent: bool, now: Instant)
      requires Valid()
      modifies this
      ensures Valid()
      ensures match Find(old(rows), id)
        case None => rows == old(rows)
        case Some(i) => rows == old(rows)[i := old(rows)[i].(pdConsent := consent,
                                                               pdConsentAt := if consent then Some(now) else None)]
    {
      match Find(rows, id)
      case None =>
      case Some(i) =>
        rows := rows[i := rows[i].(pdConsent := consent, pdConsentAt := if consent then Some(now) else None)];
    }
  }
}
