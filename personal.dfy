/** Personal reminders (`personal_reminders`): one-shot reminders a user sets for
    a local date and time typed as `DD.MM.YYYY HH:MM`, and the service that
    creates and edits them under an ownership check. */
module PersonalReminders {
  import opened Common
  import opened Clock
  import opened Sorting
  import opened Outbox
  import Users

  /** The `start_at` column as a reader sees it: absent or empty, a string that
      `datetime.fromisoformat` rejects, or a datetime with whole seconds given by
      its wall clock (seconds since 1970-01-01 read as if at UTC) and its UTC
      offset in seconds, None when the datetime is naive. */
  datatype StartAt = NoStart | Unreadable | At(wall: Instant, offset: Option<int>)

  datatype Reminder = Reminder(id: int, userId: int, text: string, startAt: StartAt,
                               remindTime: string, isActive: bool)

  /** The default zone and the zone database `_user_tz` resolves names in. */
  datatype ZoneSettings = ZoneSettings(defaultZone: Zone, tzDb: Users.TzDb)

  /** `_user_tz`: the user's stored zone, or the default one. */
  function UserZoneOf(users: seq<Users.UserRow>, cfg: ZoneSettings, userId: int): Zone {
    Users.UserZone(users, userId, cfg.tzDb, cfg.defaultZone)
  }

  const MAX_TEXT: nat := 500

  /** `(text or "").strip()[:500]`: empty exactly when the text is blank. */
  function NormalText(text: string): (t: string)
    ensures |t| <= MAX_TEXT && |t| <= |Trim(text)| && t == Trim(text)[..|t|]
    ensures t == [] <==> Trim(text) == []
    ensures |Trim(text)| <= MAX_TEXT ==> t == Trim(text)
    ensures t != [] ==> !IsSpace(t[0])
  {
    Take(Trim(text), MAX_TEXT)
  }

  // ------------------------------------------- "%d.%m.%Y %H:%M" parsing

  /** A local date and time as the user types it. */
  datatype LocalStamp = LocalStamp(date: Ymd, time: HhMm)

  predicate ValidStamp(s: LocalStamp) { ValidYmd(s.date) && s.time.Valid() }

  /** One `strptime` field of one or two ASCII digits (`%d`, `%m`, `%H`, `%M`)
      whose value lies in `lo..hi`. */
  function Field(s: string, lo: int, hi: int): (r: Option<int>)
    ensures r.Some? ==> lo <= r.value <= hi
  {
    if 1 <= |s| <= 2 && AllDigits(s) && lo <= DigitsValue(s) <= hi then Some(DigitsValue(s)) else None
  }

  /** A run of `n` digits is worth less than `10^n`. */
  lemma {:induction false} DigitsBelow(s: string)
    requires AllDigits(s)
    ensures DigitsValue(s) < Pow10(|s|)
  {
    if s != [] {
      DigitsBelow(s[..|s| - 1]);
    }
  }

  /** The `%H:%M` tail: hour and minute of one or two digits around a colon. */
  function ParseClock(s: string): (r: Option<HhMm>)
    ensures r.Some? ==> r.value.Valid()
  {
    var hm := Split(s, ':');
    if |hm| != 2 then None
    else
      match (Field(hm[0], 0, 23), Field(hm[1], 0, 59))
      case (Some(h), Some(m)) => Some(HhMm(h, m))
      case _ => None
  }

  /** The `%d.%m.%Y` head: the date must exist, and year 0 is refused. */
  function ParseDate(d: string, m: string, y: string): (r: Option<Ymd>)
    ensures r.Some? ==> ValidYmd(r.value)
  {
    if |y| != 4 || !AllDigits(y) then None
    else
      DigitsBelow(y);
      var year := DigitsValue(y);
      match (Field(d, 1, 31), Field(m, 1, 12))
      case (Some(day), Some(month)) =>
        if 1 <= year && day <= DaysInMonthOf(year, month) then Some(Ymd(year, month, day)) else None
      case _ => None
  }

  /** `datetime.strptime(raw.strip(), "%d.%m.%Y %H:%M")`: day and month of one
      or two digits, a four-digit year, a run of whitespace, hour and minute of
      one or two digits, nothing after. None where Python raises ValueError. */
  function ParseLocalDateTime(raw: string): (r: Option<LocalStamp>)
    ensures r.Some? ==> ValidStamp(r.value)
  {
    var parts := Split(Trim(raw), '.');
    if |parts| != 3 || |parts[2]| < 4 then None
    else
      var rest := parts[2][4..];
      var clock := TrimStart(rest);
      if |clock| == |rest| then None
      else
        match (ParseDate(parts[0], parts[1], parts[2][..4]), ParseClock(clock))
        case (Some(date), Some(time)) => Some(LocalStamp(date, time))
        case _ => None
  }

  /** `dt.strftime("%d.%m.%Y %H:%M")` */
  function FormatLocal(s: LocalStamp): string {
    FormatPadded(s.date.day, 2) + "." + FormatPadded(s.date.month, 2) + "." + FormatPadded(s.date.year, 4)
    + " " + FormatPadded(s.time.hour, 2) + ":" + FormatPadded(s.time.minute, 2)
  }

  /** A non-negative number below `10^w`, zero-padded to `w`, is `w` digits
      that read back as the number. */
  lemma PaddedDigits(n: int, w: nat)
    requires 1 <= w && 0 <= n < Pow10(w)
    ensures |FormatPadded(n, w)| == w && AllDigits(FormatPadded(n, w))
    ensures DigitsValue(FormatPadded(n, w)) == n
  {
    NatWidth(n, w);
    ZeroPadValue(n, w);
  }

  lemma ParseClockRoundTrip(c: HhMm)
    requires c.Valid()
    ensures ParseClock(FormatPadded(c.hour, 2) + ":" + FormatPadded(c.minute, 2)) == Some(c)
  {
    var hh := FormatPadded(c.hour, 2);
    var mi := FormatPadded(c.minute, 2);
    PaddedDigits(c.hour, 2);
    PaddedDigits(c.minute, 2);
    DigitsHaveNo(hh, ':');
    DigitsHaveNo(mi, ':');
    SplitAt(hh, ':', mi);
    SplitNoSep(mi, ':');
    assert hh + ":" + mi == hh + [':'] + mi;
  }

  lemma ParseDateRoundTrip(c: Ymd)
    requires ValidYmd(c)
    ensures ParseDate(FormatPadded(c.day, 2), FormatPadded(c.month, 2), FormatPadded(c.year, 4)) == Some(c)
  {
    PaddedDigits(c.day, 2);
    PaddedDigits(c.month, 2);
    PaddedDigits(c.year, 4);
  }

  /** Three separator-free parts joined by the separator split back into themselves. */
  lemma SplitThree(a: string, b: string, c: string, sep: char)
    requires sep !in a && sep !in b && sep !in c
    ensures Split(a + [sep] + b + [sep] + c, sep) == [a, b, c]
  {
    assert a + [sep] + b + [sep] + c == a + [sep] + (b + [sep] + c);
    SplitAt(a, sep, b + [sep] + c);
    SplitAt(b, sep, c);
    SplitNoSep(c, sep);
  }

  /** The year and clock part of the text: four year digits, one space, then
      the clock, which starts with a digit. */
  lemma YearAndClock(yy: string, clock: string)
    requires |yy| == 4 && clock != [] && IsDigit(clock[0])
    ensures (yy + " " + clock)[..4] == yy
    ensures (yy + " " + clock)[4..] == [' '] + clock
    ensures TrimStart((yy + " " + clock)[4..]) == clock
  {
    var t := yy + " " + clock;
    assert t[4..] == [' '] + clock;
    TrimStartSpace(' ', clock);
  }

  lemma TrimStartSpace(c: char, s: string)
    requires IsSpace(c) && s != [] && IsDigit(s[0])
    ensures TrimStart([c] + s) == s
  {
    assert ([c] + s)[1..] == s;
  }

  /** Text that splits into a parsable date head and, after one space, a
      parsable clock parses to that date and time. */
  lemma ParseOfParts(raw: string, dd: string, mm: string, yy: string, clock: string, date: Ymd, time: HhMm)
    requires Split(Trim(raw), '.') == [dd, mm, yy + " " + clock]
    requires |yy| == 4 && clock != [] && IsDigit(clock[0])
    requires ParseDate(dd, mm, yy) == Some(date) && ParseClock(clock) == Some(time)
    ensures ParseLocalDateTime(raw) == Some(LocalStamp(date, time))
  {
    YearAndClock(yy, clock);
  }

  /** Dot-free parts joined by dots, starting and ending with a digit, are
      untouched by `strip()` and split back into the parts. */
  lemma DottedParts(dd: string, mm: string, tail: string)
    requires '.' !in dd && '.' !in mm && '.' !in tail
    requires dd != [] && IsDigit(dd[0]) && tail != [] && IsDigit(tail[|tail| - 1])
    ensures Split(Trim(dd + ['.'] + mm + ['.'] + tail), '.') == [dd, mm, tail]
  {
    var text := dd + ['.'] + mm + ['.'] + tail;
    assert text[0] == dd[0] && text[|text| - 1] == tail[|tail| - 1];
    TrimKeeps(text);
    SplitThree(dd, mm, tail, '.');
  }

  /** Every valid date and time, written as the bot writes it, parses back to itself. */
  lemma FormatParseRoundTrip(s: LocalStamp)
    requires ValidStamp(s)
    ensures ParseLocalDateTime(FormatLocal(s)) == Some(s)
  {
    var dd := FormatPadded(s.date.day, 2);
    var mm := FormatPadded(s.date.month, 2);
    var yy := FormatPadded(s.date.year, 4);
    var hh := FormatPadded(s.time.hour, 2);
    var mi := FormatPadded(s.time.minute, 2);
    PaddedDigits(s.date.day, 2);
    PaddedDigits(s.date.month, 2);
    PaddedDigits(s.date.year, 4);
    PaddedDigits(s.time.hour, 2);
    PaddedDigits(s.time.minute, 2);
    ParseClockRoundTrip(s.time);
    ParseDateRoundTrip(s.date);
    DigitFields(FormatLocal(s), dd, mm, yy, hh, mi, s.date, s.time);
  }

  /** The written form, seen as five digit fields. */
  lemma DigitFields(text: string, dd: string, mm: string, yy: string, hh: string, mi: string, date: Ymd, time: HhMm)
    requires text == dd + "." + mm + "." + yy + " " + hh + ":" + mi
    requires |dd| == 2 && |mm| == 2 && |yy| == 4 && |hh| == 2 && |mi| == 2
    requires AllDigits(dd) && AllDigits(mm) && AllDigits(yy) && AllDigits(hh) && AllDigits(mi)
    requires ParseDate(dd, mm, yy) == Some(date) && ParseClock(hh + ":" + mi) == Some(time)
    ensures ParseLocalDateTime(text) == Some(LocalStamp(date, time))
  {
    var clock := hh + ":" + mi;
    DigitsHaveNo(dd, '.');
    DigitsHaveNo(mm, '.');
    var tail := ClockTail(yy, hh, mi);
    assert text == dd + ['.'] + mm + ['.'] + tail;
    DottedParts(dd, mm, tail);
    ParseOfParts(text, dd, mm, yy, clock, date, time);
  }

  /** The year and clock part of the written form: no dots, ends in a digit. */
  lemma ClockTail(yy: string, hh: string, mi: string) returns (tail: string)
    requires |yy| == 4 && |hh| == 2 && |mi| == 2
    requires AllDigits(yy) && AllDigits(hh) && AllDigits(mi)
    ensures tail == yy + " " + (hh + ":" + mi)
    ensures '.' !in tail && tail != [] && IsDigit(tail[|tail| - 1])
  {
    DigitsHaveNo(yy, '.');
    DigitsHaveNo(hh, '.');
    DigitsHaveNo(mi, '.');
    tail := yy + " " + (hh + ":" + mi);
    assert tail[|tail| - 1] == mi[1];
  }

  /** `_parse_user_datetime`: the typed text, normalised to the bot's own spelling. */
  function NormalizeLocal(raw: string): Option<string> {
    match ParseLocalDateTime(raw)
    case None => None
    case Some(s) => Some(FormatLocal(s))
  }

  /** Normalising twice is normalising once, and the normal form reads as the same date and time. */
  lemma NormalizeIdempotent(raw: string)
    ensures NormalizeLocal(raw).Some? ==> NormalizeLocal(NormalizeLocal(raw).value) == NormalizeLocal(raw)
    ensures NormalizeLocal(raw).Some? ==> ParseLocalDateTime(NormalizeLocal(raw).value) == ParseLocalDateTime(raw)
  {
    if ParseLocalDateTime(raw).Some? {
      FormatParseRoundTrip(ParseLocalDateTime(raw).value);
    }
  }

  /** What `create` and `update_datetime` store: the typed wall time in the
      user's zone converted to UTC, written with a `+00:00` offset. */
  function StoredStart(s: LocalStamp, z: Zone): StartAt {
    At(ToUtc(YmdToOrdinal(s.date), s.time, z), Some(0))
  }

  /** The stored start, read back in the same zone, is the date and time the user typed. */
  lemma StoredStartReadsBack(s: LocalStamp, z: Zone)
    requires ValidStamp(s)
    ensures OrdinalToYmd(LocalDate(StoredStart(s, z).wall, z)) == s.date
    ensures LocalHhMm(StoredStart(s, z).wall, z) == s.time
  {
    ToUtcRoundTrip(YmdToOrdinal(s.date), s.time, z);
    YmdRoundTrip(s.date);
  }

  // ------------------------------------------------------------ the table

  /** The table in id order; ids are SERIAL, so they increase along the rows. */
  predicate IdsIncreasing(rows: seq<Reminder>) {
    forall i, j :: 0 <= i < j < |rows| ==> rows[i].id < rows[j].id
  }

  /** `get`: the row with this id. */
  function Get(rows: seq<Reminder>, id: int): (r: Option<Reminder>)
    ensures r.Some? ==> r.value in rows && r.value.id == id
    ensures r.None? <==> forall i :: 0 <= i < |rows| ==> rows[i].id != id
  {
    if rows == [] then None
    else if rows[|rows| - 1].id == id then Some(rows[|rows| - 1])
    else Get(rows[..|rows| - 1], id)
  }

  /** `get_owned` finds the row: it exists and belongs to the user. */
  predicate OwnedBy(rows: seq<Reminder>, userId: int, id: int) {
    Get(rows, id).Some? && Get(rows, id).value.userId == userId
  }

  /** `WHERE id=%s AND user_id=%s` */
  predicate Matches(r: Reminder, id: int, userId: int) { r.id == id && r.userId == userId }

  /** The rowcount of an update or delete `WHERE id=%s AND user_id=%s`. */
  function CountMatching(rows: seq<Reminder>, id: int, userId: int): nat {
    if rows == [] then 0
    else CountMatching(rows[..|rows| - 1], id, userId) + if Matches(rows[|rows| - 1], id, userId) then 1 else 0
  }

  lemma {:induction false} CountNone(rows: seq<Reminder>, id: int, userId: int)
    requires forall i :: 0 <= i < |rows| ==> rows[i].id != id
    ensures CountMatching(rows, id, userId) == 0
  {
    if rows != [] {
      CountNone(rows[..|rows| - 1], id, userId);
    }
  }

  /** With unique ids, the rowcount is 1 for an owned reminder and 0 otherwise,
      so `rowcount > 0` is the ownership check. */
  lemma {:induction false} MatchingIsOwned(rows: seq<Reminder>, id: int, userId: int)
    requires IdsIncreasing(rows)
    ensures CountMatching(rows, id, userId) == if OwnedBy(rows, userId, id) then 1 else 0
  {
    if rows != [] {
      var init := rows[..|rows| - 1];
      assert IdsIncreasing(init);
      if rows[|rows| - 1].id == id {
        CountNone(init, id, userId);
      } else {
        MatchingIsOwned(init, id, userId);
      }
    }
  }

  /** `update_text` */
  function WithText(rows: seq<Reminder>, id: int, userId: int, text: string): (r: seq<Reminder>)
    ensures |r| == |rows|
    ensures forall i :: 0 <= i < |rows| ==>
      r[i] == if Matches(rows[i], id, userId) then rows[i].(text := text) else rows[i]
  {
    seq(|rows|, i requires 0 <= i < |rows| =>
      if Matches(rows[i], id, userId) then rows[i].(text := text) else rows[i])
  }

  /** `update_datetime` */
  function WithStart(rows: seq<Reminder>, id: int, userId: int, startAt: StartAt, remindTime: string): (r: seq<Reminder>)
    ensures |r| == |rows|
    ensures forall i :: 0 <= i < |rows| ==>
      r[i] == if Matches(rows[i], id, userId) then rows[i].(startAt := startAt, remindTime := remindTime) else rows[i]
  {
    seq(|rows|, i requires 0 <= i < |rows| =>
      if Matches(rows[i], id, userId) then rows[i].(startAt := startAt, remindTime := remindTime) else rows[i])
  }

  /** `delete`: every matching row goes, every other row stays, in order. */
  function Without(rows: seq<Reminder>, id: int, userId: int): (r: seq<Reminder>)
    ensures forall x :: x in r <==> x in rows && !Matches(x, id, userId)
    ensures |r| == |rows| - CountMatching(rows, id, userId)
  {
    if rows == [] then []
    else
      var last := rows[|rows| - 1];
      Without(rows[..|rows| - 1], id, userId) + if Matches(last, id, userId) then [] else [last]
  }

  /** Deleting an owned reminder removes exactly the row with its id. */
  lemma WithoutOwned(rows: seq<Reminder>, id: int, userId: int)
    requires IdsIncreasing(rows) && OwnedBy(rows, userId, id)
    ensures forall x :: x in Without(rows, id, userId) <==> x in rows && x.id != id
    ensures |Without(rows, id, userId)| == |rows| - 1
  {
    MatchingIsOwned(rows, id, userId);
    var owner := Get(rows, id).value;
    forall x | x in rows && x.id == id
      ensures Matches(x, id, userId)
    {
      var i :| 0 <= i < |rows| && rows[i] == x;
      var j :| 0 <= j < |rows| && rows[j] == owner;
      assert i == j;
    }
  }

  lemma {:induction false} WithoutKeepsOrder(rows: seq<Reminder>, id: int, userId: int)
    requires IdsIncreasing(rows)
    ensures IdsIncreasing(Without(rows, id, userId))
  {
    if rows != [] {
      var init := rows[..|rows| - 1];
      var last := rows[|rows| - 1];
      assert IdsIncreasing(init);
      WithoutKeepsOrder(init, id, userId);
      var w := Without(init, id, userId);
      forall k | 0 <= k < |w|
        ensures w[k].id < last.id
      {
        assert w[k] in init;
      }
    }
  }

  /** An edit changes no id, so the order of ids survives it. */
  lemma EditKeepsOrder(rows: seq<Reminder>, r: seq<Reminder>)
    requires IdsIncreasing(rows) && |r| == |rows|
    requires forall i :: 0 <= i < |rows| ==> r[i].id == rows[i].id
    ensures IdsIncreasing(r)
  {
  }

  function UserIdOf(r: Reminder): int { r.userId }

  function ActiveRows(rows: seq<Reminder>): (r: seq<Reminder>)
    ensures forall x :: x in r <==> x in rows && x.isActive
  {
    if rows == [] then []
    else
      var last := rows[|rows| - 1];
      ActiveRows(rows[..|rows| - 1]) + if last.isActive then [last] else []
  }

  /** `list_active`: the active reminders, ordered by user (and by id within a
      user, since the sort keeps the table's id order among equal users). */
  function ListActive(rows: seq<Reminder>): (r: seq<Reminder>)
    ensures forall x :: x in r <==> x in rows && x.isActive
    ensures SortedBy(r, UserIdOf)
  {
    var a := ActiveRows(rows);
    var r := SortBy(a, UserIdOf);
    assert forall x :: x in r <==> x in multiset(a);
    r
  }

  class PersonalRemindersRepo {
    var rows: seq<Reminder>
    var nextId: int

    ghost predicate Valid()
      reads this
    {
      1 <= nextId && IdsIncreasing(rows) && forall i :: 0 <= i < |rows| ==> 1 <= rows[i].id < nextId
    }

    constructor ()
      ensures Valid() && rows == [] && nextId == 1
    {
      rows := [];
      nextId := 1;
    }

    /** `create`: a new active reminder under a fresh id, `RETURNING id`. */
    method Create(userId: int, text: string, startAt: StartAt, remindTime: string) returns (id: int)
      requires Valid()
      modifies this
      ensures Valid()
      ensures id == old(nextId) && Get(old(rows), id).None?
      ensures rows == old(rows) + [Reminder(id, userId, text, startAt, remindTime, true)]
    {
      id := nextId;
      var r := rows + [Reminder(id, userId, text, startAt, remindTime, true)];
      assert forall k :: 0 <= k < |rows| ==> r[k] == rows[k];
      rows := r;
      nextId := nextId + 1;
    }

    /** `update_text`: the result is the rowcount. */
    method UpdateText(id: int, userId: int, text: string) returns (count: nat)
      requires Valid()
      modifies this
      ensures Valid()
      ensures rows == WithText(old(rows), id, userId, text)
      ensures count == CountMatching(old(rows), id, userId)
    {
      count := CountMatching(rows, id, userId);
      EditKeepsOrder(rows, WithText(rows, id, userId, text));
      rows := WithText(rows, id, userId, text);
    }

    /** `update_datetime`: the result is the rowcount. */
    method UpdateDatetime(id: int, userId: int, startAt: StartAt, remindTime: string) returns (count: nat)
      requires Valid()
      modifies this
      ensures Valid()
      ensures rows == WithStart(old(rows), id, userId, startAt, remindTime)
      ensures count == CountMatching(old(rows), id, userId)
    {
      count := CountMatching(rows, id, userId);
      EditKeepsOrder(rows, WithStart(rows, id, userId, startAt, remindTime));
      rows := WithStart(rows, id, userId, startAt, remindTime);
    }

    /** `delete`: the result is the rowcount. */
    method Delete(id: int, userId: int) returns (count: nat)
      requires Valid()
      modifies this
      ensures Valid()
      ensures rows == Without(old(rows), id, userId)
      ensures count == CountMatching(old(rows), id, userId)
    {
      count := CountMatching(rows, id, userId);
      WithoutKeepsOrder(rows, id, userId);
      var w := Without(rows, id, userId);
      forall k | 0 <= k < |w|
        ensures 1 <= w[k].id < nextId
      {
        assert w[k] in rows;
      }
      rows := w;
    }
  }

  // ----------------------------------------------------------- the service

  class PersonalReminderService {
    const cfg: ZoneSettings
    const repo: PersonalRemindersRepo
    const users: Users.UsersRepo
    const outbox: OutboxRepo

    constructor (cfg: ZoneSettings, repo: PersonalRemindersRepo, users: Users.UsersRepo, outbox: OutboxRepo)
      ensures this.cfg == cfg && this.repo == repo && this.users == users && this.outbox == outbox
    {
      this.cfg := cfg;
      this.repo := repo;
      this.users := users;
      this.outbox := outbox;
    }

    ghost predicate Valid()
      reads this, repo, outbox
    {
      repo.Valid() && outbox.Valid()
    }

    /** `get_owned`: the row, when it exists and belongs to the user. */
    function GetOwned(userId: int, id: int): (r: Option<Reminder>)
      reads this, repo
      ensures r.Some? <==> OwnedBy(repo.rows, userId, id)
      ensures r.Some? ==> r.value in repo.rows && r.value.id == id && r.value.userId == userId
    {
      var found := Get(repo.rows, id);
      if found.Some? && found.value.userId == userId then found else None
    }

    /** `create`: None, and nothing stored, for blank text or an unreadable date
        and time; otherwise the new reminder's id. */
    method Create(userId: int, text: string, startLocal: string) returns (id: Option<int>)
      requires Valid()
      modifies repo
      ensures Valid()
      ensures id.Some? <==> NormalText(text) != [] && ParseLocalDateTime(startLocal).Some?
      ensures id.None? ==> repo.rows == old(repo.rows)
      ensures id.Some? ==> Get(old(repo.rows), id.value).None?
      ensures id.Some? ==> var s := ParseLocalDateTime(startLocal).value;
        repo.rows == old(repo.rows) + [Reminder(id.value, userId, NormalText(text),
                                                StoredStart(s, UserZoneOf(users.rows, cfg, userId)),
                                                HhMmText(s.time), true)]
    {
      var title := NormalText(text);
      if title == [] {
        return None;
      }
      var parsed := ParseLocalDateTime(startLocal);
      if parsed.None? {
        return None;
      }
      var z := UserZoneOf(users.rows, cfg, userId);
      var rid := repo.Create(userId, title, StoredStart(parsed.value, z), HhMmText(parsed.value.time));
      id := Some(rid);
    }

    /** `update_text`: false, and no change, unless the reminder is the user's
        and the new text is not blank. */
    method UpdateText(userId: int, id: int, text: string) returns (ok: bool)
      requires Valid()
      modifies repo
      ensures Valid()
      ensures ok <==> OwnedBy(old(repo.rows), userId, id) && NormalText(text) != []
      ensures ok ==> repo.rows == WithText(old(repo.rows), id, userId, NormalText(text))
      ensures !ok ==> repo.rows == old(repo.rows)
    {
      if GetOwned(userId, id).None? {
        return false;
      }
      var val := NormalText(text);
      if val == [] {
        return false;
      }
      MatchingIsOwned(repo.rows, id, userId);
      var count := repo.UpdateText(id, userId, val);
      ok := count > 0;
    }

    /** `_cancel_future_jobs`: the reminder's pending jobs from now on. */
    method CancelFutureJobs(id: int, now: Instant)
      requires Valid()
      modifies outbox
      ensures Valid()
      ensures outbox.jobs == CancelIn(old(outbox.jobs), PersonalReminderJobs(id), now)
    {
      var n := outbox.CancelFuture(PersonalReminderJobs(id), now);
    }

    /** `update_datetime`: the reminder's future jobs are cancelled only after
        the row was updated. */
    method UpdateDatetime(userId: int, id: int, startLocal: string, now: Instant) returns (ok: bool)
      requires Valid()
      modifies repo, outbox
      ensures Valid()
      ensures ok <==> OwnedBy(old(repo.rows), userId, id) && ParseLocalDateTime(startLocal).Some?
      ensures ok ==> var s := ParseLocalDateTime(startLocal).value;
        repo.rows == WithStart(old(repo.rows), id, userId, StoredStart(s, UserZoneOf(users.rows, cfg, userId)),
                               HhMmText(s.time))
      ensures ok ==> outbox.jobs == CancelIn(old(outbox.jobs), PersonalReminderJobs(id), now)
      ensures !ok ==> repo.rows == old(repo.rows) && outbox.jobs == old(outbox.jobs)
    {
      if GetOwned(userId, id).None? {
        return false;
      }
      var parsed := ParseLocalDateTime(startLocal);
      if parsed.None? {
        return false;
      }
      var z := UserZoneOf(users.rows, cfg, userId);
      MatchingIsOwned(repo.rows, id, userId);
      var count := repo.UpdateDatetime(id, userId, StoredStart(parsed.value, z), HhMmText(parsed.value.time));
      if count > 0 {
        CancelFutureJobs(id, now);
      }
      ok := count > 0;
    }

    /** `delete`: an owned reminder loses its future jobs, then its row. */
    method Delete(userId: int, id: int, now: Instant) returns (ok: bool)
      requires Valid()
      modifies repo, outbox
      ensures Valid()
      ensures ok <==> OwnedBy(old(repo.rows), userId, id)
      ensures ok ==> outbox.jobs == CancelIn(old(outbox.jobs), PersonalReminderJobs(id), now)
      ensures ok ==> repo.rows == Without(old(repo.rows), id, userId) && |repo.rows| == |old(repo.rows)| - 1
      ensures ok ==> forall x :: x in repo.rows <==> x in old(repo.rows) && x.id != id
      ensures !ok ==> repo.rows == old(repo.rows) && outbox.jobs == old(outbox.jobs)
    {
      if GetOwned(userId, id).None? {
        return false;
      }
      MatchingIsOwned(repo.rows, id, userId);
      WithoutOwned(repo.rows, id, userId);
      CancelFutureJobs(id, now);
      var count := repo.Delete(id, userId);
      ok := count > 0;
    }
  }
}
