/** The daily content pack: sets of generated items per UTC date. A set starts
    pending and ends ready or failed; the newest ready set of a date is the
    one shown, and a set that becomes ready supersedes the older ready sets
    of its date. */
module DailyPack {
  import opened Common
  import opened Clock

  datatype SetStatus = Pending | Ready | Failed | Superseded

  /** A row of `daily_sets`; `id` is the table's serial id and `createdAt`
      the `now()` of its insertion. */
  datatype DailySet = DailySet(id: int, utcDate: Day, lessonDayIndex: Option<int>, topic: string,
                               trigger: string, status: SetStatus, createdAt: Instant)

  /** A row of `daily_items`; `payload` is the JSON object of `payload_json`. */
  datatype Item = Item(id: int, setId: int, kind: string, title: Option<string>, content: string,
                       payload: map<string, Value>)

  /** `datetime.now(timezone.utc).date()` */
  function UtcToday(now: Instant): Day {
    LocalDate(now, UTC)
  }

  predicate SetIdsAreIndexes(sets: seq<DailySet>) {
    forall i :: 0 <= i < |sets| ==> sets[i].id == i
  }

  predicate ItemIdsAreIndexes(items: seq<Item>) {
    forall i :: 0 <= i < |items| ==> items[i].id == i
  }

  /** `UNIQUE(set_id, kind)`: at most one item of each kind per set. */
  predicate OneItemPerKind(items: seq<Item>) {
    forall i, j :: 0 <= i < j < |items| ==> items[i].setId != items[j].setId || items[i].kind != items[j].kind
  }

  // ------------------------------------------------------------------- sets

  /** `has_any_set_for_date`: a set of that date in any status. */
  predicate HasSetOn(sets: seq<DailySet>, date: Day) {
    exists i :: 0 <= i < |sets| && sets[i].utcDate == date
  }

  predicate ReadyOn(s: DailySet, date: Day) {
    s.utcDate == date && s.status == Ready
  }

  /** `a` does not come before `b` in `ORDER BY created_at DESC, id DESC`. */
  predicate NotAfter(a: DailySet, b: DailySet) {
    a.createdAt < b.createdAt || (a.createdAt == b.createdAt && a.id <= b.id)
  }

  /** The ready set of a date that no other ready set of that date comes
      after. */
  predicate IsActive(sets: seq<DailySet>, date: Day, s: DailySet) {
    s in sets && ReadyOn(s, date)
    && forall i :: 0 <= i < |sets| && ReadyOn(sets[i], date) ==> NotAfter(sets[i], s)
  }

  /** The order of `get_active_set` names one set: two sets that both head it
      are the same set. */
  lemma ActiveIsUnique(sets: seq<DailySet>, date: Day, a: DailySet, b: DailySet)
    requires SetIdsAreIndexes(sets)
    requires IsActive(sets, date, a) && IsActive(sets, date, b)
    ensures a == b
  {
    var i :| 0 <= i < |sets| && sets[i] == a;
    var j :| 0 <= j < |sets| && sets[j] == b;
    assert NotAfter(sets[i], b) && NotAfter(sets[j], a);
  }

  /** When one set is the only ready set of its date, it is the active one,
      as it is right after a generation succeeds. */
  lemma OnlyReadyIsActive(sets: seq<DailySet>, date: Day, k: int)
    requires SetIdsAreIndexes(sets) && 0 <= k < |sets| && ReadyOn(sets[k], date)
    requires forall i :: 0 <= i < |sets| && ReadyOn(sets[i], date) ==> i == k
    ensures IsActive(sets, date, sets[k])
    ensures forall s :: IsActive(sets, date, s) ==> s == sets[k]
  {
    forall s | IsActive(sets, date, s)
      ensures s == sets[k]
    {
      ActiveIsUnique(sets, date, s, sets[k]);
    }
  }

  /** `UPDATE daily_sets SET status=... WHERE id=...`: that set's status
      changes and nothing else; an unknown id changes nothing. */
  function WithStatus(sets: seq<DailySet>, id: int, st: SetStatus): (r: seq<DailySet>)
    ensures |r| == |sets|
    ensures forall i :: 0 <= i < |sets| && i != id ==> r[i] == sets[i]
    ensures 0 <= id < |sets| ==> r[id] == sets[id].(status := st)
  {
    if 0 <= id < |sets| then sets[id := sets[id].(status := st)] else sets
  }

  /** Whether `supersede_other_ready(date, keep)` touches a set. */
  predicate Displaced(s: DailySet, date: Day, keep: int) {
    ReadyOn(s, date) && s.id != keep
  }

  /** `supersede_other_ready`: the ready sets of the date other than the kept
      one become superseded; no other set changes, and no ready set of the
      date is left but the kept one. */
  function SupersedeOthers(sets: seq<DailySet>, date: Day, keep: int): (r: seq<DailySet>)
    ensures |r| == |sets|
    ensures forall i :: 0 <= i < |sets| ==> r[i].id == sets[i].id
    ensures forall i :: 0 <= i < |r| && ReadyOn(r[i], date) ==> r[i].id == keep
    ensures forall i :: 0 <= i < |r| && !Displaced(sets[i], date, keep) ==> r[i] == sets[i]
    ensures forall i :: 0 <= i < |r| && Displaced(sets[i], date, keep) ==> r[i] == sets[i].(status := Superseded)
  {
    seq(|sets|, i requires 0 <= i < |sets| =>
      if Displaced(sets[i], date, keep) then sets[i].(status := Superseded) else sets[i])
  }

  /** A set that becomes ready and then supersedes the others is the only
      ready set of its date. */
  lemma ReadyThenSupersede(sets: seq<DailySet>, id: int, date: Day)
    requires SetIdsAreIndexes(sets) && 0 <= id < |sets| && sets[id].utcDate == date
    ensures var r := SupersedeOthers(WithStatus(sets, id, Ready), date, id);
      ReadyOn(r[id], date) && forall i :: 0 <= i < |r| && ReadyOn(r[i], date) ==> i == id
  {
    var w := WithStatus(sets, id, Ready);
    var r := SupersedeOthers(w, date, id);
    assert w[id].id == id;
    forall i | 0 <= i < |r| && ReadyOn(r[i], date)
      ensures i == id
    {
      assert w[i].id == i;
    }
  }

  // ------------------------------------------------------------------ items

  /** The item of a set and kind, if there is one. */
  function FindItem(items: seq<Item>, setId: int, kind: string): (r: Option<nat>)
    ensures r.Some? ==> r.value < |items| && items[r.value].setId == setId && items[r.value].kind == kind
    ensures r.None? ==> forall i :: 0 <= i < |items| ==> items[i].setId != setId || items[i].kind != kind
  {
    if items == [] then None
    else if items[|items| - 1].setId == setId && items[|items| - 1].kind == kind then Some(|items| - 1)
    else FindItem(items[..|items| - 1], setId, kind)
  }

  /** `json.dumps(payload or {})` */
  function PayloadOr(payload: Option<map<string, Value>>): map<string, Value> {
    if payload.Some? then payload.value else map[]
  }

  /** The key `set_item_photo_file_id` merges into an item's payload. */
  const PHOTO_KEY: string := "photo_file_id"

  /** `daily_items.set_id REFERENCES daily_sets(id)`: every item belongs to a
      stored set. */
  predicate ItemsInSets(items: seq<Item>, sets: seq<DailySet>) {
    forall i :: 0 <= i < |items| ==> 0 <= items[i].setId < |sets|
  }

  // ------------------------------------------------------------- generation

  /** An item `_generate_items` writes; its title is always None. */
  datatype NewItem = NewItem(kind: string, content: string, payload: map<string, Value>)

  /** The kinds `_generate_items` writes, in this order. */
  const ITEM_KINDS: seq<string> := ["quote", "tip", "image", "film", "book"]

  /** The five texts as `_generate_items` stores them: the AI reply or its
      fixed fallback, and for the image the block with its labels removed. */
  datatype Texts = Texts(quote: string, tip: string, image: string, film: string, book: string)

  /** `str(images_dir / f"{utc_date}_set{set_id}.jpg")` */
  function ImagePath(dir: string, date: Day, setId: int): string {
    dir + "/" + IsoDate(date) + "_set" + IntToString(setId) + ".jpg"
  }

  /** The five items of `_generate_items`, in order. Each payload holds the
      date; the image's also holds the path of the saved picture, or null
      when none was saved (`imagesDir` is None). */
  function GeneratedItems(date: Day, setId: int, t: Texts, imagesDir: Option<string>): (r: seq<NewItem>)
    ensures |r| == |ITEM_KINDS|
    ensures forall k :: 0 <= k < |r| ==> r[k].kind == ITEM_KINDS[k]
    ensures forall k :: 0 <= k < |r| ==> "utc_date" in r[k].payload && r[k].payload["utc_date"] == Str(IsoDate(date))
    ensures forall k :: 0 <= k < |r| ==> ("image_path" in r[k].payload <==> r[k].kind == "image")
    ensures r[2].payload["image_path"] == if imagesDir.Some? then Str(ImagePath(imagesDir.value, date, setId)) else Null
    ensures [r[0].content, r[1].content, r[2].content, r[3].content, r[4].content] == [t.quote, t.tip, t.image, t.film, t.book]
  {
    var d := map["utc_date" := Str(IsoDate(date))];
    var path := if imagesDir.Some? then Str(ImagePath(imagesDir.value, date, setId)) else Null;
    [NewItem("quote", t.quote, d), NewItem("tip", t.tip, d), NewItem("image", t.image, d["image_path" := path]),
     NewItem("film", t.film, d), NewItem("book", t.book, d)]
  }

  /** How many of the five items are written when the step `failAt` of the try
      block raises: the items before it. A step past the last item stands for
      a raise after all five were written; None is no raise. */
  function Written(failAt: Option<nat>): (n: nat)
    ensures n <= |ITEM_KINDS|
    ensures failAt.None? ==> n == |ITEM_KINDS|
    ensures failAt.Some? && failAt.value <= |ITEM_KINDS| ==> n == failAt.value
  {
    if failAt.None? then |ITEM_KINDS| else Min(failAt.value, |ITEM_KINDS|)
  }

  function KindsOf(rows: seq<NewItem>): (r: seq<string>)
    ensures |r| == |rows| && forall j :: 0 <= j < |rows| ==> r[j] == rows[j].kind
  {
    seq(|rows|, j requires 0 <= j < |rows| => rows[j].kind)
  }

  /** The items of a set that has none yet, inserted one after another: the
      table keeps its rows and each new one takes the next id. */
  function Appended(items: seq<Item>, setId: int, rows: seq<NewItem>): (r: seq<Item>)
    ensures |r| == |items| + |rows| && r[..|items|] == items
    ensures forall j :: 0 <= j < |rows| ==>
      r[|items| + j] == Item(|items| + j, setId, rows[j].kind, None, rows[j].content, rows[j].payload)
    decreases |rows|
  {
    if rows == [] then items
    else
      var init := Appended(items, setId, rows[..|rows| - 1]);
      var last := rows[|rows| - 1];
      init + [Item(|init|, setId, last.kind, None, last.content, last.payload)]
  }

  /** After appending to a set with no items, the set has an item of a kind
      exactly when one of the appended rows has that kind. */
  lemma {:induction false} AppendedFind(items: seq<Item>, setId: int, rows: seq<NewItem>, kind: string)
    requires forall i :: 0 <= i < |items| ==> items[i].setId != setId
    ensures FindItem(Appended(items, setId, rows), setId, kind).Some? <==> kind in KindsOf(rows)
  {
    var r := Appended(items, setId, rows);
    if kind in KindsOf(rows) {
      var j :| 0 <= j < |rows| && KindsOf(rows)[j] == kind;
      assert r[|items| + j].setId == setId && r[|items| + j].kind == kind;
    }
    if FindItem(r, setId, kind).Some? {
      var i := FindItem(r, setId, kind).value;
      assert KindsOf(rows)[i - |items|] == kind;
    }
  }

  /** The same for every kind at once. */
  lemma AppendedKinds(items: seq<Item>, setId: int, rows: seq<NewItem>)
    requires forall i :: 0 <= i < |items| ==> items[i].setId != setId
    ensures forall kind :: FindItem(Appended(items, setId, rows), setId, kind).Some? <==> kind in KindsOf(rows)
  {
    forall kind
      ensures FindItem(Appended(items, setId, rows), setId, kind).Some? <==> kind in KindsOf(rows)
    {
      AppendedFind(items, setId, rows, kind);
    }
  }

  /** The first `n` generated items have the first `n` kinds, all different,
      so each is written once. */
  lemma GeneratedPrefix(date: Day, setId: int, t: Texts, imagesDir: Option<string>, n: nat)
    requires n <= |ITEM_KINDS|
    ensures var rows := GeneratedItems(date, setId, t, imagesDir)[..n];
      KindsOf(rows) == ITEM_KINDS[..n]
      && forall i, j :: 0 <= i < j < |rows| ==> rows[i].kind != rows[j].kind
  {
    var rows := GeneratedItems(date, setId, t, imagesDir)[..n];
    assert forall i, j :: 0 <= i < j < |ITEM_KINDS| ==> ITEM_KINDS[i] != ITEM_KINDS[j];
    assert KindsOf(rows) == ITEM_KINDS[..n];
  }

  // ---------------------------------------------------------------- lessons

  /** The fields of the latest lesson that the pack reads. */
  datatype Lesson = Lesson(dayIndex: Option<int>, title: Option<string>, description: Option<string>)

  /** The dict `_latest_lesson_topic` returns. */
  datatype LessonContext = LessonContext(dayIndex: Option<int>, title: Option<string>,
                                         description: Option<string>, topic: string)

  const COURSE_TOPIC: string := "Курс на счастье"
  const DAY_TOPIC: string := "Тема дня"
  /** `_context_block` cuts longer descriptions to this many characters. */
  const MAX_DESCRIPTION: nat := 800

  /** `(x or "").strip()` */
  function TrimmedOr(x: Option<string>): string {
    Trim(if x.Some? then x.value else "")
  }

  /** `_latest_lesson_topic`: the course's name without a lesson; otherwise
      the day, the stripped title and description, and the title as topic,
      or "Тема дня" when it is blank. */
  function LatestLessonTopic(lesson: Option<Lesson>): (c: LessonContext)
    ensures c.topic != []
    ensures lesson.None? ==> c == LessonContext(None, None, None, COURSE_TOPIC)
    ensures lesson.Some? ==>
      c.dayIndex == Some(if lesson.value.dayIndex.Some? then lesson.value.dayIndex.value else 0)
      && c.title == Some(TrimmedOr(lesson.value.title))
      && c.description == Some(TrimmedOr(lesson.value.description))
      && c.topic == (if c.title.value != [] then c.title.value else DAY_TOPIC)
  {
    match lesson
    case None => LessonContext(None, None, None, COURSE_TOPIC)
    case Some(l) =>
      var title := TrimmedOr(l.title);
      LessonContext(Some(if l.dayIndex.Some? then l.dayIndex.value else 0), Some(title),
                    Some(TrimmedOr(l.description)), if title != [] then title else DAY_TOPIC)
  }

  /** The description as the prompt quotes it: stripped, and cut to 800
      characters followed by `…` when longer. */
  function ShortDescription(desc: string): (r: string)
    ensures var d := Trim(desc);
      if |d| > MAX_DESCRIPTION then |r| == MAX_DESCRIPTION + 1 && r[..MAX_DESCRIPTION] == d[..MAX_DESCRIPTION]
        && r[MAX_DESCRIPTION] == '…'
      else r == d
  {
    var d := Trim(desc);
    if |d| > MAX_DESCRIPTION then d[..MAX_DESCRIPTION] + "…" else d
  }

  /** The lines of `_context_block`: the course line, then the day when it is
      not 0, the title when it is not empty and the description when it is
      not empty. */
  function ContextParts(c: LessonContext): (parts: seq<string>)
    ensures |parts| >= 1 && parts[0] == "Курс: " + COURSE_TOPIC
  {
    ["Курс: " + COURSE_TOPIC] + DayPart(c) + TitlePart(c) + DescriptionPart(c)
  }

  function DayPart(c: LessonContext): seq<string> {
    if c.dayIndex.Some? && c.dayIndex.value != 0 then ["День лекции: " + IntToString(c.dayIndex.value)] else []
  }

  function TitlePart(c: LessonContext): seq<string> {
    var title := if c.title.Some? then c.title.value else "";
    if title != [] then ["Тема лекции: " + title] else []
  }

  function DescriptionPart(c: LessonContext): seq<string> {
    var desc := if c.description.Some? then c.description.value else "";
    if desc != [] then ["Описание/тезисы: " + ShortDescription(desc)] else []
  }

  /** `_context_block` */
  function ContextBlock(c: LessonContext): string {
    Join(ContextParts(c), '\n')
  }

  predicate NoBreaks(parts: seq<string>) {
    forall i :: 0 <= i < |parts| ==> '\n' !in parts[i]
  }

  lemma NoBreaksConcat(a: seq<string>, b: seq<string>)
    requires NoBreaks(a) && NoBreaks(b)
    ensures NoBreaks(a + b)
  {
    forall i | 0 <= i < |a + b|
      ensures '\n' !in (a + b)[i]
    {
      if i >= |a| {
        assert (a + b)[i] == b[i - |a|];
      }
    }
  }

  lemma DescriptionNoBreaks(c: LessonContext)
    requires c.description.Some? ==> '\n' !in c.description.value
    ensures NoBreaks(DescriptionPart(c))
  {
    if c.description.Some? && c.description.value != [] {
      var line := "Описание/тезисы: " + ShortDescription(c.description.value);
      NoBreakInDescription(c.description.value);
      assert DescriptionPart(c) == [line];
    }
  }

  /** No line of the context breaks, when the title and description do not. */
  lemma ContextPartsNoBreaks(c: LessonContext)
    requires c.title.Some? ==> '\n' !in c.title.value
    requires c.description.Some? ==> '\n' !in c.description.value
    ensures NoBreaks(ContextParts(c))
  {
    var a := ["Курс: " + COURSE_TOPIC];
    assert NoBreaks(a);
    assert NoBreaks(DayPart(c));
    assert NoBreaks(TitlePart(c));
    DescriptionNoBreaks(c);
    NoBreaksConcat(a, DayPart(c));
    NoBreaksConcat(a + DayPart(c), TitlePart(c));
    NoBreaksConcat(a + DayPart(c) + TitlePart(c), DescriptionPart(c));
  }

  /** Each part of the context comes back out of the block when the title and
      description hold no line break. */
  lemma ContextBlockLines(c: LessonContext)
    requires c.title.Some? ==> '\n' !in c.title.value
    requires c.description.Some? ==> '\n' !in c.description.value
    ensures Split(ContextBlock(c), '\n') == ContextParts(c)
  {
    ContextPartsNoBreaks(c);
    SplitJoin(ContextParts(c), '\n');
  }

  /** Stripping and cutting add no line break. */
  lemma NoBreakInDescription(s: string)
    requires '\n' !in s
    ensures '\n' !in ShortDescription(s)
  {
    var t := TrimStart(s);
    var d := TrimEnd(t);
    assert '\n' !in t by {
      assert t == s[|s| - |t|..];
    }
    assert '\n' !in d by {
      assert d == t[..|d|];
    }
    assert Trim(s) == d;
  }

  // ------------------------------------------------------------ the objects

  /** The outcome of `generate_set_for_today`: None without generating, the
      new set's id, or the exception of item generation after the set was
      marked failed. */
  datatype Generation = Skipped | Generated(id: int) | Raised(id: int)

  /** `set_item_photo_file_id` as intended: the item's payload gains or replaces
      the `photo_file_id` key and keeps every other key; other items stay. */
  function PhotoMerged(items: seq<Item>, itemId: int, photoFileId: string): (r: seq<Item>)
    ensures |r| == |items|
    ensures forall i :: 0 <= i < |r| && i != itemId ==> r[i] == items[i]
    ensures 0 <= itemId < |items| ==>
      var p := r[itemId].payload;
      r[itemId] == items[itemId].(payload := p)
      && PHOTO_KEY in p && p[PHOTO_KEY] == Str(photoFileId)
      && (forall k :: k != PHOTO_KEY && k in p ==> k in items[itemId].payload)
      && (forall k :: k != PHOTO_KEY && k in items[itemId].payload ==> k in p && p[k] == items[itemId].payload[k])
  {
    if 0 <= itemId < |items| then
      items[itemId := items[itemId].(payload := items[itemId].payload[PHOTO_KEY := Str(photoFileId)])]
    else items
  }

  /** `set_item_photo_file_id` as written. The cursor returns rows as dicts, so
      for an existing item `row[0]` raises KeyError before the UPDATE; for a
      missing one the UPDATE matches no row. The result is the table afterwards
      and whether the call raised: the photo id is never stored. */
  function PhotoUpdateAsWritten(items: seq<Item>, itemId: int, photoFileId: string): (r: (seq<Item>, bool))
    ensures r.0 == items
    ensures r.1 <==> 0 <= itemId < |items|
  {
    (items, 0 <= itemId < |items|)
  }

  /** The as-written update loses the photo id that the intended merge stores:
      for an existing item whose payload does not already hold it, the call
      raises and the two tables differ. */
  lemma {:induction false} PhotoLostAsWritten(items: seq<Item>, itemId: int, photoFileId: string)
    requires 0 <= itemId < |items|
    requires PHOTO_KEY !in items[itemId].payload || items[itemId].payload[PHOTO_KEY] != Str(photoFileId)
    ensures PhotoUpdateAsWritten(items, itemId, photoFileId).1
    ensures PhotoUpdateAsWritten(items, itemId, photoFileId).0 != PhotoMerged(items, itemId, photoFileId)
    ensures PHOTO_KEY in PhotoMerged(items, itemId, photoFileId)[itemId].payload
  {
    var r := PhotoMerged(items, itemId, photoFileId);
    assert r[itemId].payload[PHOTO_KEY] == Str(photoFileId);
  }

  /** The `daily_sets` and `daily_items` tables. */
  class DailyPackRepo {
    var sets: seq<DailySet>
    var items: seq<Item>

    ghost predicate Valid()
      reads this
    {
      SetIdsAreIndexes(sets) && ItemIdsAreIndexes(items) && OneItemPerKind(items) && ItemsInSets(items, sets)
    }

    constructor()
      ensures sets == [] && items == [] && Valid()
    {
      sets := [];
      items := [];
    }

    /** `create_set`: a new pending set. */
    method CreateSet(utcDate: Day, lessonDayIndex: Option<int>, topic: string, trigger: string, now: Instant)
      returns (id: int)
      requires Valid()
      modifies this
      ensures Valid()
      ensures id == |old(sets)|
      ensures sets == old(sets) + [DailySet(id, utcDate, lessonDayIndex, topic, trigger, Pending, now)]
      ensures items == old(items)
    {
      id := |sets|;
      sets := sets + [DailySet(id, utcDate, lessonDayIndex, topic, trigger, Pending, now)];
    }

    /** `mark_ready` */
    method MarkReady(id: int)
      requires Valid()
      modifies this
      ensures Valid()
      ensures sets == WithStatus(old(sets), id, Ready) && items == old(items)
    {
      sets := WithStatus(sets, id, Ready);
    }

    /** `mark_failed` */
    method MarkFailed(id: int)
      requires Valid()
      modifies this
      ensures Valid()
      ensures sets == WithStatus(old(sets), id, Failed) && items == old(items)
    {
      sets := WithStatus(sets, id, Failed);
    }

    /** `supersede_other_ready` */
    method SupersedeOtherReady(date: Day, keep: int)
      requires Valid()
      modifies this
      ensures Valid()
      ensures sets == SupersedeOthers(old(sets), date, keep) && items == old(items)
    {
      sets := SupersedeOthers(sets, date, keep);
    }

    /** `has_any_set_for_date` */
    method HasAnySetForDate(date: Day) returns (b: bool)
      ensures b == HasSetOn(sets, date)
    {
      b := false;
      for i := 0 to |sets|
        invariant !b
        invariant forall k :: 0 <= k < i ==> sets[k].utcDate != date
      {
        if sets[i].utcDate == date {
          return true;
        }
      }
    }

    /** `get_active_set`: the ready set of the date that comes first in
        `ORDER BY created_at DESC, id DESC`, or None. */
    method GetActiveSet(date: Day) returns (r: Option<DailySet>)
      ensures r.None? <==> forall i :: 0 <= i < |sets| ==> !ReadyOn(sets[i], date)
      ensures r.Some? ==> IsActive(sets, date, r.value)
    {
      r := None;
      for i := 0 to |sets|
        invariant r.None? <==> forall k :: 0 <= k < i ==> !ReadyOn(sets[k], date)
        invariant r.Some? ==> r.value in sets[..i] && ReadyOn(r.value, date)
        invariant r.Some? ==> forall k :: 0 <= k < i && ReadyOn(sets[k], date) ==> NotAfter(sets[k], r.value)
      {
        if ReadyOn(sets[i], date) && (r.None? || !NotAfter(sets[i], r.value)) {
          r := Some(sets[i]);
        }
      }
    }

    /** `get_items_for_set`: the set's items. */
    method GetItemsForSet(setId: int) returns (r: seq<Item>)
      ensures forall x :: x in r <==> x in items && x.setId == setId
    {
      r := [];
      for i := 0 to |items|
        invariant forall x :: x in r <==> x in items[..i] && x.setId == setId
      {
        if items[i].setId == setId {
          r := r + [items[i]];
        }
      }
      assert items[..|items|] == items;
    }

    /** `upsert_item`: a new item, or the existing one of that set and kind
        with its title, content and payload replaced; the id is None where the
        foreign key refuses an unknown set, and then nothing changes. */
    method UpsertItem(setId: int, kind: string, title: Option<string>, content: string,
                      payload: Option<map<string, Value>>) returns (r: Option<int>)
      requires Valid()
      modifies this
      ensures Valid() && sets == old(sets)
      ensures r.None? <==> !(0 <= setId < |sets|)
      ensures r.None? ==> items == old(items)
      ensures r.Some? ==> var id := r.value;
        0 <= id < |items| && items[id] == Item(id, setId, kind, title, content, PayloadOr(payload))
        && (FindItem(old(items), setId, kind).None? ==> id == |old(items)| && items == old(items) + [items[id]])
        && (FindItem(old(items), setId, kind).Some? ==>
              id == FindItem(old(items), setId, kind).value && items == old(items)[id := items[id]])
    {
      if !(0 <= setId < |sets|) {
        return None;
      }
      var item := Item(0, setId, kind, title, content, PayloadOr(payload));
      var found := FindItem(items, setId, kind);
      var id;
      if found.Some? {
        id := found.value;
        items := items[id := item.(id := id)];
      } else {
        id := |items|;
        items := items + [item.(id := id)];
      }
      r := Some(id);
    }

    /** `set_item_photo_file_id` as intended: see `PhotoMerged`. */
    method SetItemPhotoFileId(itemId: int, photoFileId: string)
      requires Valid()
      modifies this
      ensures Valid() && sets == old(sets)
      ensures items == PhotoMerged(old(items), itemId, photoFileId)
    {
      items := PhotoMerged(items, itemId, photoFileId);
    }

    /** `set_item_photo_file_id` as written: see `PhotoUpdateAsWritten`; `raised`
        is the KeyError. */
    method SetItemPhotoFileIdAsWritten(itemId: int, photoFileId: string) returns (raised: bool)
      ensures (items, raised) == PhotoUpdateAsWritten(old(items), itemId, photoFileId)
      ensures sets == old(sets)
    {
      raised := 0 <= itemId < |items|;
    }
  }

  class DailyPackService {
    const repo: DailyPackRepo

    constructor(repo: DailyPackRepo)
      ensures this.repo == repo
    {
      this.repo := repo;
    }

    /** `generate_set_for_today`. The AI replies, the saved picture and the
        step of the try block that raises (`failAt`, see `Written`) are
        parameters; the date is the UTC date of `now`. */
    method GenerateSetForToday(trigger: string, force: bool, now: Instant, lesson: Option<Lesson>,
                               texts: Texts, imagesDir: Option<string>, failAt: Option<nat>) returns (out: Generation)
      requires repo.Valid()
      modifies repo
      ensures repo.Valid()
      ensures var today := UtcToday(now);
        var c := LatestLessonTopic(lesson);
        var created := DailySet(|old(repo.sets)|, today, c.dayIndex, c.topic, trigger, Pending, now);
        var written := GeneratedItems(today, created.id, texts, imagesDir)[..Written(failAt)];
        if !force && HasSetOn(old(repo.sets), today) then
          out == Skipped && repo.sets == old(repo.sets) && repo.items == old(repo.items)
        else
          repo.items == Appended(old(repo.items), created.id, written)
          && (forall kind :: FindItem(repo.items, created.id, kind).Some? <==> kind in ITEM_KINDS[..Written(failAt)])
          && if failAt.Some? then
            out == Raised(created.id) && repo.sets == old(repo.sets) + [created.(status := Failed)]
          else
            out == Generated(created.id)
            && repo.sets == SupersedeOthers(old(repo.sets) + [created.(status := Ready)], today, created.id)
      ensures HasSetOn(repo.sets, UtcToday(now))
      ensures out.Generated? ==> (0 <= out.id < |repo.sets| && ReadyOn(repo.sets[out.id], UtcToday(now))
        && (forall i :: 0 <= i < |repo.sets| && ReadyOn(repo.sets[i], UtcToday(now)) ==> i == out.id)
        && forall kind :: FindItem(repo.items, out.id, kind).Some? <==> kind in ITEM_KINDS)
    {
      var today := UtcToday(now);
      if !force {
        var known := repo.HasAnySetForDate(today);
        if known {
          return Skipped;
        }
      }
      var c := LatestLessonTopic(lesson);
      var topic := if c.topic != [] then c.topic else COURSE_TOPIC;
      out := RunSet(today, c.dayIndex, topic, trigger, now, texts, imagesDir, failAt);
    }

    /** The part of `generate_set_for_today` after the skip test: a pending
        set and the items written before the step that raises; then the set is
        ready and supersedes the others, or failed. */
    method RunSet(today: Day, dayIndex: Option<int>, topic: string, trigger: string, now: Instant,
                  texts: Texts, imagesDir: Option<string>, failAt: Option<nat>) returns (out: Generation)
      requires repo.Valid()
      modifies repo
      ensures repo.Valid()
      ensures var created := DailySet(|old(repo.sets)|, today, dayIndex, topic, trigger, Pending, now);
        var written := GeneratedItems(today, created.id, texts, imagesDir)[..Written(failAt)];
        repo.items == Appended(old(repo.items), created.id, written)
        && (forall kind :: FindItem(repo.items, created.id, kind).Some? <==> kind in ITEM_KINDS[..Written(failAt)])
        && if failAt.Some? then
          out == Raised(created.id) && repo.sets == old(repo.sets) + [created.(status := Failed)]
        else
          out == Generated(created.id)
          && repo.sets == SupersedeOthers(old(repo.sets) + [created.(status := Ready)], today, created.id)
      ensures HasSetOn(repo.sets, today)
      ensures out.Generated? ==> (0 <= out.id < |repo.sets| && ReadyOn(repo.sets[out.id], today)
        && forall i :: 0 <= i < |repo.sets| && ReadyOn(repo.sets[i], today) ==> i == out.id)
    {
      ghost var before := repo.items;
      var id := repo.CreateSet(today, dayIndex, topic, trigger, now);
      var rows := GeneratedItems(today, id, texts, imagesDir)[..Written(failAt)];
      GeneratedPrefix(today, id, texts, imagesDir, Written(failAt));
      GenerateItems(id, rows);
      AppendedKinds(before, id, rows);
      ghost var created := repo.sets;
      assert created[id].utcDate == today;
      if failAt.Some? {
        repo.MarkFailed(id);
        assert repo.sets[id].utcDate == today;
        return Raised(id);
      }
      repo.MarkReady(id);
      repo.SupersedeOtherReady(today, id);
      ReadyThenSupersede(created, id, today);
      assert repo.sets[id].utcDate == today;
      out := Generated(id);
    }

    /** `_generate_items` up to the step that raises: each row upserted in
        turn into a set that has no items yet. */
    method GenerateItems(setId: int, rows: seq<NewItem>)
      requires repo.Valid() && 0 <= setId < |repo.sets|
      requires forall i :: 0 <= i < |repo.items| ==> repo.items[i].setId != setId
      requires forall i, j :: 0 <= i < j < |rows| ==> rows[i].kind != rows[j].kind
      modifies repo
      ensures repo.Valid() && repo.sets == old(repo.sets)
      ensures repo.items == Appended(old(repo.items), setId, rows)
    {
      ghost var start := repo.items;
      for j := 0 to |rows|
        invariant repo.Valid() && repo.sets == old(repo.sets)
        invariant repo.items == Appended(start, setId, rows[..j])
      {
        AppendedFind(start, setId, rows[..j], rows[j].kind);
        assert rows[..j + 1][..j] == rows[..j];
        var r := repo.UpsertItem(setId, rows[j].kind, None, rows[j].content, Some(rows[j].payload));
      }
      assert rows[..|rows|] == rows;
    }

    /** `get_today_pack`: the active set of today and its items, or None
        when today has no ready set. */
    method GetTodayPack(now: Instant) returns (pack: Option<(DailySet, seq<Item>)>)
      ensures pack.None? <==> forall i :: 0 <= i < |repo.sets| ==> !ReadyOn(repo.sets[i], UtcToday(now))
      ensures pack.Some? ==> var (s, its) := pack.value;
        IsActive(repo.sets, UtcToday(now), s)
        && forall x :: x in its <==> x in repo.items && x.setId == s.id
    {
      var s := repo.GetActiveSet(UtcToday(now));
      if s.None? {
        return None;
      }
      var its := repo.GetItemsForSet(s.value.id);
      pack := Some((s.value, its));
    }
  }
}
