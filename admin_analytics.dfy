/** The admin reports over aggregated counters: the period label, the guarded
    percentage text, lenient integer reading, the `day:<n>` source keys, the
    delivery totals and the per-day content table. */
module AdminAnalytics {
  import opened Common
  import Learning

  const TODAY_LABEL: string := "сегодня"
  /** `content_report` lists at most this many days. */
  const CONTENT_ROWS: nat := 15

  /** `_period_label`: "сегодня" (today) for at most one day, otherwise
      "последние <n> дн." (the last n days). */
  function PeriodLabel(days: int): (r: string)
    ensures days <= 1 ==> r == TODAY_LABEL
    ensures days > 1 ==> r == "последние " + IntToString(days) + " дн."
  {
    if days <= 1 then TODAY_LABEL else "последние " + IntToString(days) + " дн."
  }

  /** The label of a longer period names its length: the text between the
      prefix and the suffix reads back as the number of days. */
  lemma PeriodLabelDays(days: int)
    requires days > 1
    ensures var r := PeriodLabel(days);
      14 <= |r| && r[10..|r| - 4] == IntToString(days) && ParseInt(r[10..|r| - 4]) == Some(days)
  {
    ParseIntToString(days);
  }

  /** `_safe_int`: the integer a value denotes, and 0 for anything else. */
  function SafeInt(v: Value): int {
    IntOr(v, 0)
  }

  /** What `_safe_int` reads: the integer of a number or a numeric
      string, and 0 for everything else, the empty string included. */
  lemma SafeIntMeaning(v: Value)
    ensures ToInt(v).Some? ==> SafeInt(v) == ToInt(v).value
    ensures ToInt(v).None? ==> SafeInt(v) == 0
    ensures v.Str? && v.s == "" ==> SafeInt(v) == 0
  {
    assert ParseInt("") == None;
  }

  // ------------------------------------------------------------ percentages

  /** `100 * num / den` rounded to tenths, ties to even, as a count of tenths. */
  function RoundTenths(num: int, den: int): int
    requires den > 0
  {
    var q := (1000 * num) / den;
    var rem := (1000 * num) % den;
    if 2 * rem > den then q + 1
    else if 2 * rem < den then q
    else if q % 2 == 0 then q
    else q + 1
  }

  /** A count of tenths written with one decimal, `f"{x:.1f}"`. */
  function TenthsText(t: int): string {
    if t < 0 then "-" + NatToString(-t / 10) + "." + [DigitChar(-t % 10)]
    else NatToString(t / 10) + "." + [DigitChar(t % 10)]
  }

  /** `_pct`: "0%" when the denominator is not positive. */
  function PctText(num: int, den: int): (r: string)
    ensures den <= 0 ==> r == "0%"
  {
    if den <= 0 then "0%" else TenthsText(RoundTenths(num, den)) + "%"
  }

  /** A share that is a whole number of tenths is written exactly. */
  lemma PctTextExact(num: int, den: int)
    requires den > 0 && (1000 * num) % den == 0
    ensures PctText(num, den) == TenthsText(1000 * num / den) + "%"
  {
  }

  /** The rounded share is within half a tenth of the exact one. */
  lemma RoundTenthsClose(num: int, den: int)
    requires den > 0
    ensures var t := RoundTenths(num, den);
      2 * den * t - den <= 2000 * num <= 2 * den * t + den
  {
    var q := (1000 * num) / den;
    var rem := (1000 * num) % den;
    assert 1000 * num == q * den + rem;
  }

  /** The shares of the test suite. */
  lemma SamplePcts()
    ensures PctText(90, 100) == "90.0%" && PctText(5, 40) == "12.5%"
    ensures PctText(7, 10) == "70.0%" && PctText(6, 8) == "75.0%"
  {
    assert RoundTenths(90, 100) == 900 && RoundTenths(5, 40) == 125;
    assert RoundTenths(7, 10) == 700 && RoundTenths(6, 8) == 750;
    assert NatToString(90) == "90";
    assert NatToString(12) == "12";
    assert NatToString(70) == "70";
    assert NatToString(75) == "75";
  }

  // ------------------------------------------------------------ source keys

  /** `_day_from_source_key`: n for `day:<digits>` after trimming, else None. */
  function DayFromSourceKey(key: Option<string>): (r: Option<nat>)
    ensures r.Some? ==> var s := Trim(if key.Some? then key.value else "");
      StartsWith(s, "day:") && IsDigits(s[4..]) && r.value == DigitsValue(s[4..])
  {
    var s := Trim(if key.Some? then key.value else "");
    if !StartsWith(s, "day:") then None
    else if !IsDigits(s[4..]) then None
    else Some(DigitsValue(s[4..]))
  }

  /** The key the points ledger stores for a course day parses back to it. */
  lemma DayKeyRoundTrip(d: nat)
    ensures DayFromSourceKey(Some(Learning.DayKeyText(d))) == Some(d)
  {
    var k := Learning.DayKeyText(d);
    TrimKeeps(k);
    NatToStringValue(d);
  }

  /** Anything that is not `day:` followed by digits is rejected. */
  lemma ForeignKeyRejected(key: string)
    requires !StartsWith(Trim(key), "day:") || !IsDigits(Trim(key)[4..])
    ensures DayFromSourceKey(Some(key)) == None
  {
  }

  // --------------------------------------------------------- delivery report

  /** The `status` counters of `delivery`; a missing one is Null. */
  datatype StatusCounts = StatusCounts(pending: Value, sent: Value, failed: Value, cancelled: Value)

  /** A row of `kinds`. */
  datatype KindRow = KindRow(kind: Option<string>, total: Value, sent: Value, failed: Value, pending: Value)

  /** `total = pending + sent + failed + cancelled` */
  function DeliveryTotal(s: StatusCounts): int {
    SafeInt(s.pending) + SafeInt(s.sent) + SafeInt(s.failed) + SafeInt(s.cancelled)
  }

  /** `(k.get("kind") or "-").strip()` */
  function KindName(kind: Option<string>): string {
    Trim(if kind.Some? && kind.value != "" then kind.value else "-")
  }

  /** The counters of one kind, as the report prints them. */
  datatype KindStats = KindStats(name: string, sent: int, total: int, failed: int, pending: int)

  function KindStatsOf(k: KindRow): KindStats {
    KindStats(KindName(k.kind), SafeInt(k.sent), SafeInt(k.total), SafeInt(k.failed), SafeInt(k.pending))
  }

  /** `• <kind>: <sent>/<total> sent, failed=<n>, pending=<n>` */
  function KindLine(k: KindStats): string {
    "• " + k.name + ": " + IntToString(k.sent) + "/" + IntToString(k.total)
      + " sent, failed=" + IntToString(k.failed) + ", pending=" + IntToString(k.pending)
  }

  /** The status lines of `delivery_report`, before the per-kind part. */
  function DeliveryHead(days: int, s: StatusCounts): (lines: seq<string>)
    ensures |lines| == 7
  {
    ["\U{1F4EC} Доставка (" + PeriodLabel(days) + ")",
     "",
     "• Всего jobs: " + IntToString(DeliveryTotal(s)),
     "• Sent: " + IntToString(SafeInt(s.sent)),
     "• Pending: " + IntToString(SafeInt(s.pending)),
     "• Failed: " + IntToString(SafeInt(s.failed)),
     "• Cancelled: " + IntToString(SafeInt(s.cancelled))]
  }

  /** One line per kind, in the order of the rows. */
  function KindLines(kinds: seq<KindStats>): (lines: seq<string>)
    ensures |lines| == |kinds|
    ensures forall i :: 0 <= i < |kinds| ==> lines[i] == KindLine(kinds[i])
  {
    seq(|kinds|, i requires 0 <= i < |kinds| => KindLine(kinds[i]))
  }

  /** The counters of each kind row, in order. */
  function KindsStats(kinds: seq<KindRow>): (r: seq<KindStats>)
    ensures |r| == |kinds|
    ensures forall i :: 0 <= i < |kinds| ==> r[i] == KindStatsOf(kinds[i])
  {
    if kinds == [] then []
    else KindsStats(kinds[..|kinds| - 1]) + [KindStatsOf(kinds[|kinds| - 1])]
  }

  /** The lines of `delivery_report`. */
  function DeliveryLines(days: int, s: StatusCounts, kinds: seq<KindRow>): (lines: seq<string>)
    ensures |lines| == 7 + (if kinds == [] then 0 else 2 + |kinds|)
  {
    DeliveryHead(days, s) + (if kinds == [] then [] else ["", "По типам:"] + KindLines(KindsStats(kinds)))
  }

  /** The total line counts the jobs of all four statuses. */
  lemma DeliveryTotalLine(days: int, s: StatusCounts, kinds: seq<KindRow>)
    ensures DeliveryLines(days, s, kinds)[2]
      == "• Всего jobs: " + IntToString(SafeInt(s.pending) + SafeInt(s.sent) + SafeInt(s.failed) + SafeInt(s.cancelled))
  {
    HeadTotalLine(days, s);
    assert DeliveryLines(days, s, kinds)[2] == DeliveryHead(days, s)[2];
  }

  lemma HeadTotalLine(days: int, s: StatusCounts)
    ensures DeliveryHead(days, s)[2] == "• Всего jobs: " + IntToString(DeliveryTotal(s))
  {
  }

  /** The test's counters: 2 pending, 10 sent, 1 failed and 3 cancelled make 16 jobs. */
  lemma SampleDeliveryTotal()
    ensures DeliveryTotal(StatusCounts(Int(2), Int(10), Int(1), Int(3))) == 16
    ensures DeliveryTotal(StatusCounts(Null, Int(10), Str("x"), Int(3))) == 13
  {
    assert ParseInt("x") == None;
  }

  /** `delivery_report` on the counters of `delivery(days)`. */
  method DeliveryReport(days: int, s: StatusCounts, kinds: seq<KindRow>) returns (text: string)
    ensures text == Join(DeliveryLines(days, s, kinds), '\n')
  {
    var lines := DeliveryHead(days, s);
    if kinds != [] {
      var stats := CollectKinds(kinds);
      lines := lines + (["", "По типам:"] + KindLines(stats));
    } else {
      assert DeliveryLines(days, s, kinds) == lines + [];
    }
    assert lines == DeliveryLines(days, s, kinds);
    text := Join(lines, '\n');
  }

  /** The loop of `delivery_report` over the kinds. */
  method CollectKinds(kinds: seq<KindRow>) returns (stats: seq<KindStats>)
    ensures stats == KindsStats(kinds)
  {
    stats := [];
    for i := 0 to |kinds|
      invariant stats == KindsStats(kinds[..i])
    {
      assert kinds[..i + 1][..i] == kinds[..i];
      stats := stats + [KindStatsOf(kinds[i])];
    }
    assert kinds[..|kinds|] == kinds;
  }

  // ---------------------------------------------------------- content report

  datatype SentRow = SentRow(dayIndex: Value, lessonSent: Value, questSent: Value)
  datatype LessonRow = LessonRow(sourceKey: Option<string>, viewed: Value)
  datatype QuestRow = QuestRow(dayIndex: Value, answered: Value)

  /** `viewed_by_day`: a later row for the same day replaces an earlier one;
      rows whose key is not a day key are skipped. */
  function ViewedByDay(rows: seq<LessonRow>): map<int, int> {
    if rows == [] then map[]
    else
      var r := rows[|rows| - 1];
      var m := ViewedByDay(rows[..|rows| - 1]);
      match DayFromSourceKey(r.sourceKey)
      case Some(d) => m[d := SafeInt(r.viewed)]
      case None => m
  }

  /** `answered_by_day`, keyed by the lenient day number. */
  function AnsweredByDay(rows: seq<QuestRow>): map<int, int> {
    if rows == [] then map[]
    else
      var r := rows[|rows| - 1];
      AnsweredByDay(rows[..|rows| - 1])[SafeInt(r.dayIndex) := SafeInt(r.answered)]
  }

  /** `dict.get(day, 0)` */
  function CountOn(m: map<int, int>, d: int): int {
    if d in m then m[d] else 0
  }

  /** The counters of one sent day, as the report prints them. */
  datatype DayStats = DayStats(day: int, lessonSent: int, viewed: int, questSent: int, answered: int)

  /** A sent row joined with the views and answers of its day. */
  function DayStatsOf(row: SentRow, viewed: map<int, int>, answered: map<int, int>): (r: DayStats)
    ensures r.day == SafeInt(row.dayIndex)
    ensures r.viewed == CountOn(viewed, r.day) && r.answered == CountOn(answered, r.day)
  {
    var day := SafeInt(row.dayIndex);
    DayStats(day, SafeInt(row.lessonSent), CountOn(viewed, day), SafeInt(row.questSent), CountOn(answered, day))
  }

  /** The days the report shows: the first 15 sent rows, in order. */
  function ContentRows(sent: seq<SentRow>, viewed: map<int, int>, answered: map<int, int>): (r: seq<DayStats>)
    ensures |r| == Min(|sent|, CONTENT_ROWS)
    ensures forall i :: 0 <= i < |r| ==> r[i] == DayStatsOf(sent[i], viewed, answered)
  {
    DaysStats(sent[..Min(|sent|, CONTENT_ROWS)], viewed, answered)
  }

  /** The counters of every sent row, in order. */
  function DaysStats(sent: seq<SentRow>, viewed: map<int, int>, answered: map<int, int>): (r: seq<DayStats>)
    ensures |r| == |sent|
    ensures forall i :: 0 <= i < |r| ==> r[i] == DayStatsOf(sent[i], viewed, answered)
  {
    if sent == [] then []
    else DaysStats(sent[..|sent| - 1], viewed, answered) + [DayStatsOf(sent[|sent| - 1], viewed, answered)]
  }

  /** `• День <d>: лекции <v>/<s> (<pct>), задания <a>/<s> (<pct>)` */
  function ContentLine(d: DayStats): string {
    "• День " + IntToString(d.day) + ": лекции " + IntToString(d.viewed) + "/" + IntToString(d.lessonSent)
      + " (" + PctText(d.viewed, d.lessonSent) + "), "
      + "задания " + IntToString(d.answered) + "/" + IntToString(d.questSent) + " (" + PctText(d.answered, d.questSent) + ")"
  }

  function ContentHeader(days: int): string {
    "\U{1F4DA} Контент (" + PeriodLabel(days) + ")"
  }

  /** The header, a blank line and one line per shown day. */
  function ContentLines(days: int, rows: seq<DayStats>): (lines: seq<string>)
    ensures |lines| == 2 + |rows|
    ensures lines[0] == ContentHeader(days) && lines[1] == ""
    ensures forall i :: 0 <= i < |rows| ==> lines[2 + i] == ContentLine(rows[i])
  {
    [ContentHeader(days), ""] + seq(|rows|, i requires 0 <= i < |rows| => ContentLine(rows[i]))
  }

  /** `content_report`: the no-sends message when nothing was sent,
      otherwise one line for each of the first 15 sent days. */
  function ContentText(days: int, sent: seq<SentRow>, lessons: seq<LessonRow>, quests: seq<QuestRow>): string {
    if sent == [] then ContentHeader(days) + "\n\nЗа период отправок нет."
    else Join(ContentLines(days, ContentRows(sent, ViewedByDay(lessons), AnsweredByDay(quests))), '\n')
  }

  /** The test's content counters: day 1 with 7 of 10 lessons viewed and 6
      of 8 quests answered. */
  lemma SampleDayStats()
    ensures DayStatsOf(SentRow(Int(1), Int(10), Int(8)), ViewedByDay([LessonRow(Some("day:1"), Int(7))]),
                       AnsweredByDay([QuestRow(Int(1), Int(6))]))
      == DayStats(1, 10, 7, 8, 6)
  {
    DayKeyRoundTrip(1);
    assert Learning.DayKeyText(1) == "day:1";
    assert DayFromSourceKey(Some("day:1")) == Some(1);
    var lessons := [LessonRow(Some("day:1"), Int(7))];
    assert lessons[..0] == [];
    assert ViewedByDay(lessons) == map[1 := 7];
    var quests := [QuestRow(Int(1), Int(6))];
    assert quests[..0] == [];
    assert AnsweredByDay(quests) == map[1 := 6];
  }

  /** The loop that fills `viewed_by_day`. */
  method CollectViewed(rows: seq<LessonRow>) returns (m: map<int, int>)
    ensures m == ViewedByDay(rows)
  {
    m := map[];
    for i := 0 to |rows|
      invariant m == ViewedByDay(rows[..i])
    {
      assert rows[..i + 1][..i] == rows[..i];
      var day := DayFromSourceKey(rows[i].sourceKey);
      if day.Some? {
        m := m[day.value := SafeInt(rows[i].viewed)];
      }
    }
    assert rows[..|rows|] == rows;
  }

  /** The loop that fills `answered_by_day`. */
  method CollectAnswered(rows: seq<QuestRow>) returns (m: map<int, int>)
    ensures m == AnsweredByDay(rows)
  {
    m := map[];
    for i := 0 to |rows|
      invariant m == AnsweredByDay(rows[..i])
    {
      assert rows[..i + 1][..i] == rows[..i];
      m := m[SafeInt(rows[i].dayIndex) := SafeInt(rows[i].answered)];
    }
    assert rows[..|rows|] == rows;
  }

  /** `content_report` on the rows of `content(days)`. */
  method ContentReport(days: int, sent: seq<SentRow>, lessons: seq<LessonRow>, quests: seq<QuestRow>) returns (text: string)
    ensures text == ContentText(days, sent, lessons, quests)
  {
    var viewed := CollectViewed(lessons);
    var answered := CollectAnswered(quests);
    if sent == [] {
      return ContentHeader(days) + "\n\nЗа период отправок нет.";
    }
    var rows := CollectDays(sent, viewed, answered);
    text := Join(ContentLines(days, rows), '\n');
  }

  /** The loop of `content_report` over the first 15 sent days. */
  method CollectDays(sent: seq<SentRow>, viewed: map<int, int>, answered: map<int, int>) returns (rows: seq<DayStats>)
    ensures rows == ContentRows(sent, viewed, answered)
  {
    rows := [];
    var shown := Min(|sent|, CONTENT_ROWS);
    for i := 0 to shown
      invariant rows == DaysStats(sent[..i], viewed, answered)
    {
      assert sent[..i + 1][..i] == sent[..i];
      rows := rows + [DayStatsOf(sent[i], viewed, answered)];
    }
    assert rows == DaysStats(sent[..shown], viewed, answered);
  }
}
