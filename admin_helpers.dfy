/** The pure helpers of the admin chat handlers: lenient reading of quest
    points, the ticket list's mode and limit, ticket numbers, yes/no answers,
    the option pickers of the achievement wizard, the next sort order and the
    code of a new achievement rule. */
module AdminHelpers {
  import opened Common

  // ------------------------------------------------------------ quest points

  /** `_extract_quest_points`: `int(points or points_reply or 0)`, and 0 where
      `int` raises. */
  function QuestPoints(points: Value, pointsReply: Value): int {
    IntOr(if Truthy(points) then points else pointsReply, 0)
  }

  /** `points` wins when it is set, even when it is not a number; the legacy
      `points_reply` is read only when `points` is missing, empty or 0. */
  lemma QuestPointsSource(points: Value, pointsReply: Value)
    ensures Truthy(points) ==> QuestPoints(points, pointsReply) == (if ToInt(points).Some? then ToInt(points).value else 0)
    ensures !Truthy(points) && Truthy(pointsReply) ==>
      QuestPoints(points, pointsReply) == (if ToInt(pointsReply).Some? then ToInt(pointsReply).value else 0)
    ensures !Truthy(points) && !Truthy(pointsReply) ==> QuestPoints(points, pointsReply) == 0
  {
  }

  /** The points the quest editor stores read back, and a quest that only has
      the legacy field keeps its points. */
  lemma QuestPointsStored(n: int, legacy: Value)
    ensures n != 0 ==> QuestPoints(Int(n), legacy) == n
    ensures QuestPoints(Null, Int(n)) == n
  {
  }

  // ----------------------------------------------------------------- tickets

  const MODE_ALL: string := "all"
  const MODE_OPEN: string := "open"
  const DEFAULT_TICKETS_LIMIT: int := 20
  const MAX_TICKETS_LIMIT: int := 100

  /** `(value or "").strip().lower()` */
  function Folded(value: Option<string>): string {
    Lower(Trim(if value.Some? then value.value else ""))
  }

  /** `_safe_tickets_mode`: "all" only for a case-insensitive "all". */
  function TicketsMode(value: Option<string>): (r: string)
    ensures r == MODE_ALL || r == MODE_OPEN
    ensures r == MODE_ALL <==> Folded(value) == MODE_ALL
  {
    if Folded(value) == MODE_ALL then MODE_ALL else MODE_OPEN
  }

  /** Text already trimmed and in lower case folds to itself. */
  lemma FoldedKeeps(s: string)
    requires s != [] && !IsSpace(s[0]) && !IsSpace(s[|s| - 1])
    requires forall k :: 0 <= k < |s| ==> LowerChar(s[k]) == s[k]
    ensures Folded(Some(s)) == s
  {
    TrimKeeps(s);
  }

  /** A mode that was made safe stays as it is. */
  lemma TicketsModeIdempotent(value: Option<string>)
    ensures TicketsMode(Some(TicketsMode(value))) == TicketsMode(value)
  {
    FoldedKeeps(MODE_ALL);
    FoldedKeeps(MODE_OPEN);
  }

  /** `_safe_tickets_limit`: `int(value)` clamped to 1..100, and 20 where
      `int` raises. */
  function TicketsLimit(value: Value): (r: int)
    ensures 1 <= r <= MAX_TICKETS_LIMIT
    ensures ToInt(value).None? ==> r == DEFAULT_TICKETS_LIMIT
    ensures ToInt(value).Some? && 1 <= ToInt(value).value <= MAX_TICKETS_LIMIT ==> r == ToInt(value).value
    ensures ToInt(value).Some? && ToInt(value).value < 1 ==> r == 1
    ensures ToInt(value).Some? && ToInt(value).value > MAX_TICKETS_LIMIT ==> r == MAX_TICKETS_LIMIT
  {
    var n := if ToInt(value).Some? then ToInt(value).value else DEFAULT_TICKETS_LIMIT;
    Max(1, Min(MAX_TICKETS_LIMIT, n))
  }

  /** A limit that was made safe stays as it is. */
  lemma TicketsLimitIdempotent(value: Value)
    ensures TicketsLimit(Int(TicketsLimit(value))) == TicketsLimit(value)
  {
  }

  /** `_ticket_number`: the per-user number when it is positive, otherwise
      the id; each read as `int(x or 0)`, 0 where `int` raises. */
  function TicketNumber(id: Value, number: Value): int {
    var tid := IntOr(id, 0);
    var num := IntOr(number, 0);
    if num > 0 then num else tid
  }

  /** For a stored ticket, the number shows when it is positive, the id
      otherwise. */
  lemma TicketNumberShown(id: int, number: int)
    ensures TicketNumber(Int(id), Int(number)) == if number > 0 then number else id
  {
  }

  // ----------------------------------------------------------------- yes/no

  const YES_WORDS: set<string> := {"да", "yes", "y", "1", "true"}
  const NO_WORDS: set<string> := {"нет", "no", "n", "0", "false"}

  /** The answer a trimmed, lowercased word gives. */
  function YesNo(v: string): (r: Option<bool>)
    ensures r == Some(true) <==> v in YES_WORDS
    ensures r == Some(false) <==> v in NO_WORDS
    ensures r.None? <==> v !in YES_WORDS && v !in NO_WORDS
  {
    if v in YES_WORDS then Some(true)
    else if v in NO_WORDS then Some(false)
    else None
  }

  /** `_parse_yes_no`, case-insensitively after trimming. */
  function ParseYesNo(text: Option<string>): Option<bool> {
    YesNo(Folded(text))
  }

  /** Text that is already trimmed answers as its lowercase form does. */
  lemma AnswerOf(s: string, w: string)
    requires s != [] && !IsSpace(s[0]) && !IsSpace(s[|s| - 1]) && Lower(s) == w
    ensures ParseYesNo(Some(s)) == YesNo(w)
  {
    TrimKeeps(s);
  }

  /** The wizard's own buttons answer yes and no. */
  lemma YesButton()
    ensures ParseYesNo(Some("Да")) == Some(true)
  {
    var s := "Да";
    assert LowerChar(s[0]) == 'д';
    assert Lower(s) == "д" + s[1..];
    AnswerOf(s, "да");
  }

  lemma NoButton()
    ensures ParseYesNo(Some("Нет")) == Some(false)
  {
    var s := "Нет";
    assert LowerChar(s[0]) == 'н';
    assert Lower(s) == "н" + s[1..];
    AnswerOf(s, "нет");
  }

  // ------------------------------------------------------- option pickers

  /** A `(caption, value)` pair of the wizard's option lists. */
  datatype Choice = Choice(caption: string, key: string)

  const METRIC_OPTIONS: seq<Choice> := [
    Choice("Баллы", "points"),
    Choice("Завершенные дни", "done_days"),
    Choice("Серия дней", "streak"),
    Choice("Привычки выполнено", "habit_done"),
    Choice("Привычки пропущено", "habit_skipped"),
    Choice("Анкет заполнено", "questionnaire_count")]

  const OPERATOR_OPTIONS: seq<Choice> := [
    Choice("не меньше", ">="),
    Choice("больше", ">"),
    Choice("равно", "="),
    Choice("не больше", "<="),
    Choice("меньше", "<")]

  /** The key of the option a 1-based list number names, if it is one. */
  function ByNumber(opts: seq<Choice>, raw: string): (r: Option<string>)
    ensures r.Some? ==> IsDigits(raw) && 1 <= DigitsValue(raw) <= |opts| && r.value == opts[DigitsValue(raw) - 1].key
    ensures r.None? ==> !IsDigits(raw) || DigitsValue(raw) < 1 || DigitsValue(raw) > |opts|
  {
    if IsDigits(raw) && 1 <= DigitsValue(raw) <= |opts| then Some(opts[DigitsValue(raw) - 1].key) else None
  }

  /** Whether an option is the one a text names: for a metric, the lowercased
      text is the lowercased label or key; for an operator, the text is the
      symbol or the lowercased text is the lowercased label. */
  predicate Names(c: Choice, raw: string, bySymbol: bool) {
    if bySymbol then raw == c.key || Lower(raw) == Lower(c.caption)
    else Lower(raw) == Lower(c.caption) || Lower(raw) == Lower(c.key)
  }

  /** The key of the first option the text names, in list order. */
  function FirstNamed(opts: seq<Choice>, raw: string, bySymbol: bool): (r: Option<string>)
    ensures r.Some? ==> exists i :: 0 <= i < |opts| && Names(opts[i], raw, bySymbol) && r.value == opts[i].key
    ensures r.None? ==> forall i :: 0 <= i < |opts| ==> !Names(opts[i], raw, bySymbol)
  {
    if opts == [] then None
    else if Names(opts[0], raw, bySymbol) then Some(opts[0].key)
    else
      var r := FirstNamed(opts[1..], raw, bySymbol);
      assert forall i :: 1 <= i < |opts| ==> opts[i] == opts[1..][i - 1];
      r
  }

  /** The first option that a text names is the one picked. */
  lemma {:induction false} FirstNamedAt(opts: seq<Choice>, raw: string, bySymbol: bool, i: nat)
    requires i < |opts| && Names(opts[i], raw, bySymbol)
    requires forall j :: 0 <= j < i ==> !Names(opts[j], raw, bySymbol)
    ensures FirstNamed(opts, raw, bySymbol) == Some(opts[i].key)
  {
    if i > 0 {
      FirstNamedAt(opts[1..], raw, bySymbol, i - 1);
    }
  }

  /** `_parse_metric_key` (bySymbol false) and `_parse_operator_symbol`
      (bySymbol true): a 1-based list number, else the first option the text
      names; None for a blank text or a text that names nothing. */
  function ParseChoice(opts: seq<Choice>, text: Option<string>, bySymbol: bool): (r: Option<string>)
    ensures r.Some? ==> exists i :: 0 <= i < |opts| && r.value == opts[i].key
    ensures Trim(if text.Some? then text.value else "") == [] ==> r.None?
  {
    var raw := Trim(if text.Some? then text.value else "");
    if raw == [] then None
    else
      var n := ByNumber(opts, raw);
      if n.Some? then n else FirstNamed(opts, raw, bySymbol)
  }

  function ParseMetricKey(text: Option<string>): Option<string> {
    ParseChoice(METRIC_OPTIONS, text, false)
  }

  function ParseOperatorSymbol(text: Option<string>): Option<string> {
    ParseChoice(OPERATOR_OPTIONS, text, true)
  }

  /** Every list number picks its option. */
  lemma PickByNumber(opts: seq<Choice>, k: nat, bySymbol: bool)
    requires 1 <= k <= |opts|
    ensures ParseChoice(opts, Some(NatToString(k)), bySymbol) == Some(opts[k - 1].key)
  {
    var s := NatToString(k);
    assert forall i :: 0 <= i < |s| ==> IsDigit(s[i]);
    TrimKeeps(s);
    NatToStringValue(k);
  }

  /** A text that is not a number and names an option picks the first option
      it names. */
  lemma PickByName(opts: seq<Choice>, raw: string, bySymbol: bool, i: nat)
    requires raw != [] && !IsSpace(raw[0]) && !IsSpace(raw[|raw| - 1]) && !IsDigits(raw)
    requires i < |opts| && Names(opts[i], raw, bySymbol)
    requires forall j :: 0 <= j < i ==> !Names(opts[j], raw, bySymbol)
    ensures ParseChoice(opts, Some(raw), bySymbol) == Some(opts[i].key)
  {
    TrimKeeps(raw);
    FirstNamedAt(opts, raw, bySymbol, i);
  }

  /** Every operator symbol picks its own operator. */
  lemma OperatorSymbols()
    ensures forall i :: 0 <= i < |OPERATOR_OPTIONS| ==>
      ParseOperatorSymbol(Some(OPERATOR_OPTIONS[i].key)) == Some(OPERATOR_OPTIONS[i].key)
  {
    var o := OPERATOR_OPTIONS;
    forall i | 0 <= i < |o|
      ensures ParseOperatorSymbol(Some(o[i].key)) == Some(o[i].key)
    {
      var raw := o[i].key;
      assert !IsDigits(raw) by {
        assert !IsDigit(raw[0]);
      }
      forall j | 0 <= j < i
        ensures !Names(o[j], raw, true)
      {
        assert Lower(o[j].caption)[0] == LowerChar(o[j].caption[0]);
        assert Lower(raw)[0] == LowerChar(raw[0]);
      }
      PickByName(o, raw, true, i);
    }
  }

  // ------------------------------------------------------------- sort order

  /** The `sort_order` when no rule has a positive one, and when the service
      is missing or its listing raises. */
  const FIRST_SORT_ORDER: int := 10
  const NO_SERVICE_SORT_ORDER: int := 100

  /** `int(row.get("sort_order") or 0)`; None where `int` raises and the row
      is skipped. */
  function SortValue(v: Value): Option<int> {
    if !Truthy(v) then Some(0) else ToInt(v)
  }

  /** The largest sort order read, and 0 when none is positive. */
  function MaxSort(rows: seq<Value>): (m: int)
    ensures m >= 0
    ensures forall i :: 0 <= i < |rows| && SortValue(rows[i]).Some? ==> SortValue(rows[i]).value <= m
    ensures m > 0 ==> exists i :: 0 <= i < |rows| && SortValue(rows[i]) == Some(m)
  {
    if rows == [] then 0
    else
      var m := MaxSort(rows[..|rows| - 1]);
      var v := SortValue(rows[|rows| - 1]);
      assert forall i :: 0 <= i < |rows| - 1 ==> rows[..|rows| - 1][i] == rows[i];
      if v.Some? then Max(m, v.value) else m
  }

  /** The sort order after a maximum: 10 when it is not positive, otherwise
      the next multiple of 10. */
  function NextAfter(m: int): int {
    if m <= 0 then FIRST_SORT_ORDER else (m / 10 + 1) * 10
  }

  /** The next sort order is the smallest positive multiple of 10 above the
      maximum. */
  lemma NextAfterIsNextMultiple(m: int)
    ensures var r := NextAfter(m);
      r > 0 && r % 10 == 0 && r > m && (m > 0 ==> r - 10 <= m) && (m <= 0 ==> r == 10)
  {
    if m > 0 {
      var q := m / 10;
      assert m == q * 10 + m % 10;
    }
  }

  /** `_next_achievement_sort_order`; `rules` is None when the service is
      missing or its listing raises. */
  method NextSortOrder(rules: Option<seq<Value>>) returns (r: int)
    ensures rules.None? ==> r == NO_SERVICE_SORT_ORDER
    ensures rules.Some? ==> r == NextAfter(MaxSort(rules.value))
  {
    if rules.None? {
      return NO_SERVICE_SORT_ORDER;
    }
    var rows := rules.value;
    var maxSort := 0;
    for i := 0 to |rows|
      invariant maxSort == MaxSort(rows[..i])
    {
      assert rows[..i + 1][..i] == rows[..i];
      var v := SortValue(rows[i]);
      if v.Some? {
        maxSort := Max(maxSort, v.value);
      }
    }
    assert rows[..|rows|] == rows;
    if maxSort <= 0 {
      return FIRST_SORT_ORDER;
    }
    r := (maxSort / 10 + 1) * 10;
  }

  // ---------------------------------------------------------- rule codes

  /** The longest rule code, and the longest slug of the title kept in it. */
  const MAX_CODE: nat := 64
  const MAX_TITLE_SLUG: nat := 24
  /** The last suffix number tried. */
  const LAST_SUFFIX: nat := 999

  predicate IsSlugChar(c: char) {
    'a' <= c <= 'z' || '0' <= c <= '9'
  }

  predicate NoDoubleUnderscore(s: string) {
    forall i :: 0 <= i < |s| - 1 ==> s[i] != '_' || s[i + 1] != '_'
  }

  /** `re.sub(r"[^a-z0-9]+", "_", s)`: each run of other characters becomes
      one `_`. */
  function Underscored(s: string): (r: string)
    ensures forall i :: 0 <= i < |r| ==> IsSlugChar(r[i]) || r[i] == '_'
    ensures NoDoubleUnderscore(r)
  {
    if s == [] then []
    else
      var p := Underscored(s[..|s| - 1]);
      var c := s[|s| - 1];
      if IsSlugChar(c) then p + [c]
      else if p != [] && p[|p| - 1] == '_' then p
      else p + ['_']
  }

  /** `re.sub(r"_+", "_", s)` */
  function CollapseUnderscores(s: string): (r: string)
    ensures |r| <= |s|
    ensures NoDoubleUnderscore(r)
    ensures forall c :: c in r ==> c in s
  {
    if s == [] then []
    else
      var p := CollapseUnderscores(s[..|s| - 1]);
      var c := s[|s| - 1];
      assert forall x :: x in s[..|s| - 1] ==> x in s;
      if c == '_' && p != [] && p[|p| - 1] == '_' then p else p + [c]
  }

  /** `s.rstrip("_")` */
  function TrimEndUnderscores(s: string): (r: string)
    ensures |r| <= |s| && r == s[..|r|]
    ensures r != [] ==> r[|r| - 1] != '_'
  {
    if s != [] && s[|s| - 1] == '_' then TrimEndUnderscores(s[..|s| - 1]) else s
  }

  /** `s.lstrip("_")` */
  function TrimStartUnderscores(s: string): (r: string)
    ensures |r| <= |s| && r == s[|s| - |r|..]
    ensures r != [] ==> r[0] != '_'
  {
    if s != [] && s[0] == '_' then TrimStartUnderscores(s[1..]) else s
  }

  /** `s.strip("_")` */
  function StripUnderscores(s: string): (r: string)
    ensures |r| <= |s|
    ensures r != [] ==> r[0] != '_' && r[|r| - 1] != '_'
  {
    var t := TrimStartUnderscores(s);
    var r := TrimEndUnderscores(t);
    assert r != [] ==> r[0] == t[0];
    r
  }

  /** `_slugify_ascii` */
  function Slugify(raw: string): string {
    StripUnderscores(Underscored(Lower(Trim(raw))))
  }

  /** `OPERATOR_TOKEN.get(operator, "eq")` */
  function OperatorToken(op: string): string {
    if op == ">=" then "ge"
    else if op == ">" then "gt"
    else if op == "=" then "eq"
    else if op == "<=" then "le"
    else if op == "<" then "lt"
    else "eq"
  }

  function Abs(n: int): nat {
    if n < 0 then -n else n
  }

  /** The code before any suffix: the title's slug cut to 24 characters, the
      metric, the operator token and the threshold, joined by single `_`;
      "ach_rule" when that is shorter than 3; cut to 64 and stripped of `_`. */
  function BaseCode(title: string, metricKey: string, op: string, threshold: int): (r: string)
    ensures |r| <= MAX_CODE
  {
    var baseTitle := Take(Slugify(title), MAX_TITLE_SLUG);
    var tail := metricKey + "_" + OperatorToken(op) + "_" + NatToString(Abs(threshold));
    var b := StripUnderscores(CollapseUnderscores(if baseTitle != [] then baseTitle + "_" + tail else "ach_" + tail));
    StripUnderscores(Take(if |b| < 3 then "ach_rule" else b, MAX_CODE))
  }

  /** The `i`-th candidate: the base, cut and stripped of trailing `_` so
      that `_<i>` still fits in 64 characters, followed by `_<i>`. */
  function Candidate(base: string, i: nat): (r: string)
    requires |base| <= MAX_CODE && i <= LAST_SUFFIX
    ensures |r| <= MAX_CODE
  {
    var suffix := "_" + NatToString(i);
    NatWidthAtMost3(i);
    var cand := if |base| + |suffix| > MAX_CODE then TrimEndUnderscores(base[..MAX_CODE - |suffix|]) else base;
    cand + suffix
  }

  lemma NatWidthAtMost3(i: nat)
    requires i <= LAST_SUFFIX
    ensures |NatToString(i)| <= 3
  {
    if i >= 10 {
      NatWidthAtMost3(i / 10);
      if i < 100 {
        assert i / 10 < 10;
      }
    }
  }

  /** `{str(r.get("code") or "").strip().lower() for r in rows}` */
  function ExistingCodes(codes: seq<Option<string>>): set<string> {
    set i | 0 <= i < |codes| :: Lower(Trim(if codes[i].Some? then codes[i].value else ""))
  }

  /** The first candidate from the `i`-th on whose lowercase form is not
      taken, or None when all up to the 999th are. */
  function FirstFree(base: string, taken: set<string>, i: nat): (r: Option<string>)
    requires |base| <= MAX_CODE && 2 <= i
    ensures r.Some? ==> Lower(r.value) !in taken && |r.value| <= MAX_CODE
    ensures r.Some? ==> exists k :: (i <= k <= LAST_SUFFIX && r.value == Candidate(base, k)
      && forall j :: i <= j < k ==> Lower(Candidate(base, j)) in taken)
    ensures r.None? ==> forall j :: i <= j <= LAST_SUFFIX ==> Lower(Candidate(base, j)) in taken
    decreases LAST_SUFFIX + 1 - i
  {
    if i > LAST_SUFFIX then None
    else if Lower(Candidate(base, i)) !in taken then Some(Candidate(base, i))
    else FirstFree(base, taken, i + 1)
  }

  /** The timestamp code of the last resort. */
  function Fallback(now: int): string {
    "ach_" + IntToString(now)
  }

  /** What `_generate_achievement_code` returns: the base code when there is
      no service or the base is free, the first free numbered candidate, and
      the timestamp code when all are taken. */
  function GeneratedCode(base: string, codes: Option<seq<Option<string>>>, now: int): string
    requires |base| <= MAX_CODE
  {
    if codes.None? || Lower(base) !in ExistingCodes(codes.value) then base
    else
      var free := FirstFree(base, ExistingCodes(codes.value), 2);
      if free.Some? then free.value else Fallback(now)
  }

  /** A generated code is at most 64 characters long, and unless it is the
      timestamp code, no existing code has its lowercase form. */
  lemma GeneratedCodeIsFree(base: string, codes: seq<Option<string>>, now: int)
    requires |base| <= MAX_CODE
    ensures var code := GeneratedCode(base, Some(codes), now);
      code != Fallback(now) ==> Lower(code) !in ExistingCodes(codes) && |code| <= MAX_CODE
  {
  }

  /** The method's loop is the recursion of `FirstFree`. */
  method FirstFreeLoop(base: string, taken: set<string>) returns (r: Option<string>)
    requires |base| <= MAX_CODE
    ensures r == FirstFree(base, taken, 2)
  {
    for i := 2 to LAST_SUFFIX + 1
      invariant FirstFree(base, taken, 2) == FirstFree(base, taken, i)
    {
      var cand := Candidate(base, i);
      if Lower(cand) !in taken {
        return Some(cand);
      }
    }
    return None;
  }

  /** `_generate_achievement_code`; `codes` is None without the achievement
      service, and `now` is the timestamp of the last resort. */
  method GenerateCode(title: string, metricKey: string, op: string, threshold: int,
                      codes: Option<seq<Option<string>>>, now: int) returns (code: string)
    ensures code == GeneratedCode(BaseCode(title, metricKey, op, threshold), codes, now)
  {
    var base := BaseCode(title, metricKey, op, threshold);
    if codes.None? {
      return base;
    }
    var existing := ExistingCodes(codes.value);
    if Lower(base) !in existing {
      return base;
    }
    var free := FirstFreeLoop(base, existing);
    if free.Some? {
      return free.value;
    }
    code := Fallback(now);
  }
}
