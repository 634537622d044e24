/** The pure helpers of the user chat handlers: the strict `HH:MM` reader, the
    numeric id reader, the `/start` deep-link payload, and how a text message
    meets a pending conversation step. */
module UserHelpers {
  import opened Common
  import Worker

  // ------------------------------------------------------------ HH:MM

  /** `re.fullmatch(r"\d{2}:\d{2}", s)` on ASCII digits. */
  predicate IsHhmmShape(s: string) {
    |s| == 5 && IsDigit(s[0]) && IsDigit(s[1]) && s[2] == ':' && IsDigit(s[3]) && IsDigit(s[4])
  }

  /** Two ASCII digits, as the number they spell (`int` of a two-digit field). */
  function TwoDigits(a: char, b: char): (n: nat)
    requires IsDigit(a) && IsDigit(b)
    ensures n < 100
  {
    DigitValue(a) * 10 + DigitValue(b)
  }

  /** `f"{n:02d}"` for a number below 100. */
  function Pad2(n: nat): (r: string)
    requires n < 100
    ensures |r| == 2 && IsDigit(r[0]) && IsDigit(r[1]) && TwoDigits(r[0], r[1]) == n
  {
    [DigitChar(n / 10), DigitChar(n % 10)]
  }

  /** `_parse_hhmm` of the user handlers: a trimmed `HH:MM` with hours 00-23
      and minutes 00-59, written back zero-padded; None for anything else. */
  function ParseHhmm(raw: Option<string>): Option<string> {
    var s := Trim(if raw.Some? then raw.value else "");
    if !IsHhmmShape(s) then None
    else
      var hh := TwoDigits(s[0], s[1]);
      var mm := TwoDigits(s[3], s[4]);
      if hh <= 23 && mm <= 59 then Some(Pad2(hh) + ":" + Pad2(mm)) else None
  }

  /** Two digits written as two digits are left as they are. */
  lemma TwoDigitsPad(a: char, b: char)
    requires IsDigit(a) && IsDigit(b)
    ensures Pad2(TwoDigits(a, b)) == [a, b]
  {
    var z := Pad2(TwoDigits(a, b));
    assert z[0] == a by {
      DigitValueInjective(z[0], a);
    }
    assert z[1] == b by {
      DigitValueInjective(z[1], b);
    }
  }

  lemma DigitValueInjective(a: char, b: char)
    requires IsDigit(a) && IsDigit(b) && DigitValue(a) == DigitValue(b)
    ensures a == b
  {
  }

  /** A time is accepted exactly when it has the `HH:MM` shape and its fields
      are in range, and then it comes back as the trimmed text itself. */
  lemma ParseHhmmMeaning(raw: Option<string>)
    ensures var s := Trim(if raw.Some? then raw.value else "");
      ParseHhmm(raw).Some? <==>
        (IsHhmmShape(s) && TwoDigits(s[0], s[1]) <= 23 && TwoDigits(s[3], s[4]) <= 59)
    ensures ParseHhmm(raw).Some? ==> ParseHhmm(raw).value == Trim(raw.value)
  {
    var s := Trim(if raw.Some? then raw.value else "");
    if IsHhmmShape(s) && TwoDigits(s[0], s[1]) <= 23 && TwoDigits(s[3], s[4]) <= 59 {
      TwoDigitsPad(s[0], s[1]);
      TwoDigitsPad(s[3], s[4]);
      assert Pad2(TwoDigits(s[0], s[1])) + ":" + Pad2(TwoDigits(s[3], s[4])) == s;
    }
  }

  /** Every time of day, written zero-padded, is read back as itself. */
  lemma ParseHhmmRoundTrip(h: nat, m: nat)
    requires h <= 23 && m <= 59
    ensures ParseHhmm(Some(Pad2(h) + ":" + Pad2(m))) == Some(Pad2(h) + ":" + Pad2(m))
  {
    var s := Pad2(h) + ":" + Pad2(m);
    assert s[0] == Pad2(h)[0] && s[1] == Pad2(h)[1];
    assert s[3] == Pad2(m)[0] && s[4] == Pad2(m)[1];
    TrimKeeps(s);
    ParseHhmmMeaning(Some(s));
  }

  // ------------------------------------------------------------ numeric ids

  /** `_extract_numeric_id`: one leading `#` is dropped, the rest must be
      ASCII digits and the number positive. */
  function ExtractNumericId(raw: Option<string>): (r: Option<int>)
    ensures var s := Trim(if raw.Some? then raw.value else "");
      var body := if s != [] && s[0] == '#' then s[1..] else s;
      r.Some? <==> IsDigits(body) && DigitsValue(body) > 0
    ensures r.Some? ==> r.value > 0
  {
    var s := Trim(if raw.Some? then raw.value else "");
    var body := if s != [] && s[0] == '#' then s[1..] else s;
    if !IsDigits(body) then None
    else if DigitsValue(body) > 0 then Some(DigitsValue(body))
    else None
  }

  /** A positive digit string is read with or without its `#`. */
  lemma NumericIdOf(d: string)
    requires IsDigits(d) && DigitsValue(d) > 0
    ensures ExtractNumericId(Some(d)) == Some(DigitsValue(d))
    ensures ExtractNumericId(Some("#" + d)) == Some(DigitsValue(d))
  {
    TrimKeeps(d);
    var h := "#" + d;
    assert h[|h| - 1] == d[|d| - 1];
    TrimKeeps(h);
    assert h[1..] == d;
  }

  /** The id a list shows, with or without its `#`, is read back. */
  lemma NumericIdRoundTrip(n: nat)
    requires n > 0
    ensures ExtractNumericId(Some(NatToString(n))) == Some(n)
    ensures ExtractNumericId(Some("#" + NatToString(n))) == Some(n)
  {
    NatToStringValue(n);
    NumericIdOf(NatToString(n));
  }

  // ------------------------------------------------------------ deep links

  /** What a `/start` payload opens: the lesson or the quest of a day. */
  datatype Target = LessonOf(day: nat) | QuestOf(day: nat)

  const LESSON_TAG: string := "gol_"
  const QUEST_TAG: string := "goq_"

  /** `re.match(r"^(go[ql])_(\d+)$", payload)` on the trimmed first argument. */
  function ParseStartPayload(arg: Option<string>): (r: Option<Target>)
    ensures var p := Trim(if arg.Some? then arg.value else "");
      r.Some? <==> (|p| > 4 && (p[..4] == LESSON_TAG || p[..4] == QUEST_TAG) && IsDigits(p[4..]))
  {
    var p := Trim(if arg.Some? then arg.value else "");
    if |p| <= 4 || !IsDigits(p[4..]) then None
    else if p[..4] == LESSON_TAG then Some(LessonOf(DigitsValue(p[4..])))
    else if p[..4] == QUEST_TAG then Some(QuestOf(DigitsValue(p[4..])))
    else None
  }

  /** A tag followed by digits parses to that tag's target. */
  lemma PayloadOf(tag: string, n: string)
    requires tag == LESSON_TAG || tag == QUEST_TAG
    requires IsDigits(n)
    ensures ParseStartPayload(Some(tag + n))
      == Some(if tag == LESSON_TAG then LessonOf(DigitsValue(n)) else QuestOf(DigitsValue(n)))
  {
    var p := tag + n;
    assert p[|p| - 1] == n[|n| - 1];
    TrimKeeps(p);
    assert p[..4] == tag;
    assert p[4..] == n;
  }

  /** The payload of a worker's deep link to a day opens that day's lesson or
      quest. */
  lemma StartPayloadRoundTrip(d: nat)
    ensures ParseStartPayload(Some(LESSON_TAG + IntToString(d))) == Some(LessonOf(d))
    ensures ParseStartPayload(Some(QUEST_TAG + IntToString(d))) == Some(QuestOf(d))
  {
    var n := NatToString(d);
    assert IntToString(d) == n;
    NatToStringValue(d);
    PayloadOf(LESSON_TAG, n);
    PayloadOf(QUEST_TAG, n);
  }

  /** The links the day's reminder carries: with a bot name, the link to the
      first pending lesson or quest ends in a payload that opens that day. */
  lemma ReminderLinkOpensDay(botName: Option<string>, first: nat, lesson: bool)
    requires botName.Some? && botName.value != []
    ensures var tag := if lesson then LESSON_TAG else QUEST_TAG;
      var link := Worker.FirstLink(botName, tag, Some(first));
      var prefix := "https://t.me/" + botName.value + "?start=";
      link.Some? && |prefix| <= |link.value| && link.value[..|prefix|] == prefix
      && ParseStartPayload(Some(link.value[|prefix|..])) == Some(if lesson then LessonOf(first) else QuestOf(first))
  {
    var tag := if lesson then LESSON_TAG else QUEST_TAG;
    var payload := tag + IntToString(first);
    var prefix := "https://t.me/" + botName.value + "?start=";
    var link := Worker.FirstLink(botName, tag, Some(first));
    assert link.value == prefix + payload;
    assert link.value[|prefix|..] == payload;
    StartPayloadRoundTrip(first);
  }

  // ------------------------------------------------------------ pending steps

  /** The steps the user handlers own. */
  const USER_STEPS: set<string> := {
    "wait_name", "wait_time", "enroll_time", "pd_consent", "wait_timezone",
    "habit_wait_title", "habit_wait_time", "habit_wait_freq", "habit_pick_for_edit",
    "habit_edit_menu", "habit_edit_title", "habit_edit_time", "habit_edit_freq",
    "habit_pick_for_delete", "habit_delete_confirm",
    "pr_wait_text", "pr_wait_datetime", "pr_pick_for_edit", "pr_edit_menu",
    "pr_edit_text", "pr_edit_datetime", "pr_pick_for_delete", "pr_delete_confirm",
    "support_wait_text"}

  const BTN_BACK: string := "⬅️ Назад"

  /** The menus Back returns to. */
  datatype Menu = HabitsMenu | RemindersMenu | MainMenu

  /** How `on_step_text` meets a message: it lets the message through to
      another feature, it only clears a foreign step, it goes back to a menu
      clearing the step, or it handles the text in the user's own step. */
  datatype Reaction = PassThrough | ClearOnly | Back(menu: Menu) | HandleStep(step: string)

  /** The menu Back returns to from a step. */
  function BackMenu(step: string): Menu {
    if StartsWith(step, "habit_") then HabitsMenu
    else if StartsWith(step, "pr_") then RemindersMenu
    else MainMenu
  }

  /** `on_step_text` up to the step's own branch; `step` is the stored step
      (None or empty when there is none), `navTexts` the menu buttons and
      `text` the trimmed message. The second component is the step after it. */
  function OnStepText(step: Option<string>, navTexts: set<string>, text: string): (r: (Reaction, Option<string>))
    ensures r.0.PassThrough? ==> r.1 == step
    ensures !r.0.PassThrough? && !r.0.HandleStep? ==> r.1.None?
    ensures r.0.HandleStep? ==> r.1 == step && step == Some(r.0.step) && r.0.step in USER_STEPS
  {
    var cur := if step.Some? then step.value else "";
    if cur == "" then (PassThrough, step)
    else if cur !in USER_STEPS then
      (if text in navTexts then (ClearOnly, None) else (PassThrough, step))
    else if text == BTN_BACK then (Back(BackMenu(cur)), None)
    else (HandleStep(cur), step)
  }

  /** Another feature's pending step keeps the message and the step, unless
      the message is a menu button, which cancels that step. */
  lemma ForeignStepPassThrough(step: string, navTexts: set<string>, text: string)
    requires step != [] && step !in USER_STEPS
    ensures text !in navTexts ==> OnStepText(Some(step), navTexts, text) == (PassThrough, Some(step))
    ensures text in navTexts ==> OnStepText(Some(step), navTexts, text) == (ClearOnly, None)
  {
  }

  /** Back in a user step clears it and returns to the habits menu from a
      habit step, to the reminders menu from a reminder step, and to the main
      menu otherwise. */
  lemma BackFromStep(step: string, navTexts: set<string>)
    requires step in USER_STEPS
    ensures OnStepText(Some(step), navTexts, BTN_BACK).1.None?
    ensures var r := OnStepText(Some(step), navTexts, BTN_BACK).0;
      r.Back? && (StartsWith(step, "habit_") ==> r.menu == HabitsMenu)
      && (StartsWith(step, "pr_") ==> r.menu == RemindersMenu)
      && (!StartsWith(step, "habit_") && !StartsWith(step, "pr_") ==> r.menu == MainMenu)
  {
    assert step != "";
    if StartsWith(step, "pr_") {
      assert step[0] == 'p';
      assert !StartsWith(step, "habit_") by {
        assert "habit_"[0] != step[0];
      }
    }
  }
}
