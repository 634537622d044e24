# Happiness course bot: a verified model of its core

The bot runs a day-by-day course in Telegram. Each enrolled user gets a daily lesson, a quest and day questionnaires at a chosen local delivery time. Unfinished material triggers a daily reminder. Users also get habit reminders, one-off or recurring personal reminders, a mood diary, points and achievements, support tickets and a daily content pack. Admins manage roles and read analytics reports.

This project models the core of the bot in Dafny and proves properties of the model:

- **Planning.** `Schedule` and `ScheduleRules` cover the delivery planner: job keys, HH:MM parsing, day indices, quiet hours, the grace window and the reminder time. `HabitPlanner` and `PersonalPlanner` cover the habit and personal reminder planners. Each planner inserts jobs only when no live job with the same key exists. So a second run creates nothing, and every planned job carries its key.
- **Outbox and worker.** `Outbox` models the outbox of jobs: due-job fetching, marking, cancelling and guarded insertion. `Worker` models the worker that takes up to 50 due jobs in run-time order and handles each one. A job ends as sent, or as failed when handling raises. The worker writes the sent-content ledger (`SentJobs`), deliveries (`Deliveries`), progress, the last quest and habit occurrences exactly as each job kind demands. `Worker` also builds the cumulative backlog of the daily reminder and its deep links.
- **Tables.** Each table the bot updates in place is a class whose fields the methods reassign. Each method's `ensures` ties the new contents to a function of the old ones. The tables are `Points`, `Answers`, `UserState`, `Progress`, `Enrollment`, `Users`, `Content`, `Questionnaires`, `Habits`, `HabitOccurrences`, `PersonalReminders`, `Mood`, `Support`, `Achievements`, `Admins` and `DailyPack`.
- **Services.** The services above the tables are modelled too: learning, questionnaires, habits, personal reminders, mood, support, admin roles, analytics, admin analytics and streaks.
- **Pure helpers.** The pure helpers of the user and admin handlers are modelled as functions with round-trip and if-and-only-if lemmas.

The model rests on a few shared definitions:

- **Time.** An instant is whole seconds since the Unix epoch in UTC. A date is the proleptic Gregorian ordinal that Python's `date.toordinal()` uses. A time zone is a fixed UTC offset looked up by name. `Clock` proves the calendar conversions and the local-time round trips the planners rely on.
- **Text and integers.** Python's `strip`, `split`, `lower`, `int()` and `str()` are modelled in `Common`.
- **Database.** SQL tables are Dafny sequences, sets and maps. `ORDER BY` is a stable sort. `ON CONFLICT` becomes a find-then-update.
- **Outside world.** Sending a Telegram message, the bot's username and failures of individual writes are parameters of the worker. Nothing in the model performs I/O.

Where the descriptive documentation and the code disagree, the model follows the code:

- `enqueue_day_now` guards lesson and quest jobs only by a live job with the same key. It does not consult the sent-content ledger, and its payloads carry no date.
- The "job exists" check ignores failed and cancelled jobs, so failed work can be queued again under the same key.
- The outbox methods that cancel day-questionnaire jobs and personal-reminder jobs are called but not defined in `outbox_repo.py`. They are modelled as cancelling the user's pending future jobs of the matching scope.
- `admin_service.py` calls `is_owner`, `upsert` and `count_owners` on the admins repository, but `admins_repo.py` does not define them and stores no role. The model gives each admin a role and follows the in-memory repository of `tests/test_admin_service.py` for those three methods. It follows the same repository for `list_user_ids`, which lists ids in ascending order; `admins_repo.py` lists them newest first, and that table has no creation time in the model.

## Model

| member | source | states |
|---|---|---|
| Common.Clamp | scheduling/schedule_service.py:63-64 | `max(lo, min(hi, x))` lies in the range, keeps values inside it and maps values below or above to the nearer end |
| Common.Trim | scheduling/schedule_service.py:60 | `strip()` gives text no longer than the input that neither starts nor ends with whitespace |
| Common.Lower | admin/admin_handlers.py:296 | `lower()` keeps the length and lowers each letter |
| Common.Split | scheduling/schedule_service.py:62 | `split` on one character gives at least one part and no part holds the separator |
| Common.SplitJoin | scheduling/schedule_service.py:49 | splitting an f-string of separator-free fields gives the fields back |
| Common.ParseIntToString | scheduling/schedule_service.py:208-209 | `int(str(n)) == n` |
| Common.ZeroPadValue | user/user_handlers.py:118 | a zero-padded number is all digits and reads back as the number |
| Sorting.SortBy | entity/repositories/outbox_repo.py:18 | `ORDER BY` gives a permutation of the rows, sorted by the key |
| Clock.ToUtcRoundTrip | scheduling/schedule_service.py:76-78 | a local date and time turned into an instant read back, in the same zone, as that date and time |
| Clock.YmdRoundTrip | scheduling/schedule_service.py:272 | every valid calendar date survives the conversion to a day number and back |
| Clock.IsoDateShape | scheduling/schedule_service.py:272 | `isoformat()` of a date is `YYYY-MM-DD`: ten characters, dashes at positions 4 and 7, digits elsewhere |
| Clock.IsoWeekdayIsWeekdayPlusOne | scheduling/habit_schedule_service.py:52 | `isoweekday()` is `weekday() + 1` |
| Achievements.RulesDistinct | core/achievement_service.py:13-63 | the seven rules carry seven distinct codes |
| Achievements.FreshSound | core/achievement_service.py:125-146 | every row `evaluate` adds belongs to the user, comes from a rule that holds and has a code the user did not hold |
| Achievements.FreshCovers | core/achievement_service.py:125-146 | after `evaluate` the user holds the code of every rule that holds |
| Achievements.FreshNone | core/achievement_service.py:133-145 | when the user already holds every code that holds, nothing is added |
| Achievements.EvaluateTwice | core/achievement_service.py:125-146 | a second `evaluate` on the same statistics grants nothing |
| Achievements.FreshKeepsUnique | entity/repositories/achievements_repo.py:12-31 | the added rows keep the one-row-per-(user, code) key |
| Achievements.SampleHolds | tests/test_user_progress_and_achievements.py:97-116 | on 55 points, 4 days, streak 3, 3 habits, 3 questionnaires every rule except `streak_7` holds |
| Achievements.FreshFromNothing | core/achievement_service.py:125-146 | for a user with no achievements, a code is granted exactly when its rule holds |
| Achievements.SampleGrants | tests/test_user_progress_and_achievements.py:97-116 | the test's statistics grant every achievement except `streak_7` |
| Achievements.ResolveZone | core/achievement_service.py:72-77 | the stripped user zone, else the default name; UTC when the name is unknown |
| Achievements.AchievementsRepo.Grant | entity/repositories/achievements_repo.py:12-31 | inserts and returns the row when the code is new, returns nothing and changes nothing otherwise |
| Achievements.AchievementService.Snapshot | core/achievement_service.py:109-123 | the counters as given, and the streak of the completion dates in the resolved zone |
| Achievements.AchievementService.Evaluate | core/achievement_service.py:125-146 | returns exactly the fresh grants, in rule order, and appends them to the table |
| Streaks.Latest | core/achievement_service.py:90-96 | the newest date of a non-empty set is in the set and no date is newer |
| Streaks.RunBackIsRun | core/achievement_service.py:99-106 | the counted days back from a date are all present and the day before them is not |
| Streaks.RunBackExact | core/achievement_service.py:99-106 | a run of exactly n present days, ended by a missing day, counts n |
| Streaks.RunBackBound | core/achievement_service.py:99-106 | the run never counts more days than there are dates |
| Streaks.StreakZero | core/achievement_service.py:86-97 | the streak is 0 exactly when there are no dates or the newest is older than yesterday; never above the number of dates |
| Streaks.StreakIsRun | core/achievement_service.py:86-107 | a positive streak is the unbroken run that ends at the newest date, which is today or yesterday |
| Streaks.ThreeDays | tests/test_user_progress_and_achievements.py:97-116 | completions today, yesterday and the day before give a streak of 3 |
| Streaks.InsertDesc | core/achievement_service.py:90 | inserting a date keeps the list strictly newest first and adds exactly that date |
| Streaks.GapAfterRun | core/achievement_service.py:101-106 | the loop stops at the first missing day: that day is absent and every day of the run is present |
| Streaks.Streak | core/achievement_service.py:86-107 | the loop returns the streak of the distinct local dates as of today in the zone |
| Admins.Added | tests/test_admin_service.py:16-19 | `add` fails only for an unknown user; otherwise the user is stored and the owners are unchanged |
| Admins.Upserted | tests/test_admin_service.py:21-23 | `upsert` fails only for an unknown user; otherwise the user gets the role and every other row is kept |
| Admins.ConfiguredOwner | admin/admin_service.py:21-29 | the owner setting, only when it is a positive id |
| Admins.Least | tests/test_admin_service.py:31-32 | the first listed id is stored and no stored id is smaller |
| Admins.EnsuredOwnerFacts | admin/admin_service.py:54-72 | promotion keeps every admin and owner, and leaves an owner exactly when there was one or a candidate exists |
| Admins.ChecksKeepOwners | admin/admin_service.py:74-118 | the lazy `is_admin`/`is_owner` checks never remove an owner and store only known users |
| Admins.AdminCheckAnswers | admin/admin_service.py:74-111 | yes exactly for a stored admin or a configured id of a known user; afterwards that user is stored; a no writes nothing |
| Admins.LastOwnerKept | admin/admin_service.py:134-205 | none of the five management requests leaves a table without an owner |
| Admins.OwnerKeptByWrite | admin/admin_service.py:134-205 | a role write to another user, or an owner write, keeps an owner |
| Admins.OwnerLeftAfterRemoval | admin/admin_service.py:179-194 | removing anyone but the last owner leaves an owner |
| Admins.OwnerLeftAfterDemotion | admin/admin_service.py:162-177 | demoting anyone but the last owner leaves an owner |
| Admins.OwnerOnlyManagement | admin/admin_service.py:134-194 | a request that succeeds leaves the target with the requested role and the actor an owner |
| Admins.GrantAdminKeepsOwners | admin/admin_service.py:134-147 | `grant_admin` never demotes an owner |
| Admins.LastOwnerRefused | admin/admin_service.py:162-194 | demoting or removing the only owner is refused with the last-owner reason |
| Admins.RefusalsWriteNothing | admin/admin_service.py:134-194 | a refused request changes at most what its owner check wrote; a non-positive target is refused as a bad id |
| Admins.AddAllFacts | admin/admin_service.py:31-52 | adding a list stores every known id of it, adds no other id and keeps the owners |
| Admins.SeedFacts | admin/admin_service.py:31-52 | seeding stores every configured known id, makes the configured owner an owner, adds nobody else and loses no owner |
| Admins.SeedFirstOwner | tests/test_admin_service.py:56-62 | with admins 1001 and 1002 and no owner setting, 1001 becomes the owner and 1002 an admin |
| Admins.AdminsRepo.IsAdmin | entity/repositories/admins_repo.py:13-16 | yes exactly when the user has a row |
| Admins.AdminsRepo.IsOwner | tests/test_admin_service.py:13-14 | yes exactly when the user's role is owner |
| Admins.AdminsRepo.CountOwners | tests/test_admin_service.py:28-29 | the number of owners |
| Admins.AdminsRepo.Add | entity/repositories/admins_repo.py:18-23 | the table becomes `Added` of the old one, unchanged when the insert fails |
| Admins.AdminsRepo.Upsert | tests/test_admin_service.py:21-23 | the table becomes `Upserted` of the old one, unchanged when the write fails |
| Admins.AdminsRepo.Remove | entity/repositories/admins_repo.py:25-27 | the user's row is gone and nothing else changes |
| Admins.AdminsRepo.FirstUserId | tests/test_admin_service.py:31-32 | the first of the ids listed in ascending order: the smallest stored id, none for an empty table |
| Admins.AdminService.ConfiguredOwnerUid | admin/admin_service.py:21-29 | the configured owner as `ConfiguredOwner` states it |
| Admins.AdminService.EnsureOwnerExists | admin/admin_service.py:54-72 | the table becomes `EnsuredOwner` of the old one |
| Admins.AdminService.IsAdmin | admin/admin_service.py:74-111 | answer and new table as `AdminCheck` of the old table |
| Admins.AdminService.IsOwner | admin/admin_service.py:113-118 | answer and new table as `OwnerCheck` of the old table |
| Admins.AdminService.GrantAdmin | admin/admin_service.py:134-147 | outcome and new table as `AdminGranted` |
| Admins.AdminService.GrantOwner | admin/admin_service.py:149-160 | outcome and new table as `OwnerGranted` |
| Admins.AdminService.DemoteOwnerToAdmin | admin/admin_service.py:162-177 | outcome and new table as `OwnerDemoted` |
| Admins.AdminService.RemoveAdmin | admin/admin_service.py:179-194 | outcome and new table as `AdminRemoved` |
| Admins.AdminService.SetRole | admin/admin_service.py:196-205 | outcome and new table as `RoleSet` |
| Admins.AdminService.SeedAdminsFromSettings | admin/admin_service.py:31-52 | the table becomes `Seeded` of the old one |
| AdminAnalytics.PeriodLabel | analytics/admin_analytics_service.py:12-15 | "сегодня" for at most one day, otherwise "последние N дн." |
| AdminAnalytics.PeriodLabelDays | analytics/admin_analytics_service.py:12-15 | the day count can be read back from the label |
| AdminAnalytics.SafeIntMeaning | analytics/admin_analytics_service.py:24-28 | the integer reading of a value, 0 when `int` raises or the value is empty |
| AdminAnalytics.PctText | analytics/admin_analytics_service.py:18-21 | "0%" when the total is not positive |
| AdminAnalytics.PctTextExact | analytics/admin_analytics_service.py:18-21 | an exact ratio renders as its tenths followed by "%" |
| AdminAnalytics.RoundTenthsClose | analytics/admin_analytics_service.py:18-21 | the rounded tenths lie within half a tenth of the exact percentage |
| AdminAnalytics.SamplePcts | tests/test_admin_analytics_service.py:74-77 | 90/100 is "90.0%", 5/40 "12.5%", 7/10 "70.0%", 6/8 "75.0%" |
| AdminAnalytics.DayFromSourceKey | analytics/admin_analytics_service.py:31-38 | a day only from a stripped `day:<digits>` key, and then that number |
| AdminAnalytics.DayKeyRoundTrip | analytics/admin_analytics_service.py:31-38 | the `day:<n>` key the lesson flow writes reads back as day n |
| AdminAnalytics.ForeignKeyRejected | analytics/admin_analytics_service.py:31-38 | any other key reads as no day |
| AdminAnalytics.DeliveryHead | analytics/admin_analytics_service.py:85-93 | the report opens with seven lines |
| AdminAnalytics.KindLines | analytics/admin_analytics_service.py:98-106 | one line per kind row, in order |
| AdminAnalytics.KindsStats | analytics/admin_analytics_service.py:98-103 | one lenient counter tuple per kind row, in order |
| AdminAnalytics.DeliveryLines | analytics/admin_analytics_service.py:76-107 | seven lines, plus a blank, a heading and one line per kind when there are kinds |
| AdminAnalytics.DeliveryTotalLine | analytics/admin_analytics_service.py:83-88 | the third line shows the sum of the four lenient status counts |
| AdminAnalytics.HeadTotalLine | analytics/admin_analytics_service.py:83-88 | the head's third line shows the total |
| AdminAnalytics.SampleDeliveryTotal | tests/test_admin_analytics_service.py:26-33 | counts 2, 10, 1, 3 total 16; a missing and a non-numeric count read as 0 |
| AdminAnalytics.DeliveryReport | analytics/admin_analytics_service.py:76-107 | the text is the delivery lines joined by newlines |
| AdminAnalytics.CollectKinds | analytics/admin_analytics_service.py:98-103 | the loop collects exactly `KindsStats` of the rows |
| AdminAnalytics.DayStatsOf | analytics/admin_analytics_service.py:131-135 | a row's day, and the viewed and answered counts of that day, 0 when absent |
| AdminAnalytics.ContentRows | analytics/admin_analytics_service.py:130-140 | at most 15 rows, the i-th from the i-th sent row |
| AdminAnalytics.DaysStats | analytics/admin_analytics_service.py:130-135 | one day tuple per sent row, in order |
| AdminAnalytics.ContentLines | analytics/admin_analytics_service.py:129-141 | a header, a blank line and one line per day row |
| AdminAnalytics.SampleDayStats | tests/test_admin_analytics_service.py:35-40 | the test's day 1 shows 7 of 10 lessons viewed and 6 of 8 quests answered |
| AdminAnalytics.CollectViewed | analytics/admin_analytics_service.py:114-119 | the loop builds exactly the viewed-by-day map, later rows winning |
| AdminAnalytics.CollectAnswered | analytics/admin_analytics_service.py:121-124 | the loop builds exactly the answered-by-day map |
| AdminAnalytics.ContentReport | analytics/admin_analytics_service.py:109-141 | the report text as `ContentText` of the three row lists |
| AdminAnalytics.CollectDays | analytics/admin_analytics_service.py:130-140 | the loop collects exactly `ContentRows` |
| AdminHelpers.QuestPointsSource | admin/admin_handlers.py:42-47 | the current points field when truthy, else the legacy field when truthy, else 0; a field `int` rejects gives 0 |
| AdminHelpers.QuestPointsStored | admin/admin_handlers.py:42-47 | non-zero stored points are returned as they are; without them the legacy value is used |
| AdminHelpers.TicketsMode | admin/admin_handlers.py:376-377 | always "all" or "open", and "all" exactly when the stripped, lower-cased value is "all" |
| AdminHelpers.FoldedKeeps | admin/admin_handlers.py:377 | stripping and lower-casing leave a stripped lower-case word unchanged |
| AdminHelpers.TicketsModeIdempotent | admin/admin_handlers.py:404-414 | applying the mode guard twice (the menu and then the list) changes nothing |
| AdminHelpers.TicketsLimit | admin/admin_handlers.py:379-384 | always between 1 and 100: 20 when `int` fails, the value itself inside the range, and clamped to 1 or 100 outside it |
| AdminHelpers.TicketsLimitIdempotent | admin/admin_handlers.py:404-414 | applying the limit guard twice changes nothing |
| AdminHelpers.TicketNumberShown | admin/admin_handlers.py:430-439 | the per-user number when positive, otherwise the table id |
| AdminHelpers.YesNo | admin/admin_handlers.py:295-301 | yes exactly for the five yes words, no exactly for the five no words, nothing for any other word |
| AdminHelpers.AnswerOf | admin/admin_handlers.py:295-301 | a stripped answer reads as its lower-cased word |
| AdminHelpers.YesButton | admin/admin_handlers.py:295-301 | the "Да" button reads as yes |
| AdminHelpers.NoButton | admin/admin_handlers.py:295-301 | the "Нет" button reads as no |
| AdminHelpers.ByNumber | admin/admin_handlers.py:215-218 | a digit string from 1 to the number of options picks that option, any other text picks none |
| AdminHelpers.FirstNamed | admin/admin_handlers.py:219-223 | the key of an option the text names, or none when no option is named |
| AdminHelpers.FirstNamedAt | admin/admin_handlers.py:219-223 | the first option named wins |
| AdminHelpers.ParseChoice | admin/admin_handlers.py:211-237 | only a known key is returned, and blank text gives none |
| AdminHelpers.PickByNumber | admin/admin_handlers.py:211-237 | typing the number k picks the k-th option |
| AdminHelpers.PickByName | admin/admin_handlers.py:211-237 | typing a name that is not a number picks the first option with that name |
| AdminHelpers.OperatorSymbols | admin/admin_handlers.py:225-237 | each of the five operator symbols reads back as itself |
| AdminHelpers.MaxSort | admin/admin_handlers.py:253-258 | the largest readable sort order, at least 0 and attained when positive; unreadable rows are skipped |
| AdminHelpers.NextAfterIsNextMultiple | admin/admin_handlers.py:259-261 | the next sort order is the next multiple of 10 above the maximum, 10 when there is none |
| AdminHelpers.NextSortOrder | admin/admin_handlers.py:246-261 | 100 without the service; otherwise the loop's result is the next multiple after the maximum |
| AdminHelpers.Underscored | admin/admin_handlers.py:242 | every run of other characters becomes one underscore; only slug characters and single underscores remain |
| AdminHelpers.CollapseUnderscores | admin/admin_handlers.py:243 | no two underscores in a row remain and no character is invented |
| AdminHelpers.TrimEndUnderscores | admin/admin_handlers.py:243 | a prefix of the text that does not end in an underscore |
| AdminHelpers.TrimStartUnderscores | admin/admin_handlers.py:243 | a suffix of the text that does not start with an underscore |
| AdminHelpers.StripUnderscores | admin/admin_handlers.py:243 | neither end is an underscore |
| AdminHelpers.BaseCode | admin/admin_handlers.py:263-274 | the base code of a rule is at most 64 characters long |
| AdminHelpers.Candidate | admin/admin_handlers.py:286-290 | a suffixed candidate never exceeds 64 characters |
| AdminHelpers.FirstFree | admin/admin_handlers.py:285-292 | the first candidate from `_2` to `_999` whose lower-case form is not taken, or none when all are taken |
| AdminHelpers.GeneratedCodeIsFree | admin/admin_handlers.py:276-293 | a generated code other than the timestamp fallback is free and at most 64 characters |
| AdminHelpers.FirstFreeLoop | admin/admin_handlers.py:285-292 | the loop returns exactly the first free candidate |
| AdminHelpers.GenerateCode | admin/admin_handlers.py:263-293 | the code is the base when free, else the first free candidate, else the fallback |
| Analytics.Pct | analytics/analytics_service.py:32-35 | 0 for a non-positive total, otherwise the exact percentage done * 100 / total |
| Analytics.PctBounds | analytics/analytics_service.py:32-35 | a share of a positive total lies between 0 and 100 |
| Analytics.SamplePct | tests/test_user_progress_and_achievements.py:131-132 | 4 of 5 is 80 and 3 of 4 is 75 |
| Analytics.WeekStart | analytics/analytics_service.py:75-76 | the Monday of the day's week, within the six days before it |
| Analytics.WeekStartOfWeek | analytics/analytics_service.py:75-76 | every day of a week maps to that week's Monday |
| Analytics.WeekCount | analytics/analytics_service.py:79 | at least one week: 4 for an unset count, the count itself when positive, 1 when negative |
| Analytics.WeekStarts | analytics/analytics_service.py:81-82 | n Mondays, oldest first, seven days apart, ending at this week |
| Analytics.WeekStartsShape | analytics/analytics_service.py:81-82 | the last start is this week's Monday, every start is a Monday and they are seven days apart |
| Analytics.DaysInWeek | analytics/analytics_service.py:104-111 | a week counts only completion days inside that week |
| Analytics.DoneDaysAtMostSeven | analytics/analytics_service.py:104-111 | a week has at most seven completion days |
| Analytics.WeekRows | analytics/analytics_service.py:125-138 | one row per week start |
| Analytics.EventOutsideIgnored | analytics/analytics_service.py:95-102 | a points event outside the window, or without a time, changes no row |
| Analytics.OutsideWindow | analytics/analytics_service.py:82-101 | a day before the first week or after this week falls in no bucket |
| Analytics.DisplayName | analytics/analytics_service.py:166 | never empty: "Без имени" when the user has no display name |
| Analytics.AnalyticsService.AddPoints | analytics/analytics_service.py:95-102 | the loop adds each week's points sum to that bucket only |
| Analytics.AnalyticsService.AddDays | analytics/analytics_service.py:104-111 | the loop adds each week's completion days to that bucket only |
| Analytics.AnalyticsService.AddScores | analytics/analytics_service.py:113-123 | the loop appends each week's scores, in order, to that bucket only |
| Analytics.AnalyticsService.Weekly | analytics/analytics_service.py:78-138 | the rows of the requested number of weeks ending with this week |
| Analytics.AnalyticsService.Bucketed | analytics/analytics_service.py:91-138 | the rows of the given week starts |
| Analytics.AnalyticsService.CollectRows | analytics/analytics_service.py:125-138 | from filled buckets, the loop emits exactly the week rows |
| Analytics.AnalyticsService.BuildProfile | analytics/analytics_service.py:140-184 | name, enrolment, delivery time, streak, every counter (the lenient ones read as integers, the others copied), both percentages and four weekly rows, as the functions above state |
| Outbox.HasLiveJob | entity/repositories/outbox_repo.py:23-29 | true exactly when some pending or sent job of the user carries the key |
| Outbox.DuePending | entity/repositories/outbox_repo.py:15-21 | exactly the pending jobs whose run time has come |
| Outbox.FetchDuePending | entity/repositories/outbox_repo.py:15-21 | at most `limit` due pending jobs, earliest first, and no due job left out runs earlier than one taken |
| Outbox.EarliestTaken | entity/repositories/outbox_repo.py:18 | a prefix of the run-time order holds only due jobs and the earliest ones |
| Outbox.DuePendingNoRepeats | entity/repositories/outbox_repo.py:15-21 | no job is fetched twice |
| Outbox.FetchedIdsDistinct | entity/repositories/outbox_repo.py:15-21 | the fetched batch has distinct job ids |
| Outbox.MarkedKeepsUnique | entity/repositories/outbox_repo.py:31-33 | marking a pending job sent keeps one live job per (user, key) |
| Outbox.FailedKeepsUnique | entity/repositories/outbox_repo.py:35-40 | marking a job failed keeps one live job per (user, key) |
| Outbox.CancelIn | entity/repositories/outbox_repo.py:42-79 | exactly the pending jobs in scope at or after the given time become cancelled, the rest unchanged |
| Outbox.CancelCountIsRowcount | entity/repositories/outbox_repo.py:62 | the returned count is the number of rows the cancel changed |
| Outbox.CancelIdempotent | entity/repositories/outbox_repo.py:42-79 | cancelling twice changes nothing more and the second count is 0 |
| Outbox.CancelKeepsUnique | entity/repositories/outbox_repo.py:42-79 | cancelling keeps one live job per (user, key) |
| Outbox.InsertAbsentAppends | entity/repositories/outbox_repo.py:8-13 | the planners only append pending jobs with the next ids and never touch existing rows |
| Outbox.InsertAbsentConcat | scheduling/schedule_service.py:244-350 | planning two candidate lists in a row is planning their concatenation |
| Outbox.InsertAbsentSnoc | scheduling/schedule_service.py:267-282 | one more candidate is one more guarded insert |
| Outbox.LiveSurvivesAppend | entity/repositories/outbox_repo.py:23-29 | appending jobs never hides a live job |
| Outbox.InsertAbsentCovers | scheduling/schedule_service.py:267-350 | after planning, every candidate's key has a live job |
| Outbox.InsertAbsentIdle | scheduling/schedule_service.py:267-350 | when every key already has a live job, planning inserts nothing |
| Outbox.RerunCreatesNothing | scheduling/schedule_service.py:214-230 | a second planning run over the same candidates creates 0 jobs |
| Outbox.InsertAbsentKeepsUnique | scheduling/schedule_service.py:267-350 | planning keeps one live job per (user, key) |
| Outbox.OutboxRepo.CreateJob | entity/repositories/outbox_repo.py:8-13 | appends one pending job with the next id, no attempts and no error |
| Outbox.OutboxRepo.MarkSent | entity/repositories/outbox_repo.py:31-33 | the job with that id becomes sent; marking a pending job keeps one live job per user and key |
| Outbox.OutboxRepo.MarkFailed | entity/repositories/outbox_repo.py:35-40 | the job becomes failed with one more attempt and the error cut to 1000 characters |
| Outbox.OutboxRepo.CancelFuture | entity/repositories/outbox_repo.py:42-79 | the table becomes `CancelIn` of the old one and the count is the number of rows changed |
| HabitPlanner.DayCount | scheduling/habit_schedule_service.py:82 | `range(horizon + 1)` visits horizon + 1 days, none for a negative horizon |
| HabitPlanner.WeekdaysAndWeekendsPartition | scheduling/habit_schedule_service.py:51-57 | every day is either a weekday or a weekend day, never both |
| HabitPlanner.IsoWeekdayNext | scheduling/habit_schedule_service.py:52 | the ISO weekday is 1..7 and advances by one each day, 7 wrapping to 1 |
| HabitPlanner.WeekCounts | scheduling/habit_schedule_service.py:51-57 | any seven consecutive days hold 5 weekdays, 2 weekend days and 7 daily matches |
| HabitPlanner.RemindTime | scheduling/habit_schedule_service.py:32-41 | the habit's reminder time is always a valid wall-clock time |
| HabitPlanner.Read | scheduling/habit_schedule_service.py:85-88 | a habit read for planning keeps the habit and a valid time |
| HabitPlanner.PrepareIff | scheduling/habit_schedule_service.py:84-88 | one prepared entry per habit and no other |
| HabitPlanner.DaySlotsIff | scheduling/habit_schedule_service.py:84-94 | a day's slots are exactly those of habits that match the day and are not more than five minutes past |
| HabitPlanner.UserSlotsIff | scheduling/habit_schedule_service.py:82-94 | a user's slots are exactly the day slots of the days from today up to the horizon |
| HabitPlanner.UsersInOrderFacts | scheduling/habit_schedule_service.py:73-75 | the grouping lists every user with an active habit exactly once |
| HabitPlanner.OfUserIff | scheduling/habit_schedule_service.py:73-75 | a user's group holds exactly that user's habits |
| HabitPlanner.OfUserEmpty | scheduling/habit_schedule_service.py:73-75 | a user without habits has an empty group |
| HabitPlanner.OfUserCovers | scheduling/habit_schedule_service.py:73-77 | every habit lands in its user's group and that user is visited |
| HabitPlanner.SlotsForUserSound | scheduling/habit_schedule_service.py:77-94 | each slot of a user comes from one of that user's habits on a day it is planned |
| HabitPlanner.SlotsForUserComplete | scheduling/habit_schedule_service.py:77-94 | every planned (habit, day) of the user yields its slot |
| HabitPlanner.PlannedSlotsSound | scheduling/habit_schedule_service.py:65-94 | every slot of a run comes from an active habit on a day it is to be planned |
| HabitPlanner.PlannedSlotsComplete | scheduling/habit_schedule_service.py:65-94 | every active habit on every day it is to be planned yields its slot |
| HabitPlanner.HabitKeyInjective | scheduling/habit_schedule_service.py:102 | distinct (habit, occurrence) pairs get distinct job keys |
| HabitPlanner.HabitKeyParts | scheduling/habit_schedule_service.py:102 | the key splits on ':' into "habit", the habit id and the occurrence id |
| HabitPlanner.PlanSlotsConcat | scheduling/habit_schedule_service.py:82-117 | planning two slot lists in a row is planning their concatenation |
| HabitPlanner.InsertStepFacts | scheduling/habit_schedule_service.py:103-117 | the guarded insert keeps ids and live keys unique and leaves the key live |
| HabitPlanner.PlanSlotOccFacts | scheduling/habit_schedule_service.py:96-100 | `ensure_planned` keeps the occurrence table unique by (habit, time) and returns the id of that slot's row |
| HabitPlanner.PlanSlotKeepsValid | scheduling/habit_schedule_service.py:96-117 | one slot keeps both tables well formed, only appends, and adds at most one job |
| HabitPlanner.PlanSlotCovers | scheduling/habit_schedule_service.py:96-117 | after one slot, its occurrence exists and a live job carries its key |
| HabitPlanner.PlanSlotPoints | scheduling/habit_schedule_service.py:106-116 | a job added for a slot is a reminder for that occurrence, at its time, under its key |
| HabitPlanner.PlanSlotFacts | scheduling/habit_schedule_service.py:96-117 | the facts of one slot together, and a job it creates is that slot's reminder (user, habit, run time) |
| HabitPlanner.PlanSlotsFacts | scheduling/habit_schedule_service.py:82-117 | a run keeps the tables well formed, only appends, covers every slot, and every new job points at its occurrence and is the reminder of one of the slots |
| HabitPlanner.PlanSlotsFromSlots | scheduling/habit_schedule_service.py:82-117 | every job a run creates has the user, habit and run time of one of its slots |
| HabitPlanner.PlanSlotIdle | scheduling/habit_schedule_service.py:96-104 | a covered slot changes nothing |
| HabitPlanner.PlanSlotsIdle | scheduling/habit_schedule_service.py:96-104 | when every slot is covered, a run changes nothing |
| HabitPlanner.HabitRerunCreatesNothing | scheduling/habit_schedule_service.py:15-22 | a second run over the same slots changes nothing |
| HabitPlanner.HabitScheduleService.GroupByUser | scheduling/habit_schedule_service.py:73-75 | the loop yields the users in first-seen order and each user's habits |
| HabitPlanner.HabitScheduleService.PlanOne | scheduling/habit_schedule_service.py:96-117 | both tables change as `PlanSlot` says and the count is the number of new jobs |
| HabitPlanner.HabitScheduleService.PlanAll | scheduling/habit_schedule_service.py:82-117 | both tables change as `PlanSlots` says and the count is the number of new jobs |
| HabitPlanner.HabitScheduleService.DaySlotsLoop | scheduling/habit_schedule_service.py:84-94 | the loop collects exactly the day's slots |
| HabitPlanner.HabitScheduleService.UserSlotsLoop | scheduling/habit_schedule_service.py:80-94 | the loop collects exactly the slots of the horizon's days |
| HabitPlanner.HabitScheduleService.SlotsOfUser | scheduling/habit_schedule_service.py:77-94 | a user's slots in that user's zone |
| HabitPlanner.HabitScheduleService.SlotsOfGroups | scheduling/habit_schedule_service.py:77-94 | the slots of every group, in group order |
| HabitPlanner.HabitScheduleService.CollectSlots | scheduling/habit_schedule_service.py:65-94 | exactly `AllSlots` of the habit and user tables |
| HabitPlanner.HabitScheduleService.ScheduleDueJobs | scheduling/habit_schedule_service.py:65-121 | both tables change as planning all slots says and the count is the number of new jobs |
| HabitPlanner.ScheduleCovers | scheduling/habit_schedule_service.py:65-121 | after a run every active habit has an occurrence and a live reminder job for every day it is to be planned |
| HabitPlanner.ScheduleJobsArePlanned | scheduling/habit_schedule_service.py:65-121 | conversely, every job a run creates is the reminder of an active habit on a day it is to be planned, at that habit's slot, running no earlier than five minutes before now |
| HabitOccurrences.FindSlot | entity/repositories/habit_occurrences_repo.py:12-27 | the first row of the habit at that instant, or none when there is no such row |
| HabitOccurrences.EnsuredFacts | entity/repositories/habit_occurrences_repo.py:12-27 | `ensure_planned` keeps (habit, instant) unique, returns the id of the slot's row, inserts a planned row only when none existed and never changes an existing one |
| HabitOccurrences.SlotsKept | entity/repositories/habit_occurrences_repo.py:34-82 | updates that keep ids and slots keep the table's keys |
| HabitOccurrences.EnsurePlannedIdempotent | entity/repositories/habit_occurrences_repo.py:12-27 | a second `ensure_planned` of the same slot returns the same id and changes nothing |
| HabitOccurrences.SentIn | entity/repositories/habit_occurrences_repo.py:34-44 | only a planned row with that id becomes sent |
| HabitOccurrences.AnsweredIn | entity/repositories/habit_occurrences_repo.py:46-68 | only a planned or sent row of that id and user becomes done or skipped, with the action time |
| HabitOccurrences.CancelledIn | entity/repositories/habit_occurrences_repo.py:70-82 | exactly the planned or sent rows of the habit at or after the time become cancelled |
| HabitOccurrences.CancelLeavesNoneOpen | entity/repositories/habit_occurrences_repo.py:70-82 | afterwards no row of the habit is open at or after the time |
| HabitOccurrences.FinalIsFinal | entity/repositories/habit_occurrences_repo.py:34-82 | no operation changes a done, skipped or cancelled row |
| HabitOccurrences.AnswerOnce | entity/repositories/habit_occurrences_repo.py:46-68 | after an answer the occurrence cannot be answered again |
| HabitOccurrences.OccurrencesRepo.EnsurePlanned | entity/repositories/habit_occurrences_repo.py:12-27 | the table and id as `Ensured` says; the id names that slot's row |
| HabitOccurrences.OccurrencesRepo.MarkSent | entity/repositories/habit_occurrences_repo.py:34-44 | the table becomes `SentIn`; the count is 1 for a planned row and 0 otherwise |
| HabitOccurrences.OccurrencesRepo.Answer | entity/repositories/habit_occurrences_repo.py:46-68 | the table becomes `AnsweredIn`; true exactly when a row could be answered |
| HabitOccurrences.OccurrencesRepo.CancelFutureForHabit | entity/repositories/habit_occurrences_repo.py:70-82 | the table becomes `CancelledIn` and the count is the number of rows cancelled |
| Habits.ListedIn | core/habit_service.py:28 | the frequency test is membership in the three frequencies |
| Habits.NormalTitle | core/habit_service.py:25 | the stripped title cut to 200 characters, "Привычка" when that is empty; 1 to 200 characters long |
| Habits.NormalFrequency | core/habit_service.py:27-29 | the stripped frequency when it is daily, weekdays or weekends, otherwise daily |
| Habits.BonusPoints | core/habit_service.py:95-99 | the setting, and 3 when it is unset |
| Habits.Find | entity/repositories/habits_repo.py:31-34 | the position of the habit with that id, or none when there is none |
| Habits.Replaced | entity/repositories/habits_repo.py:36-87 | an update keeps the number of rows |
| Habits.Removed | entity/repositories/habits_repo.py:48-51 | deleting a stored habit drops one row; an unknown id changes nothing |
| Habits.DropFacts | entity/repositories/habits_repo.py:48-51 | dropping a row keeps ids increasing and removes exactly that habit |
| Habits.RemovedFacts | entity/repositories/habits_repo.py:48-51 | after a delete, exactly the other habits remain, ids still increasing |
| Habits.ActiveRows | entity/repositories/habits_repo.py:89-95 | exactly the active habits |
| Habits.ListActive | entity/repositories/habits_repo.py:89-95 | exactly the active habits, ordered by user |
| Habits.HabitsRepo.Create | entity/repositories/habits_repo.py:11-21 | appends an active habit under a fresh id |
| Habits.HabitsRepo.Replace | entity/repositories/habits_repo.py:36-87 | the table becomes `Replaced` of the old one |
| Habits.HabitsRepo.Delete | entity/repositories/habits_repo.py:48-51 | the table becomes `Removed` of the old one |
| Habits.HabitService.Create | core/habit_service.py:24-30 | appends an active habit with the normalised title, stripped time and normalised frequency |
| Habits.HabitService.Toggle | core/habit_service.py:35-41 | true exactly for the owner, and then the active flag flips; nothing changes otherwise |
| Habits.HabitService.CancelFuture | core/habit_service.py:47-55 | future occurrences and pending reminder jobs of the habit are cancelled |
| Habits.HabitService.Delete | core/habit_service.py:43-56 | true exactly for the owner; then the habit is gone and its future occurrences and jobs are cancelled, so none of its occurrences is open from now on; nothing changes otherwise (the cascade that removes the occurrence rows is left out) |
| Habits.HabitService.UpdateTitle | core/habit_service.py:58-65 | true exactly for the owner with a non-blank title, stored stripped and cut to 200; nothing changes otherwise |
| Habits.HabitService.Reschedule | core/habit_service.py:74-78 | the habit is replaced and its future occurrences and jobs are cancelled |
| Habits.HabitService.UpdateTime | core/habit_service.py:67-78 | true exactly for the owner with a non-blank time; then the time is stored and the future plan cancelled; nothing changes otherwise |
| Habits.HabitService.UpdateFrequency | core/habit_service.py:80-90 | true exactly for the owner with a known frequency; then it is stored and the future plan cancelled; nothing changes otherwise |
| Habits.HabitService.MarkDone | core/habit_service.py:101-109 | true exactly when the occurrence could be answered; then it is done and the bonus is added unless already recorded |
| Habits.HabitService.MarkSkipped | core/habit_service.py:111-112 | true exactly when the occurrence could be answered; then it is skipped |
| Habits.BonusAtMostOnce | core/habit_service.py:105-108 | the bonus ledger keeps at most one row per occurrence, and has one after a successful done |
| SentJobs.SentJobsRepo.MarkSent | entity/repositories/sent_jobs_repo.py:24-36 | the key is recorded, and the result is true exactly when it was not recorded before |
| Deliveries.DeliveriesRepo.MarkSent | entity/repositories/deliveries_repo.py:20-29 | the (user, day, item) key is recorded; recording it again changes nothing |
| Mood.ChartDays | core/mood_service.py:35 | between 1 and 60: 7 for an unset count, the count itself inside the range, 60 above it and 1 below zero |
| Mood.ScoresOf | entity/repositories/mood_repo.py:28-43 | a user's saved scores by local day, nothing else |
| Mood.Recent | entity/repositories/mood_repo.py:28-43 | `list_recent` returns only stored scores, unchanged |
| Mood.ChartOf | core/mood_service.py:39-44 | one chart row per requested day |
| Mood.ChartShowsLog | core/mood_service.py:34-44 | when no score lies in the future, each chart day shows the score saved for it, 0 when none |
| Mood.LaterDayHidesScore | core/mood_service.py:36-43 | a score dated after today takes a slot of `list_recent`, so an older day in range shows 0 |
| Mood.Scored | core/mood_service.py:27-32 | a score is saved exactly when it is 1 to 5, with the stripped comment |
| Mood.Bar | core/mood_service.py:59 | a bar of `score` blocks, "-" for no score |
| Mood.ScoreLabel | core/mood_service.py:60 | the score in digits, "нет" for no score |
| Mood.ChartLineBar | core/mood_service.py:61 | a scored line shows exactly `score` blocks followed by the score in brackets |
| Mood.ChartLines | core/mood_service.py:52-61 | a header, a blank line and one line per day |
| Mood.MoodRepo.UpsertDaily | entity/repositories/mood_repo.py:12-26 | the user's entry for that day is set, replacing any earlier one |
| Mood.MoodRepo.ListRecent | entity/repositories/mood_repo.py:28-43 | the user's newest n scores by day |
| Mood.MoodService.SetToday | core/mood_service.py:27-32 | saves the entry for the user's local today exactly when the score is valid; otherwise nothing changes |
| Mood.MoodService.ChartRows | core/mood_service.py:34-44 | the chart rows from today back over the clamped number of days |
| Mood.MoodService.BuildRows | core/mood_service.py:40-43 | the loop builds exactly the chart rows |
| Mood.MoodService.ChartText | core/mood_service.py:46-67 | the chart lines joined by newlines |
| PersonalReminders.NormalText | core/personal_reminder_service.py:41-43 | the stripped text cut to 500 characters; empty exactly when the stripped text is |
| PersonalReminders.Field | core/personal_reminder_service.py:27-29 | a `strptime` field is read only inside its range |
| PersonalReminders.ParseClock | core/personal_reminder_service.py:27-29 | an accepted `HH:MM` is a valid time |
| PersonalReminders.ParseDate | core/personal_reminder_service.py:27-29 | an accepted `DD.MM.YYYY` is a real calendar date |
| PersonalReminders.ParseLocalDateTime | core/personal_reminder_service.py:27-29 | an accepted `DD.MM.YYYY HH:MM` is a real date and a valid time |
| PersonalReminders.PaddedDigits | user/user_handlers.py:138 | zero padding to w digits reads back as the number |
| PersonalReminders.ParseClockRoundTrip | core/personal_reminder_service.py:27-29 | a formatted time parses back to itself |
| PersonalReminders.ParseDateRoundTrip | core/personal_reminder_service.py:27-29 | a formatted date parses back to itself |
| PersonalReminders.ParseOfParts | core/personal_reminder_service.py:27-29 | text whose dotted parts read as a date and a time parses to them |
| PersonalReminders.FormatParseRoundTrip | user/user_handlers.py:132-138 | every valid local date-time formatted as `%d.%m.%Y %H:%M` parses back to itself |
| PersonalReminders.DigitFields | core/personal_reminder_service.py:27-29 | the all-digit spelling of a valid date-time parses to it |
| PersonalReminders.NormalizeIdempotent | user/user_handlers.py:132-138 | normalising typed text twice gives the same text, which parses as the original did |
| PersonalReminders.StoredStartReadsBack | core/personal_reminder_service.py:45-53 | the stored UTC start, read in the user's zone, gives back the typed date and time |
| PersonalReminders.Get | entity/repositories/personal_reminders_repo.py:34-37 | the reminder with that id, or none when there is none |
| PersonalReminders.MatchingIsOwned | entity/repositories/personal_reminders_repo.py:39-69 | the `WHERE id AND user_id` row count is 1 for an owned reminder and 0 otherwise |
| PersonalReminders.WithText | entity/repositories/personal_reminders_repo.py:39-49 | only the row matching id and user gets the new text |
| PersonalReminders.WithStart | entity/repositories/personal_reminders_repo.py:51-61 | only the row matching id and user gets the new start and time |
| PersonalReminders.Without | entity/repositories/personal_reminders_repo.py:63-69 | exactly the row matching id and user is removed |
| PersonalReminders.WithoutOwned | entity/repositories/personal_reminders_repo.py:63-69 | deleting an owned reminder removes exactly that reminder |
| PersonalReminders.WithoutKeepsOrder | entity/repositories/personal_reminders_repo.py:63-69 | a delete keeps the ids increasing |
| PersonalReminders.EditKeepsOrder | entity/repositories/personal_reminders_repo.py:39-61 | an update keeps the ids increasing |
| PersonalReminders.ActiveRows | entity/repositories/personal_reminders_repo.py:71-77 | exactly the active reminders |
| PersonalReminders.ListActive | entity/repositories/personal_reminders_repo.py:71-77 | exactly the active reminders, ordered by user |
| PersonalReminders.PersonalRemindersRepo.Create | entity/repositories/personal_reminders_repo.py:8-24 | appends an active reminder under a fresh id |
| PersonalReminders.PersonalRemindersRepo.UpdateText | entity/repositories/personal_reminders_repo.py:39-49 | the table becomes `WithText`; the count is the number of matching rows |
| PersonalReminders.PersonalRemindersRepo.UpdateDatetime | entity/repositories/personal_reminders_repo.py:51-61 | the table becomes `WithStart`; the count is the number of matching rows |
| PersonalReminders.PersonalRemindersRepo.Delete | entity/repositories/personal_reminders_repo.py:63-69 | the table becomes `Without`; the count is the number of matching rows |
| PersonalReminders.PersonalReminderService.GetOwned | core/personal_reminder_service.py:59-63 | the reminder exactly when it exists and belongs to the user |
| PersonalReminders.PersonalReminderService.Create | core/personal_reminder_service.py:35-54 | a reminder is created exactly when the text is not blank and the date-time parses; it stores the normalised text, the UTC start and the `HH:MM` time |
| PersonalReminders.PersonalReminderService.UpdateText | core/personal_reminder_service.py:65-71 | true exactly for the owner with non-blank text; nothing changes otherwise |
| PersonalReminders.PersonalReminderService.CancelFutureJobs | core/personal_reminder_service.py:31-33 | the reminder's pending future jobs are cancelled |
| PersonalReminders.PersonalReminderService.UpdateDatetime | core/personal_reminder_service.py:73-88 | true exactly for the owner with a parsable date-time; then the start is stored and future jobs cancelled; nothing changes otherwise |
| PersonalReminders.PersonalReminderService.Delete | core/personal_reminder_service.py:90-94 | true exactly for the owner; then its future jobs are cancelled and exactly that reminder is removed; nothing changes otherwise |
| PersonalPlanner.AwareOf | scheduling/personal_reminder_schedule_service.py:40-49 | a reminder without a readable start is skipped; a naive start is read as UTC |
| PersonalPlanner.KeyTextParts | scheduling/personal_reminder_schedule_service.py:56 | the key splits into "personal_once", the reminder id and the parts of the start stamp |
| PersonalPlanner.KeyTextInjective | scheduling/personal_reminder_schedule_service.py:56 | equal keys mean the same reminder and the same start text |
| PersonalPlanner.OnceKeyInjective | scheduling/personal_reminder_schedule_service.py:56 | equal keys mean the same reminder and the same instant text |
| PersonalPlanner.ReminderText | scheduling/personal_reminder_schedule_service.py:65 | the reminder's text, "Напоминание" when it is empty |
| PersonalPlanner.ReminderCandidates | scheduling/personal_reminder_schedule_service.py:38-71 | at most one job per reminder, never in the past, carrying its own key |
| PersonalPlanner.DueCandidatesSound | scheduling/personal_reminder_schedule_service.py:38-71 | every planned job comes from an active reminder whose start is readable and not past |
| PersonalPlanner.DueCandidatesComplete | scheduling/personal_reminder_schedule_service.py:38-71 | every such reminder yields its job |
| PersonalPlanner.DueCandidatesFacts | scheduling/personal_reminder_schedule_service.py:51-56 | no planned job is in the past and each carries its key |
| PersonalPlanner.PersonalRerunCreatesNothing | scheduling/personal_reminder_schedule_service.py:33-75 | a second run at the same time creates nothing |
| PersonalPlanner.PayloadNamesRunMinute | scheduling/personal_reminder_schedule_service.py:60-70 | the payload names the reminder and the local minute the job runs in |
| PersonalPlanner.PlannedAsTyped | scheduling/personal_reminder_schedule_service.py:33-75 | a reminder saved from typed text is planned exactly when that local time is not past, at that time, with that local date and time |
| PersonalPlanner.PersonalReminderScheduleService.PlanReminder | scheduling/personal_reminder_schedule_service.py:39-71 | the outbox gets the reminder's guarded insert; the count is the number of new jobs |
| PersonalPlanner.PersonalReminderScheduleService.ScheduleDueJobs | scheduling/personal_reminder_schedule_service.py:33-75 | the outbox becomes the guarded insert of all due candidates; the count is the number of new jobs |
| Questionnaires.ListByDay | entity/repositories/questionnaire_repo.py:69-96 | exactly the questionnaires of that day and type, plus the day-less daily ones when "daily" is asked for, in id order |
| Questionnaires.Get | entity/repositories/questionnaire_repo.py:51-54 | the questionnaire with that id, or none when there is none |
| Questionnaires.UpdatedIn | entity/repositories/questionnaire_repo.py:27-44 | only the row with that id changes, keeping its author |
| Questionnaires.WithoutQuestionnaire | entity/repositories/questionnaire_repo.py:46-49 | exactly the questionnaire with that id is removed |
| Questionnaires.WithoutResponses | entity/repositories/questionnaire_repo.py:46-49 | the deleted questionnaire's responses go with it |
| Questionnaires.UpdateWithoutDayUnbinds | entity/repositories/questionnaire_repo.py:27-44 | an update that clears the day removes a non-daily questionnaire from every day's list |
| Questionnaires.DefaultListIsManualOfDay | entity/repositories/questionnaire_repo.py:69 | by default only the manual questionnaires of that day are listed |
| Questionnaires.QuestionnaireRepo.Create | entity/repositories/questionnaire_repo.py:7-25 | appends the questionnaire under a fresh id |
| Questionnaires.QuestionnaireRepo.Update | entity/repositories/questionnaire_repo.py:27-44 | the table becomes `UpdatedIn` of the old one |
| Questionnaires.QuestionnaireRepo.Delete | entity/repositories/questionnaire_repo.py:46-49 | true exactly when the questionnaire existed; it and its responses are gone |
| Questionnaires.QuestionnaireRepo.AddResponse | entity/repositories/questionnaire_responses_repo.py:7-12 | the response is stored exactly when its questionnaire exists (the foreign key) |
| QuestionnaireFlow.ScoreKey | questionnaires/questionnaire_service.py:54 | the ledger key is "q:" followed by the questionnaire id |
| QuestionnaireFlow.ListForDay | questionnaires/questionnaire_service.py:33-34 | the day's list, manual questionnaires only by default |
| QuestionnaireFlow.QuestionnaireService.StartCommentFlow | questionnaires/questionnaire_service.py:53-55 | awards the points and sets the wait-for-comment step with the questionnaire and score |
| QuestionnaireFlow.QuestionnaireService.SubmitScoreOnly | questionnaires/questionnaire_service.py:57-59 | awards the points and stores the response without a comment when the questionnaire exists |
| QuestionnaireFlow.QuestionnaireService.SaveComment | questionnaires/questionnaire_service.py:61-63 | stores the response with the comment when the questionnaire exists and only then clears the step; a refused insert leaves the step as it was |
| Schedule.DeliveryTime | scheduling/schedule_service.py:76 | the enrolment's delivery time, read with the 21:00 default, is always a valid time |
| Schedule.QuestionnairePartFacts | scheduling/schedule_service.py:306-324 | each day-questionnaire job carries its key, belongs to the user, runs at the delivery time and is not yet in the ledger |
| Schedule.QuestionnairePartExact | scheduling/schedule_service.py:306-313 | a day questionnaire is offered exactly when its ledger entry for that date is missing |
| Schedule.DayCandidatesGuarded | scheduling/schedule_service.py:261-350 | every job offered for a day passes the ledger guard of its content type |
| Schedule.ReminderNeedsContent | scheduling/schedule_service.py:254-255 | a day without lesson, quest or questionnaire gets nothing; the reminder is offered exactly when there is content and no ledger entry |
| Schedule.GraceWindow | scheduling/schedule_service.py:257-259 | today's lesson, quest and questionnaires are offered only up to the grace minutes past the delivery time; tomorrow is always offered |
| Schedule.OnlyReminderWhenLate | scheduling/schedule_service.py:326-350 | past the grace window only the daily reminder is offered |
| Schedule.LessonOffered | scheduling/schedule_service.py:262-266 | within the window, a lesson not in the ledger is offered under its versioned key |
| Schedule.UserCandidatesWellKeyed | scheduling/schedule_service.py:232-352 | each job offered for a user carries its key and belongs to that user |
| Schedule.PlansWellKeyed | scheduling/schedule_service.py:244 | the today and tomorrow plans together offer only well-keyed jobs of the user |
| Schedule.DueCandidatesWellKeyed | scheduling/schedule_service.py:214-230 | every job of a full run carries its key |
| Schedule.ScheduleRerunCreatesNothing | scheduling/schedule_service.py:232-352 | planning a user a second time creates 0 jobs |
| Schedule.BroadcastRunTime | scheduling/schedule_service.py:432-442 | a broadcast runs at the user's local HH:MM today, or 5 seconds from now when that has passed, under the per-date `qcast` key |
| Schedule.ScheduleService.OfferAll | scheduling/schedule_service.py:267-350 | the outbox gets the guarded insert of the candidates; the count is the number of new jobs |
| Schedule.ScheduleService.ScheduleForUser | scheduling/schedule_service.py:232-352 | the outbox gets the guarded insert of the user's candidates; the count is what they create |
| Schedule.ScheduleService.PlanUser | scheduling/schedule_service.py:232-352 | the same, over a snapshot of the tables read |
| Schedule.ScheduleService.ScheduleDueJobs | scheduling/schedule_service.py:214-230 | the outbox gets the guarded insert of every active enrolment's candidates |
| Schedule.ScheduleService.PlanAll | scheduling/schedule_service.py:226-228 | the loop performs the guarded insert of all users' candidates, in enrolment order |
| Schedule.ScheduleService.EnqueueDayNow | scheduling/schedule_service.py:354-422 | the outbox gets the guarded insert of the day's content due now, without the ledger check, and keeps one live job per user and key |
| Schedule.ScheduleService.ScheduleQuestionnaireBroadcast | scheduling/schedule_service.py:424-453 | a result exactly when the HH:MM reads as two integers and, once a user is listed, is a valid time; no result changes nothing; otherwise every listed user gets the broadcast's guarded insert, keeping one live job per user and key |
| Schedule.ScheduleService.RescheduleUser | scheduling/schedule_service.py:123-141 | the user's pending future day jobs and day questionnaires are cancelled, then the user is planned again |
| ScheduleRules.PartId | scheduling/schedule_service.py:47-48 | a lesson or quest id takes part in the key when present and non-zero, and is 0 otherwise |
| ScheduleRules.JobKeyParts | scheduling/schedule_service.py:44-49 | a day job key splits at `:` into exactly its seven fields |
| ScheduleRules.JobKeyRoundTrip | scheduling/schedule_service.py:44-49 | parsing a day job key gives back the day, lesson id, quest id and content version it was built from |
| ScheduleRules.JobKeyInjective | scheduling/schedule_service.py:44-49 | two equal day job keys have the same day, ids and version, so distinct deliveries never share a key |
| ScheduleRules.ParseHhmm | scheduling/schedule_service.py:59-68 | the result is always a valid time; blank text and text without exactly two `:` fields give the default |
| ScheduleRules.ParseHhmmFields | scheduling/schedule_service.py:62-65 | two integer fields around one `:` give the hour clamped to 0..23 and the minute clamped to 0..59 |
| ScheduleRules.ParseHhmmClamps | scheduling/schedule_service.py:62-65 | any two integers written as `h:m` parse to the clamped time |
| ScheduleRules.ParseHhmmText | scheduling/schedule_service.py:59-68 | a valid time written as HH:MM parses back to itself |
| ScheduleRules.DayIndexFor | scheduling/schedule_service.py:82-91 | the day index is at least 1, and 1 without an enrolment |
| ScheduleRules.CurrentDayIndex | scheduling/schedule_service.py:188-198 | the current day index is at least 1 |
| ScheduleRules.CurrentDayIndexIsToday | scheduling/schedule_service.py:188-198 | the current day index is the day index of today's local date |
| ScheduleRules.DayIndexMonotone | scheduling/schedule_service.py:82-91 | a later local date never has a smaller day index |
| ScheduleRules.DayIndexCounts | scheduling/schedule_service.py:89-91 | from the local enrolment date on, the index counts days from 1 and grows by one per day |
| ScheduleRules.QuietTimeIsCyclicWindow | scheduling/schedule_service.py:143-149 | a time is quiet exactly when it lies in the window from the start running forward, across midnight if need be, to the end |
| ScheduleRules.QuietAllDayWhenEqual | scheduling/schedule_service.py:147-149 | equal start and end make the whole day quiet |
| ScheduleRules.ReminderRunBounds | scheduling/schedule_service.py:151-164 | the reminder runs the configured hours after delivery unless that is quiet; then it moves forward, by at most a day, to the fallback local time |
| ScheduleRules.ParseViewedPayload | scheduling/schedule_service.py:203-212 | data without the `lesson:viewed:` prefix gives nothing; a result needs at least four fields |
| ScheduleRules.ViewedParts | scheduling/schedule_service.py:200-201 | a viewed callback starts with the prefix and splits into its four fields |
| ScheduleRules.ViewedRoundTrip | scheduling/schedule_service.py:200-212 | parsing a viewed callback gives back the day index and points it was made from |
| ScheduleRules.ViewedTooFewFields | scheduling/schedule_service.py:206-212 | data with fewer than four fields gives nothing |
| Support.MaxNumber | entity/repositories/support_tickets_repo.py:14-23 | the user's highest ticket number bounds all their numbers and is attained when positive |
| Support.MaxIsCount | entity/repositories/support_tickets_repo.py:14-23 | in a table numbered per user, the user's highest number equals their ticket count |
| Support.CreateKeepsNumbering | entity/repositories/support_tickets_repo.py:10-32 | a new ticket gets the next number of its user, and the table stays numbered 1, 2, 3 … per user |
| Support.NumbersDistinct | entity/repositories/support_tickets_repo.py:12-23 | two tickets of one user never share a number, and later tickets have higher numbers |
| Support.Closing | entity/repositories/support_tickets_repo.py:65-98 | a closed ticket is the one asked for |
| Support.CloseFacts | entity/repositories/support_tickets_repo.py:65-98 | closing succeeds exactly on an existing open ticket; it sets status, admin and reply, keeps question and number, changes no other ticket, and a second close gives nothing |
| Support.SafeLimit | entity/repositories/support_tickets_repo.py:40 | the limit is at least 1: a positive limit is kept, 0 means 20 and a negative limit means 1 |
| Support.Newest | entity/repositories/support_tickets_repo.py:39-63 | the listing has at most `limit` tickets, each from the table and of the asked status |
| Support.NewestFromTable | entity/repositories/support_tickets_repo.py:39-63 | each listed ticket is the table's row for its id |
| Support.NewestLength | entity/repositories/support_tickets_repo.py:39-63 | the listing has `min(limit, matching tickets)` rows |
| Support.NewestDescending | entity/repositories/support_tickets_repo.py:48 | the listing runs newest first |
| Support.NewestComplete | entity/repositories/support_tickets_repo.py:39-63 | a matching ticket newer than the last one listed, or any matching ticket when the listing is short, is listed |
| Support.SupportTicketsRepo.constructor | entity/repositories/support_tickets_repo.py:7-8 | the table starts empty |
| Support.SupportTicketsRepo.Create | entity/repositories/support_tickets_repo.py:10-32 | appends the open ticket with the user's next number and returns it |
| Support.SupportTicketsRepo.Get | entity/repositories/support_tickets_repo.py:34-37 | returns the ticket with the id exactly when there is one |
| Support.SupportTicketsRepo.List | entity/repositories/support_tickets_repo.py:39-63 | returns the newest tickets of the status, up to the safe limit |
| Support.SupportTicketsRepo.Close | entity/repositories/support_tickets_repo.py:65-98 | closes the ticket when open and returns it; otherwise returns nothing and changes nothing |
| Support.CleanText | core/support_service.py:12-15 | blank text is refused; other text is stripped and cut to 2000 characters |
| Support.SupportService.constructor | core/support_service.py:7-9 | the service works on its repository |
| Support.SupportService.CreateTicket | core/support_service.py:11-16 | blank questions create nothing; others create a ticket with the cleaned text |
| Support.SupportService.ListOpen | core/support_service.py:18-19 | lists the newest open tickets |
| Support.SupportService.ListAll | core/support_service.py:21-22 | lists the newest tickets of any status |
| Support.SupportService.ReplyAndClose | core/support_service.py:27-32 | a blank reply changes nothing; otherwise the open ticket is closed with the cleaned reply |
| Support.SupportService.CloseTicket | core/support_service.py:34-35 | the open ticket is closed without a reply; other tickets are left alone |
| Points.HasEntry | entity/repositories/points_repo.py:19-25 | true exactly when some award of the user has that source type and key |
| Points.CountEntries | entity/repositories/points_repo.py:19-25 | a user holds no award under a source type and key exactly when `has_entry` is false |
| Points.AddedEntryCounts | entity/repositories/points_repo.py:7-17 | after an award, `has_entry` holds for it, the user's total grows by its points, other users' totals stay, and the count under its key grows by one |
| Points.PointsRepo.constructor | entity/repositories/points_repo.py:4-5 | the ledger starts empty |
| Points.PointsRepo.AddPoints | entity/repositories/points_repo.py:7-12 | appends exactly one award |
| Answers.AnswersRepo.constructor | entity/repositories/answers_repo.py:4-5 | the table starts empty |
| Answers.AnswersRepo.Save | entity/repositories/answers_repo.py:7-20 | appends the answer, after which `exists_for_day` holds for that user and day |
| UserState.StateRepo.constructor | entity/repositories/state_repo.py:5-6 | no user has a state |
| UserState.StateRepo.SetState | entity/repositories/state_repo.py:8-20 | the user's step and payload are replaced; other users keep theirs |
| UserState.StateRepo.ClearState | entity/repositories/state_repo.py:22-24 | only the user's state is removed |
| Progress.WithSent | entity/repositories/progress_repo.py:7-12 | `mark_sent` adds a sent row for a new day and leaves an existing row, whatever its status, untouched |
| Progress.WithViewed | entity/repositories/progress_repo.py:14-20 | `mark_viewed` makes the day viewed, even one already done, and touches no other day |
| Progress.WithDone | entity/repositories/progress_repo.py:22-28 | `mark_done` makes the day done with its time and touches no other day |
| Progress.DoneCountsOnce | entity/repositories/progress_repo.py:22-33 | completing a day raises that user's `count_done` by one unless the day was already done; other users' counts do not move |
| Progress.ViewedUndoesDone | entity/repositories/progress_repo.py:14-33 | viewing a done day lowers the done count by one |
| Progress.ProgressRepo.constructor | entity/repositories/progress_repo.py:4-5 | no progress rows |
| Progress.ProgressRepo.MarkSent | entity/repositories/progress_repo.py:7-12 | the table becomes `WithSent` of the old one |
| Progress.ProgressRepo.MarkViewed | entity/repositories/progress_repo.py:14-20 | the table becomes `WithViewed` of the old one |
| Progress.ProgressRepo.MarkDone | entity/repositories/progress_repo.py:22-28 | the table becomes `WithDone` of the old one |
| Enrollment.Find | entity/repositories/enrollment_repo.py:20-23 | the index found holds the user's row; no index means no row |
| Enrollment.Get | entity/repositories/enrollment_repo.py:20-23 | returns the user's row only when active; nothing means no active row |
| Enrollment.ListActive | entity/repositories/enrollment_repo.py:25-28 | lists exactly the active rows |
| Enrollment.UpsertedFacts | entity/repositories/enrollment_repo.py:7-18 | after an upsert the user has one active row with the new delivery time and the original enrolment instant; other users are unaffected |
| Enrollment.EnrollmentRepo.constructor | entity/repositories/enrollment_repo.py:4-5 | no enrolments |
| Enrollment.EnrollmentRepo.Upsert | entity/repositories/enrollment_repo.py:7-18 | the table becomes the upserted one and keeps one row per user |
| Users.Find | entity/repositories/users_repo.py:23-26 | the index found holds the user's row; no index means no row |
| Users.Coalesce | entity/repositories/users_repo.py:17-18 | SQL `COALESCE`: the first value when present, else the second |
| Users.Merged | entity/repositories/users_repo.py:13-18 | on conflict the username is overwritten, a stored display name is kept, and the timezone changes only to a given one; consent and creation time stay |
| Users.GetTimezone | entity/repositories/users_repo.py:28-35 | an unknown user has no timezone |
| Users.ZoneFor | scheduling/schedule_service.py:51-56 | a known zone name gives its zone; a missing or unknown name gives the default zone |
| Users.NewestUsers | entity/repositories/users_repo.py:58-61 | at most `limit` users, all from the table, newest first |
| Users.ListUserIds | entity/repositories/users_repo.py:58-61 | the ids of the newest users, in that order, `min(limit, users)` of them |
| Users.UsersRepo.constructor | entity/repositories/users_repo.py:4-5 | no users |
| Users.UsersRepo.UpsertUser | entity/repositories/users_repo.py:7-21 | a new id appends a row without consent; a known id has its row merged; ids stay unique |
| Users.UsersRepo.SetPdConsent | entity/repositories/users_repo.py:45-56 | consent sets the flag and its time, withdrawal clears both; an unknown id changes nothing |
| UserHelpers.Pad2 | user/user_handlers.py:118 | `f"{n:02d}"` for n below 100 is two digits that read back as n |
| UserHelpers.TwoDigitsPad | user/user_handlers.py:111-118 | re-padding two parsed digits gives the same two digits |
| UserHelpers.ParseHhmmMeaning | user/user_handlers.py:104-118 | a time is accepted exactly when the stripped text is two digits, `:`, two digits with hour at most 23 and minute at most 59; the accepted text comes back unchanged |
| UserHelpers.ParseHhmmRoundTrip | user/user_handlers.py:104-118 | every valid HH:MM text is accepted as itself |
| UserHelpers.ExtractNumericId | user/user_handlers.py:120-130 | an id is read exactly when the stripped text, less one leading `#`, is digits of positive value; the id is positive |
| UserHelpers.NumericIdOf | user/user_handlers.py:120-130 | digits of positive value, with or without `#`, give their value |
| UserHelpers.NumericIdRoundTrip | user/user_handlers.py:120-130 | a positive number written with or without `#` reads back as itself |
| UserHelpers.ParseStartPayload | user/user_handlers.py:271-276 | a start payload is understood exactly when it is `gol_` or `goq_` followed by digits |
| UserHelpers.PayloadOf | user/user_handlers.py:272-276 | `gol_<n>` opens lesson day n and `goq_<n>` quest day n |
| UserHelpers.StartPayloadRoundTrip | user/user_handlers.py:271-276 | a payload built for a day opens that day |
| UserHelpers.ReminderLinkOpensDay | scheduling/worker.py:218-228 | the daily reminder's button link is a bot start link whose payload opens the first missed lesson or quest day |
| UserHelpers.OnStepText | user/user_handlers.py:675-769 | text passes through only for the same foreign step, clears the step or goes back otherwise, and is handled only for the user's own steps |
| UserHelpers.ForeignStepPassThrough | user/user_handlers.py:737-745 | while another feature waits for text, plain text passes through to it and a menu button cancels that feature's step |
| UserHelpers.BackFromStep | user/user_handlers.py:752-769 | Back clears the step and returns to the habits menu from a habit step, the reminders menu from a reminder step, and the main menu otherwise |
| Worker.FirstPendingLeast | scheduling/worker.py:35-46 | the first missed lesson or quest day is the smallest day from 1 to the current day that is unfinished, and there is none exactly when every such day is finished |
| Worker.DayItemsMembers | scheduling/worker.py:36-53 | a day contributes exactly its unfinished lesson, quest and questionnaire lines |
| Worker.BacklogItems | scheduling/worker.py:28-55 | the backlog lists exactly the unfinished items of days 1 to the current day |
| Worker.DayItemsOrdered | scheduling/worker.py:36-53 | within a day the lesson line comes before the quest line, and the quest line before the questionnaire line |
| Worker.BacklogOrdered | scheduling/worker.py:35-53 | the backlog runs day by day, in lesson, quest, questionnaire order |
| Worker.BacklogEmptyIff | scheduling/worker.py:28-55 | the backlog is empty exactly when nothing up to the current day is unfinished, and then there is no first missed day |
| Worker.BacklogStep | scheduling/worker.py:35-53 | one loop pass appends that day's unfinished items and sets a first missed day only if none was set yet |
| Worker.ScanBeforeDayOne | scheduling/worker.py:35 | a day index below 1 scans no days |
| Worker.QuestionnaireDue | scheduling/worker.py:48-53 | a day's questionnaire line is due exactly when one of its manual or daily questionnaires has no response |
| Worker.DayDue | scheduling/worker.py:36-53 | the three checks of one day agree with the unfinished predicate |
| Worker.CollectPendingBacklog | scheduling/worker.py:28-55 | the loop returns the backlog and the first missed lesson and quest days |
| Worker.ForDateOr | scheduling/worker.py:152-156 | the payload's date when present, else today's date in the user's zone |
| Worker.DeepLink | scheduling/worker.py:21-25 | a link exists exactly when the bot has a username, and is its `t.me` start link |
| Worker.PersonalText | scheduling/worker.py:286-291 | the reminder text is the stripped payload text, or the default text when blank |
| Worker.HandlingsOf | scheduling/worker.py:77-296 | each fetched job gets its own decision, in order |
| Worker.PerformedOwnRow | scheduling/worker.py:293-296 | handling a job changes no other outbox row |
| Worker.RunJobSettles | scheduling/worker.py:77-296 | after one job its row is failed when handling raised and sent otherwise, and nothing else in the row or the outbox changes |
| Worker.RunBatchSettles | scheduling/worker.py:78-296 | after a batch every fetched job is settled as sent or failed and rows outside the batch are untouched |
| Worker.SilentJobs | scheduling/worker.py:195-197 | jobs of unknown kind, reminders without a day, habit reminders without an occurrence and broadcasts of a missing questionnaire are only marked sent |
| Worker.SendFailureWritesNothing | scheduling/worker.py:295-296 | when sending raises, the job is failed with the error text and no ledger, delivery, progress or state row is written |
| Worker.HabitOccurrenceFirst | scheduling/worker.py:259-284 | a habit reminder marks its occurrence sent unless that fails, and the job still settles by the send alone |
| Worker.LessonDelivery | scheduling/worker.py:135-160 | a lesson job without a day fails; a missing lesson is silent; otherwise the message carries the viewed callback and the ledger and delivery rows are written |
| Worker.QuestDelivery | scheduling/worker.py:162-189 | a quest job without a day fails; a missing quest is silent; otherwise the quest is sent, marked sent in progress, remembered as the last quest and written to the ledger and deliveries |
| Worker.BroadcastLedger | scheduling/worker.py:238-257 | a broadcast writes the ledger exactly when it is not optional and has a day and a date, under the questionnaire's content type |
| Worker.ReminderLedger | scheduling/worker.py:191-236 | a reminder is sent exactly when something is unfinished, and the ledger is written whenever a date is given |
| Worker.FirstLinkLeast | scheduling/worker.py:220-228 | the reminder button opens the first missed day, and there is no button without a bot username or a missed day |
| Worker.ReminderMessage | scheduling/worker.py:199-231 | the reminder lists exactly the unfinished items, in order, with links to the first missed lesson and quest |
| Worker.BatchStartsPending | scheduling/worker.py:78 | the fetched batch consists of pending jobs of the outbox |
| Worker.NextPending | scheduling/worker.py:79-296 | handling one job of the batch leaves the later ones pending |
| Worker.OutboxWorker.constructor | scheduling/worker.py:70-76 | the worker holds the services' repositories and has sent nothing |
| Worker.OutboxWorker.Decide | scheduling/worker.py:80-293 | the decision for a job is its specified handling |
| Worker.OutboxWorker.MarkOccurrence | scheduling/worker.py:266-271 | the occurrence is marked sent as specified; a failure there is swallowed |
| Worker.OutboxWorker.WriteAfter | scheduling/worker.py:109-187 | writes exactly the ledger, delivery, progress and state rows the handling names |
| Worker.OutboxWorker.Perform | scheduling/worker.py:79-296 | one job's handling changes the tables as specified |
| Worker.OutboxWorker.RunAll | scheduling/worker.py:79-296 | the batch loop has the effect of running the jobs one after another |
| Worker.OutboxWorker.ProcessOutbox | scheduling/worker.py:70-296 | the outbox pass runs the first 50 due pending jobs in order |
| Worker.PlanAll | scheduling/worker.py:58-66 | planning runs the day, habit and personal planners in that order over the shared outbox |
| Worker.Tick | scheduling/worker.py:58-67 | a tick plans and then processes the due jobs of the planned outbox |
| Content.RowVersionTs | scheduling/schedule_service.py:166-179 | the content version is the update time, else the creation time, else 0 |
| Content.ContentRepo.constructor | entity/repositories/lesson_repo.py:4-5 | no lessons and no quests |
| Learning.DayKeyText | learning/learning_service.py:18 | the quest award's source key is `day:` followed by the day number |
| Learning.SubmitTwiceAwardsTwice | learning/learning_service.py:16-20 | submitting a day's answer twice leaves two quest awards for that day and adds both amounts to the total |
| Learning.LearningService.constructor | learning/learning_service.py:7-11 | the service works on the state, progress, points and answers tables |
| Learning.LearningService.MarkViewedToday | learning/learning_service.py:13-14 | the day's progress row becomes viewed |
| Learning.LearningService.SubmitAnswer | learning/learning_service.py:16-23 | the answer is stored, the quest award is added, the day is done and the user's step is cleared; afterwards `has_quest_answer` holds |
| DailyPack.ActiveIsUnique | entity/repositories/daily_pack_repo.py:67-79 | there is at most one active set per date |
| DailyPack.OnlyReadyIsActive | entity/repositories/daily_pack_repo.py:67-79 | when one set of the date is ready, it is the active set |
| DailyPack.WithStatus | entity/repositories/daily_pack_repo.py:18-37 | `mark_ready` and `mark_failed` change only that set's status |
| DailyPack.SupersedeOthers | entity/repositories/daily_pack_repo.py:39-48 | only ready sets of the date other than the kept one become superseded; afterwards no other ready set of the date remains |
| DailyPack.ReadyThenSupersede | core/daily_pack_service.py:91-92 | marking a set ready and superseding the others leaves it the only ready set of its date |
| DailyPack.FindItem | entity/repositories/daily_pack_repo.py:50-65 | the index found holds the item of that set and kind; none means there is no such item |
| DailyPack.LatestLessonTopic | core/daily_pack_service.py:38-47 | without a lesson the topic is the course name; otherwise the stripped title, or the day-topic text when it is empty |
| DailyPack.ShortDescription | core/daily_pack_service.py:59-62 | a stripped description over 800 characters is cut to its first 800 plus `…`; shorter ones are kept |
| DailyPack.ContextParts | core/daily_pack_service.py:54 | the context always opens with the course line |
| DailyPack.ContextBlockLines | core/daily_pack_service.py:49-64 | the context block splits back into its lines when title and description have no line breaks |
| DailyPack.NoBreakInDescription | core/daily_pack_service.py:59-62 | shortening adds no line break |
| DailyPack.DailyPackRepo.constructor | entity/repositories/daily_pack_repo.py:15-16 | no sets and no items |
| DailyPack.DailyPackRepo.CreateSet | entity/repositories/daily_pack_repo.py:18-28 | appends one pending set and returns its id |
| DailyPack.DailyPackRepo.MarkReady | entity/repositories/daily_pack_repo.py:30-32 | sets that set's status to ready |
| DailyPack.DailyPackRepo.MarkFailed | entity/repositories/daily_pack_repo.py:34-37 | sets that set's status to failed |
| DailyPack.DailyPackRepo.SupersedeOtherReady | entity/repositories/daily_pack_repo.py:39-48 | supersedes the other ready sets of the date |
| DailyPack.DailyPackRepo.HasAnySetForDate | entity/repositories/daily_pack_repo.py:86-89 | true for a set of the date in any status |
| DailyPack.DailyPackRepo.GetActiveSet | entity/repositories/daily_pack_repo.py:67-79 | nothing exactly when no set of the date is ready; otherwise the active set |
| DailyPack.DailyPackRepo.GetItemsForSet | entity/repositories/daily_pack_repo.py:81-84 | exactly the items of the set |
| DailyPack.DailyPackRepo.UpsertItem | entity/repositories/daily_pack_repo.py:50-65 | a new (set, kind) appends an item; an existing one is overwritten in place, so each set has one item per kind; an unknown set is refused by the foreign key and nothing changes |
| DailyPack.PhotoMerged | entity/repositories/daily_pack_repo.py:99-115 | the evidently intended update: only the photo id key of that item's payload is added or replaced; its other keys and all other items stay |
| DailyPack.PhotoUpdateAsWritten | entity/repositories/daily_pack_repo.py:102-104 | as written, no item ever changes, and the call raises exactly when the item exists |
| DailyPack.PhotoLostAsWritten | entity/repositories/daily_pack_repo.py:102-115 | for an existing item without that photo id, the as-written call raises and its table differs from the intended merge, which holds the photo id |
| DailyPack.DailyPackRepo.SetItemPhotoFileId | entity/repositories/daily_pack_repo.py:99-115 | the items become the intended merge; the sets stay |
| DailyPack.DailyPackRepo.SetItemPhotoFileIdAsWritten | entity/repositories/daily_pack_repo.py:99-115 | the items and sets stay as they were; the result is the KeyError of an existing item |
| DailyPack.DailyPackService.constructor | core/daily_pack_service.py:25-29 | the service works on its repository |
| DailyPack.DailyPackService.GenerateSetForToday | core/daily_pack_service.py:66-96 | without force an existing set of today skips and changes nothing; otherwise a set is created and gets the items written before the step that raises, exactly the five kinds when none raises; then it is marked failed, or made today's only ready set |
| DailyPack.DailyPackService.RunSet | core/daily_pack_service.py:81-96 | the new set gets the generated items up to the step that raises, one per kind written, and no other; then it is failed, or today's only ready set |
| DailyPack.DailyPackService.GenerateItems | core/daily_pack_service.py:116-247 | the rows are inserted in order into the set, with the next ids, and the rest of the table stays |
| DailyPack.GeneratedItems | core/daily_pack_service.py:116-247 | quote, tip, image, film and book in that order, each with its text and the date in its payload; only the image's payload has the picture's path, or null when none was saved |
| DailyPack.Written | core/daily_pack_service.py:88-96 | all five items when nothing raises; otherwise the items before the step that raises |
| DailyPack.Appended | entity/repositories/daily_pack_repo.py:50-65 | the old rows stay and each new row takes the next id with its kind, text and payload and no title |
| DailyPack.AppendedFind | entity/repositories/daily_pack_repo.py:50-65 | in a set that had no items, an item of a kind is found exactly when one of the appended rows has that kind |
| DailyPack.AppendedKinds | entity/repositories/daily_pack_repo.py:50-65 | the same statement for every kind at once |
| DailyPack.GeneratedPrefix | core/daily_pack_service.py:133-247 | the first items generated have the first kinds of the list, all different |
| DailyPack.DailyPackService.GetTodayPack | core/daily_pack_service.py:98-105 | nothing exactly when today has no ready set; otherwise the active set with its items |

## Left out

- Telegram I/O: message, photo and keyboard rendering, handler routing and `ApplicationHandlerStop` are not modelled. The worker's send is a parameter: a map from job id to the error text when sending raises.
- Message texts: the wording of messages and exception texts is not modelled. Where a contract states a message, it states its structured parts (items, links, callbacks).
- The legacy `day_content` branch of the worker (scheduling/worker.py:89-132) is not modelled. It is a combined copy of the lesson and quest branches.
- `_send_quest_message`, which a worker test imports, is not part of this model. The shown worker does not define it.
- The worker takes one instant as "now" for the whole pass, where the source reads the clock again in each branch.
- Optional services: the worker's habit service, and the habit and personal planners in `tick`, are modelled as present.
- Payloads: JSON decoding is not modelled. A job carries its payload already decoded, and `Malformed` stands for a payload of a known kind whose fields the worker cannot read.
- Timestamps in payloads: `datetime.fromisoformat` is not modelled. Dates are carried as day numbers.
- The fallback of `_row_version_ts` for a string timestamp is not modelled. `Content.RowVersionTs` takes the instants as already parsed.
- Time zones are fixed UTC offsets looked up by name. Daylight saving and `ZoneInfo` rules are not modelled, and times carry no microseconds.
- `strftime` is modelled only for the zero-padded fields the keys use.
- `int()` is modelled for ASCII digits with optional sign and surrounding whitespace. Underscores and non-ASCII digits are not modelled.
- `str.isdigit` and the regex `\d` are modelled for ASCII digits. `str.lower` is modelled for ASCII and basic Cyrillic letters only.
- Floating point: `_pct` is modelled on exact rationals with its zero-denominator guard. The one-decimal rounding is modelled on exact arithmetic, with closeness to the exact value proved. The average score, the average points and the mood average line are not modelled.
- The summary, funnel, questionnaire and reminder reports of the admin analytics are not modelled. Only `delivery_report` and `content_report` are. The `progress_report` text is not modelled.
- AdminAnalytics: the per-kind line index lemma and a full sample of a content line are not proved, because their proofs are too costly. The sample day statistics and percentages are proved instead.
- AdminHelpers.ParseChoice: the round trip from every metric key back to itself is not proved, because the proof is too costly. The round trip of the operator symbols is proved.
- Database: SQL statements are modelled as scans over sequences, sets and maps. Four foreign keys are modelled: an admin must be a registered user (`Admins.Added` refuses an unknown one), a response needs an existing questionnaire (`QuestionnaireRepo.AddResponse`), an item needs an existing daily set (`DailyPack.ItemsInSets`, kept by `DailyPackRepo.UpsertItem`), and deleting a questionnaire deletes its responses (`WithoutResponses`). The other foreign keys and their cascades are not modelled, in particular the cascade from habits to their occurrences (see the `Habits.HabitService.Delete` line). Locks and concurrent writers are not modelled: the model assumes one sequential planner and one worker. In particular the `FOR UPDATE` user lock of ticket numbering is not modelled.
- Habits.HabitService.Delete: the `ON DELETE CASCADE` of `habit_occurrences.habit_id` (entity/db.py:175 and 209) is not modelled. The database removes every occurrence row of the deleted habit; the model keeps them, with the open ones from now on cancelled, and proves only that none of them is left open from now on. Occurrence ids are modelled as row positions, which removing rows would break.
- Support: tickets are ordered by `created_at` through their ids, which grow with creation time.
- `SupportService.get` delegates to the repository. It is covered by `Support.SupportTicketsRepo.Get`.
- `get_items_for_set` sorts by kind. `DailyPack.DailyPackRepo.GetItemsForSet` states the set of items, not their order.
- Daily-pack generation: the AI text and image calls, their fixed fallback texts, the label clean-up of the image text and the disk write of the picture are not modelled. The five stored texts are the parameter `texts`, whether a picture was saved is `imagesDir`, and the step of the try block that raises is `failAt`. The re-raise after `mark_failed` is the result `Raised`.
- The awarded-at timestamp of achievements is not modelled. `list_for_user` and the achievements list of the profile are not modelled.
- `list_admins` and `list_questionnaires` are listings for display and are not modelled.
- The admin service's refusal reasons are modelled as result values. Their message texts are not.
- Mood.ChartOf: the chart agrees with the log only when no score is dated after today. `Mood.LaterDayHidesScore` exhibits the case where a score dated after today takes a slot of `list_recent`.
- User handlers: only the pure helpers and the step pass-through rule are modelled. `UserHelpers.OnStepText` ends in `HandleStep` for the user's own steps; what each step then does is not modelled. The consent and start flows are not modelled. The deep link's check of the enrolment and the presence of arguments is not modelled: `UserHelpers.ParseStartPayload` models the match on the payload.
- The user handlers outside their helpers, the learning and questionnaire handlers, the keyboards and texts, the event bus, the AI feedback service, settings parsing and the database session are not part of this model.

## Findings

| source | as written | input that shows it | evidently intended | confidence | as-written member | corrected member |
|---|---|---|---|---|---|---|
| entity/repositories/daily_pack_repo.py:104 | `row[0]` reads a row that the `dict_row` cursor (entity/db.py:224) returns as a dict, so it raises KeyError for every existing item and the photo id is never stored; the caller in user/user_handlers.py:1562-1570 swallows the error | any existing item, e.g. item 0 with an empty payload and photo id "abc" | read `row["payload_json"]` and store the merged payload | not executed | DailyPack.PhotoUpdateAsWritten; DailyPack.PhotoLostAsWritten | DailyPack.PhotoMerged |
