# Daily join reporter, modelled in Dafny

A Discord bot counts members who join and leave each guild. It keeps one
counter row per guild and calendar day in SQLite, and every guild has a
per-guild cron task that posts yesterday's figures at a configured time. It
also offers three slash commands:

- `/setup` changes the channel, the time, the zone and whether reports are on.
- `/stats` shows today, yesterday, the last 7 days or the last 30 days.
- `/history` buckets the current members by their join date.

This project models that behaviour and proves it.

- `database.dfy` (module `Database`): the `Store` class. It holds the
  `guild_config` rows as a map and the `daily_stats` table as a sequence of
  rows, with its `UNIQUE(guild_id, date)` constraint as the class invariant.
  It also holds the append-only `member_events` log. Around the class sit the
  config upsert (COALESCE on update, `||`/`??` defaults on insert), the
  insert-or-ignore of today's row, the +1 updates and the range and
  breakdown queries.
- `scheduler.dfy` (module `Scheduler`): the `Registry`
  class holds the `scheduledTasks` map. A task handle is a number, and the
  handles stopped so far are a ghost set. The invariant `NoLeak` says that
  every task ever created is either still registered or stopped, never
  both, and that no two guilds share a task. The module also has the cron
  expression built from `HH:MM`, the report embed's content and the
  decision `sendDailyReportForGuild` makes.
- `setup.dfy` (module `Setup`): the time pattern, the padding normaliser and
  each subcommand's write, scheduler refresh and reply.
- `stats.dfy` (module `StatsCommand`): the four views, the week breakdown
  loop and the month averages.
- `history.dfy` (module `History`): the member loop with its five counters,
  the seven-key `dailyCounts` object and the breakdown loop.
- `text.dfy`, `trend.dfy`, `order.dfy` and `wrappers.dfy` hold what these
  share:
  - decimal rendering and parsing;
  - the `+n` display, the rising/falling/steady trend;
  - the lexicographic order on date strings, which is both SQLite's
    `BINARY` collation and JavaScript's `sort()` on these ASCII strings;
  - `Option`.

Modelling choices:

- Clocks are values. A `Database.Clock` gives the current instant and the
  date, in a given zone, of the instant `k` server-local days back. Each
  store operation reads it once.
- `/history` takes its inputs from the caller:
  - the day boundaries, as integers;
  - the seven breakdown keys, as a function `dayKey`;
  - each member's join instant, with that instant's UTC date.

  Whether a join that falls on a given day lands on one of the seven keys
  depends on the server's UTC offset. The keys are UTC dates of local
  midnights, so the model does not assume they line up.
- Two behaviours of the bot are kept as written and stated as lemmas:
  - Startup selects guilds whose channel column is not NULL, while a
    refresh tests the channel id's truthiness. A stored empty id is
    therefore scheduled at startup but not after a refresh
    (`Scheduler.EmptyChannelStartedButNotRefreshed`). `/setup channel`
    always stores a real id.
  - The seven day keys of `/history` can coincide across a daylight-saving
    change, leaving fewer than seven breakdown lines
    (`History.CollidingDayKeys`).
- Discord fetches are parameters: whether the channel was found, the
  member count, and the member list (`None` when the fetch throws).

## Model

| member | source | states |
|---|---|---|
| Database.ApplyPatch | src/database.js:73-108 | the row the upsert leaves: a new row never has an empty time or zone; an empty patch keeps an existing row; a supplied `enabled` is always written (further properties in `InsertDefaults`, `PartialUpdate`, `PatchIdempotent`) |
| Database.InsertDefaults | src/database.js:95-107 | a first write stores a supplied non-empty channel, webhook, time or zone as given; a missing or empty channel or webhook becomes null, a missing or empty time `10:00`, a missing or empty zone `UTC`; `enabled` is the supplied value (0 included) or 1; the stored time and zone are never empty |
| Database.PartialUpdate | src/database.js:76-94 | an update of an existing row changes exactly the supplied fields; a supplied `enabled: 0` is written |
| Database.PatchIdempotent | src/database.js:73-111 | writing the same patch again leaves the row unchanged (for a first write, when the patch supplies no empty text) |
| Database.Lookup | src/database.js:65-68 | the config is present exactly when the guild has a row, and is that row |
| Database.TimezoneOf | src/database.js:154 | the zone is the stored one unless it is missing or empty, in which case it is `UTC`; it is never empty |
| Database.EnabledGuilds | src/database.js:116-122 | exactly the rows with `enabled = 1` and a non-null channel, unchanged |
| Database.Find | src/database.js:274-278 | a row is found only if it has that guild and date; nothing is found exactly when no row has them |
| Database.FindUnique | src/database.js:35 | under the uniqueness constraint, looking up a row's key finds that very row |
| Database.EnsureRow | src/database.js:140-147 | insert-or-ignore: the table only grows, by at most one row; an existing row is kept; otherwise a zero row appears; uniqueness is kept and every other key reads as before |
| Database.Bump | src/database.js:160-164 | the update adds one to the chosen counter of the matching rows and touches no other row |
| Database.BumpFind | src/database.js:160-164 | after the update the bumped key reads one higher and every other key reads as before |
| Database.RecordOn | src/database.js:156-164 | the table after the insert-or-ignore and the +1 update: it grows by at most one row (counters stated by `RecordCountsOne`) |
| Database.RecordCountsOne | src/database.js:152-197 | a recorded join (leave) raises that day's joins (leaves) by exactly one, starting from zero when the day had no row; every other (guild, date) reads as before; the table stays unique |
| Database.Store.SetGuildConfig | src/database.js:73-111 | the config map gets the upserted row for the guild and nothing else changes; the returned row is the stored one |
| Database.Store.GetGuildConfig | src/database.js:65-68 | the row for the guild, or none |
| Database.Store.GetAllEnabledGuilds | src/database.js:116-122 | exactly the guilds with `enabled = 1` and a non-null channel |
| Database.Store.TimezoneFor | src/database.js:154 | the zone the guild's dates are taken in: the stored zone unless missing or empty, else `UTC`; never empty |
| Database.Store.EnsureTodayExists | src/database.js:140-147 | the table becomes the insert-or-ignore of a zero row for today in the given zone; uniqueness is kept |
| Database.Store.Record | src/database.js:152-197 | the shared body of `recordJoin` and `recordLeave`: today's row in the guild's zone is created if needed and the chosen counter raised by one; one event of that kind is appended; uniqueness is kept |
| Database.Store.RecordJoin | src/database.js:152-172 | today's row (in the guild's zone) is created if needed and its joins raised by one; one `join` event is appended |
| Database.Store.RecordLeave | src/database.js:177-197 | the same for leaves, with a `leave` event |
| Database.Store.GetTodayStats | src/database.js:202-214 | the row for today always exists afterwards; the result is that day's figures, zero when the day had no row, with net = joins - leaves |
| Database.Store.GetYesterdayStats | src/database.js:266-279 | a result exactly when yesterday (in the guild's zone) has a row; the result is that row's own date, joins and leaves, with net = joins - leaves |
| Database.Window | src/database.js:236 | the selected rows are exactly the guild's rows whose date lies between the bounds in string order |
| Database.WindowDistinct | src/database.js:35 | the selected rows have distinct dates, because the table is unique |
| Database.SumNetIsDifference | src/database.js:233 | `SUM(joins - leaves)` equals `SUM(joins) - SUM(leaves)` |
| Database.RangeOf | src/database.js:229-238 | `days_with_data` counts the window's rows; the sums are NULL exactly when there is no row; net = total joins - total leaves |
| Database.Store.WindowStart | src/database.js:225-227 | the first date of the window, `days - 1` days back in the guild's zone: a one-day window starts today |
| Database.Store.GetStatsRange | src/database.js:219-239 | over the window from `days - 1` days back to today in the guild's zone: `days_with_data` is the number of the guild's rows in it; the sums are NULL exactly when there is none; net = total joins - total leaves |
| Database.Store.GetDailyBreakdown | src/database.js:244-261 | over that same window: exactly the guild's rows in it, newest date first with no date twice, each with net = joins - leaves; as many entries as `getStatsRange` counts days, with its join and leave totals |
| Database.Breakdown | src/database.js:254-260 | the breakdown is a reordering of the window's rows as day figures, one entry per row (order and contents in `BreakdownMembers`) |
| Database.BreakdownMembers | src/database.js:254-260 | the breakdown lists exactly the guild's rows in the window, newest date first, no date twice, each with net = joins - leaves |
| Database.BreakdownMatchesRange | src/database.js:229-260 | the breakdown has one entry per day counted by the range and the same join and leave totals |
| Scheduler.ToNumber | src/scheduler.js:94 | `Number` of a piece of the split: a digit string reads as its value, `""` as 0, anything else as NaN; never `undefined` |
| Scheduler.PieceAt | src/scheduler.js:94 | destructuring past the end of the split gives `undefined`, otherwise `Number` of that piece |
| Scheduler.PieceText | src/scheduler.js:95 | definition: how `undefined`, NaN and a number print inside the template string; stated through `CronWithoutColon` and `Setup.CronOfValidTime` |
| Scheduler.TimeFields | src/scheduler.js:94 | the hour is always present; a time without a colon has an `undefined` minute, and the hour is `Number` of the whole text |
| Scheduler.CronExpression | src/scheduler.js:94-95 | the expression always ends in ` * * *` (every day of every month, any weekday); its hour and minute are stated by `CronWithoutColon` and `Setup.CronOfValidTime` |
| Scheduler.CronWithoutColon | src/scheduler.js:94-95 | without a colon the expression is `undefined <hour> * * *` |
| Scheduler.HourOnlyCron | src/scheduler.js:94-95 | the cron text built for a stored time `10` is `undefined 10 * * *` (no command stores such a time) |
| Scheduler.StopSet | src/scheduler.js:90-92 | the handle stopped is the guild's current task, if it has one |
| Scheduler.ReportTimeOf | src/scheduler.js:121 | the stored time, or `10:00` when empty; never empty |
| Scheduler.RefreshPlan | src/scheduler.js:154-168 | no task exactly when the config is missing, disabled or without a channel; otherwise the report time and zone with their defaults |
| Scheduler.RefreshedTasks | src/scheduler.js:154-168 | the guild has a task afterwards exactly when the plan says so, with the plan's cron and zone; other guilds' tasks are unchanged |
| Scheduler.ReplaceKeepsNoLeak | src/scheduler.js:88-107 | stopping the guild's old task and registering a new one keeps every task either registered or stopped |
| Scheduler.RemoveKeepsNoLeak | src/scheduler.js:132-138 | stopping and deleting the guild's task keeps that invariant |
| Scheduler.ClearKeepsNoLeak | src/scheduler.js:143-149 | stopping everything and clearing the map keeps it |
| Scheduler.Registry.ScheduleGuildReport | src/scheduler.js:88-107 | the old task of the guild (if any) is stopped; the guild maps to a fresh task with the cron of the report time and the given zone; no task leaks |
| Scheduler.Registry.StopGuildScheduler | src/scheduler.js:132-138 | the guild's task (if any) is stopped and removed; nothing else changes |
| Scheduler.Registry.StopAllSchedulers | src/scheduler.js:143-149 | every registered task is stopped and the map is empty |
| Scheduler.Registry.RefreshGuildScheduler | src/scheduler.js:154-168 | the registry becomes the refreshed one for the stored config; only the guild's old task is stopped; a handle is used up exactly when a task is scheduled |
| Scheduler.Registry.ScheduleNext | src/scheduler.js:117-124 | one loop round schedules one more enabled guild, uses exactly one new handle and keeps the loop invariant |
| Scheduler.Registry.StartAllSchedulers | src/scheduler.js:112-127 | every enabled guild gets a fresh task with its time and zone; other guilds keep theirs; exactly the replaced tasks are stopped; exactly one handle is used per enabled guild; nothing leaks |
| Scheduler.StartedOneMore | src/scheduler.js:117-124 | scheduling the next pending guild extends the "already started" relation by that guild |
| Scheduler.StoppedOneMore | src/scheduler.js:90-92 | scheduling the next pending guild stops exactly its own old task |
| Scheduler.Figures | src/scheduler.js:20-21 | the report's joins and leaves come from the row, or are 0 without one |
| Scheduler.CreateDailyReport | src/scheduler.js:11-42 | three fields (Joined, Left, Net Change), plus Total Members exactly when the count is known; the summary is the net and trend of the figures |
| Scheduler.ReportFiguresReadBack | src/scheduler.js:31-33 | the three field values read back as the joins, the leaves and their difference |
| Scheduler.MissingStatsAreZero | src/scheduler.js:62-65 | a day without a row reports as a zero day |
| Scheduler.DailyReportFor | src/scheduler.js:47-83 | nothing is sent without a config or channel, or when the channel is not found; otherwise the report of yesterday's row goes to the stored channel |
| Scheduler.EmptyChannelStartedButNotRefreshed | src/scheduler.js:117-123 | an enabled row whose channel id is the empty string is selected at startup but left unscheduled by a refresh |
| Scheduler.StartAllAgreesWithRefresh | src/scheduler.js:117-123 | for an enabled guild with a channel, startup and refresh schedule the same time and zone |
| Trend.TrendOf | src/scheduler.js:23 | rising exactly when the net is positive, falling exactly when negative |
| Trend.Summarize | src/scheduler.js:20-24 | net = joins - leaves, its trend, and a display that starts with `+` exactly when positive and parses back to the net |
| Text.SignedDisplay | src/scheduler.js:24 | the net display starts with `+` exactly when the net is positive and with `-` exactly when negative (read-back in `SignedDisplayRoundTrip`) |
| Text.SignedDisplayRoundTrip | src/scheduler.js:24 | the `+n` / `n` display parses back to the number |
| Setup.IsValidTime | src/commands/setup.js:95 | an accepted time has four or five characters with the colon third from the end (exact language in `AcceptedIsDigitForm`, `TwoDigitTimes`, `OneDigitHourTimes`) |
| Setup.HourOf | src/commands/setup.js:95 | an accepted hour is at most 23 |
| Setup.MinuteOf | src/commands/setup.js:95 | an accepted minute is at most 59 |
| Setup.TwoDigitTimes | src/commands/setup.js:95 | `HH:MM` is accepted exactly when the hour is at most 23 and the minute at most 59 |
| Setup.OneDigitHourTimes | src/commands/setup.js:95 | `H:MM` is accepted for every one-digit hour exactly when the minute is at most 59 |
| Setup.AcceptedIsDigitForm | src/commands/setup.js:95 | conversely, every accepted time is `HH:MM` (two-digit hour) or `H:MM` (one-digit hour below 10) written in digits, naming its `HourOf` and `MinuteOf`; so a text such as `a:00` is rejected |
| Setup.PadStart | src/commands/setup.js:106 | `padStart`: the result has the target width (or the string's own length), ends with the string and starts with fill characters |
| Setup.NormalizeTime | src/commands/setup.js:104-106 | the normalised time has five characters, the colon in the middle and the accepted minute unchanged after it |
| Setup.NormalizeTimeCanonical | src/commands/setup.js:104-106 | the normalised time is the two-digit hour, `:` and the two-digit minute; it is accepted again and has the same hour and minute |
| Setup.NormalizeTimeIdempotent | src/commands/setup.js:104-106 | normalising twice is normalising once |
| Setup.CronOfValidTime | src/scheduler.js:94-95 | an accepted time becomes the cron `minute hour * * *` of its values, and normalising does not change it |
| Setup.ZoneChoice.Value | src/commands/setup.js:6-15 | the zone name each of the eight choices stores; never empty (distinctness in `ZoneValuesDistinct`) |
| Setup.ZoneValuesDistinct | src/commands/setup.js:6-15 | the eight zone choices store eight different names |
| Setup.PatchFor | src/commands/setup.js:74-165 | each subcommand's write: channel id, normalised time, zone, `enabled` 1 or 0; nothing for view or a rejected time |
| Setup.ViewOf | src/commands/setup.js:167-185 | the channel shows as `<#id>` or `Not configured`; time and zone show with their defaults; status is on exactly when `enabled` is truthy |
| Setup.ReplyFor | src/commands/setup.js:74-191 | the invalid-time reply appears exactly for a rejected time; time and zone replies show the stored values; only view and the rejection are ephemeral |
| Setup.Execute | src/commands/setup.js:70-193 | view and a rejected time change neither the configs nor the registry (tasks, stopped handles, handle counter); every other subcommand upserts its patch, then refreshes the guild's task from the stored config, stopping only the guild's old task and using one new handle exactly when the stored config is schedulable; the reply reads the new config |
| Setup.ToggleOnlyTouchesEnabled | src/commands/setup.js:139-155 | enable and disable change only `enabled` of an existing config |
| Setup.DisableStopsReports | src/commands/setup.js:154-155 | after disable the guild has no task |
| Setup.EnableSchedulesWithChannel | src/commands/setup.js:140-141 | after enable the guild is scheduled exactly when it has a channel, at its time and zone |
| Setup.FirstChannelUsesDefaults | src/commands/setup.js:78-79 | a first channel write stores the channel id, leaves the guild enabled and schedules it at `10:00` UTC |
| Setup.TimeReschedules | src/commands/setup.js:108-109 | after a valid time on an enabled guild with a channel, the task fires at that hour and minute |
| Setup.TimePatchPlan | src/commands/setup.js:108-109 | the stored time is the normalised one, and the refresh schedules from it |
| StatsCommand.PeriodOf | src/commands/stats.js:21 | no choice means today |
| StatsCommand.AverageOf | src/commands/stats.js:112-115 | no average exactly when no day has data; otherwise average times days equals the total |
| StatsCommand.DayViewOf | src/commands/stats.js:30-71 | the net and trend of the day's figures, zero without a row; the fields read back as the figures; zone footer |
| StatsCommand.Totals | src/commands/stats.js:77 | `total || 0` on the range sums |
| StatsCommand.WeekViewOf | src/commands/stats.js:73-103 | the totals, their net and trend, and the breakdown text or `No data` |
| StatsCommand.MonthViewOf | src/commands/stats.js:105-131 | the totals, their net and trend, both averages, and the days tracked |
| StatsCommand.Footer | src/commands/stats.js:44 | definition: the `Timezone: <zone>` footer of every view |
| StatsCommand.Line | src/commands/stats.js:84-86 | definition: one breakdown line with date, joins, leaves and the signed net; stated by `LineStartsWithStars` |
| StatsCommand.Shown | src/commands/stats.js:83 | the first `min(7, n)` rows, in order |
| StatsCommand.BreakdownText | src/commands/stats.js:82-89 | the loop builds one line per shown row, or `No data available` |
| StatsCommand.LineStartsWithStars | src/commands/stats.js:86 | each breakdown line starts with `*` |
| StatsCommand.LinesStartWithDate | src/commands/stats.js:82-87 | the text of a non-empty breakdown starts with `*` |
| StatsCommand.NoDataIffEmpty | src/commands/stats.js:82-89 | the fallback text appears exactly when the breakdown is empty, and the text is never empty |
| StatsCommand.WeekFieldIsBreakdown | src/commands/stats.js:98 | the `'No data'` fallback of the field never applies |
| StatsCommand.ViewFor | src/commands/stats.js:29-131 | today and yesterday give a day view, week a week view, month a month view, each with the footer of the guild's zone |
| StatsCommand.Execute | src/commands/stats.js:20-134 | the period is the chosen one or today; today creates today's row if missing, and the other periods change nothing; the view is built from the tables as they were before the command |
| StatsCommand.MissingYesterdayIsZero | src/commands/stats.js:52-54 | a yesterday without a row shows as a steady zero day |
| StatsCommand.EmptyRangeShowsZero | src/commands/stats.js:106-126 | a range without rows shows totals 0, a steady `0`, no averages and 0 days tracked |
| StatsCommand.WeekTotalsMatchBreakdown | src/commands/stats.js:74-98 | the week's totals and days equal the sums and length of its breakdown |
| History.NonBots | src/commands/history.js:95 | the non-bot count never exceeds the member count |
| History.Dedup | src/commands/history.js:37-43 | the object's keys are exactly the keys the loop assigns, and there are no more of them than assignments |
| History.DedupDistinct | src/commands/history.js:37-43 | no key appears twice |
| History.DedupOfDistinct | src/commands/history.js:37-43 | with seven different dates the keys are those dates in loop order |
| History.DistinctCard | src/commands/history.js:37-43 | distinct keys number as many as the list is long |
| History.CollidingDayKeys | src/commands/history.js:37-43 | when two consecutive day keys are the same date, the object has fewer than seven keys and the breakdown fewer than seven lines |
| History.SevenKeys | src/commands/history.js:37-43 | seven different day keys give exactly seven entries |
| History.WeekKeys | src/commands/history.js:38-41 | key `i` is the date `i` days back, for `i` from 0 to 6 |
| History.InitDailyCounts | src/commands/history.js:37-43 | the loop builds one zero entry per day key, in the object's key order |
| History.Visit | src/commands/history.js:45-73 | a bot or a member without `joinedAt` changes nothing; otherwise each counter rises by one exactly when the instant is in its window, and only the join date's existing entry rises by one |
| History.Bucket | src/commands/history.js:45-73 | each counter is the number of counted members in its window; each existing key gains the members that joined that day; no key is added |
| History.InWindow | src/commands/history.js:58-72 | definition: which of the five counters a join instant feeds; stated by `TodayYesterdayDisjoint`, `MonthOlderPartition` and `WindowsNest` |
| History.CountIn | src/commands/history.js:58-72 | the number of counted members in a window, never more than all counted members |
| History.MonthOlderPartition | src/commands/history.js:68-72 | last 30 days + older = the counted members |
| History.TodayYesterdayDisjoint | src/commands/history.js:58-62 | no member is counted both today and yesterday |
| History.TotalCoversCounters | src/commands/history.js:58-95 | every counter is at most the counted members, which are at most Total Members |
| History.WindowsNest | src/commands/history.js:58-70 | with the boundaries in calendar order, today + yesterday <= this week <= last 30 days |
| History.SkippedMemberChangesNothing | src/commands/history.js:46-49 | a bot or a member without `joinedAt` changes no counter and no daily count, wherever it appears |
| History.DailyCountsOf | src/commands/history.js:53-55 | the daily counts after the loop: one entry per day key, none above the counted members |
| History.SumJoinedOnDistinct | src/commands/history.js:53-55 | over distinct keys, the per-day counts add up to the members that joined on one of those days |
| History.DailySum | src/commands/history.js:53-55 | the daily counts add up to the counted members that joined on one of the seven days, so at most the counted members |
| History.SortedDates | src/commands/history.js:77 | the sorted dates are a permutation of the keys |
| History.SortedDatesDescending | src/commands/history.js:77 | the dates come newest first, each key exactly once |
| History.Label | src/commands/history.js:80-81 | `(Today)` exactly for today's key, `(Yesterday)` exactly for yesterday's key when it is not today's, otherwise empty |
| History.DayLine | src/commands/history.js:82 | definition: one breakdown line with date, label and count; stated by `DayLineStartsWithStars` |
| History.DayLines | src/commands/history.js:78-83 | the breakdown text is empty exactly when there are no dates |
| History.BreakdownText | src/commands/history.js:76-83 | one line per sorted date, in that order, labelled Today or Yesterday by the first two keys, with its count |
| History.DayLinesNonEmpty | src/commands/history.js:96 | with at least one key the text is non-empty |
| History.BreakdownField | src/commands/history.js:96 | the field is the text, or `No data` when the text is empty |
| History.Execute | src/commands/history.js:9-107 | a failed fetch gives the error reply; otherwise the five counters are the window counts, Total Members is the non-bot count, and the breakdown is the lines over the sorted keys with each day's join count |

## Left out

- Discord I/O is left out: command registration, embed titles, colours, emoji, timestamps, the human-readable date line of the report, permissions, and logging. The model keeps only the figures and texts the embeds carry.
- Real clock and timezone arithmetic is left out: `toLocaleDateString`, `toISOString`, `setDate` and the fallback to UTC when a zone name is rejected. Dates and day boundaries come from `Database.Clock` or, for `/history`, from inputs. Reading the clock several times within one operation, and so crossing midnight between the reads, is not modelled.
- SQLite itself is left out: timestamp columns, surrogate ids, indexes, the `slack_webhook_url` migration and transactions. Each store method is atomic in the model.
- node-cron's firing of tasks at the scheduled time is left out. A task is its handle, cron string and zone. The firing is `Scheduler.DailyReportFor` applied to the guild.
- The midnight snapshot job is left out. It does not exist in `src/scheduler.js`, and `daily_stats` has no column for it.
- Scheduler.ToNumber: `Number` is read only for digit strings and the empty string. Other text becomes NaN, although `Number` reads surrounding spaces, signs and decimals. Such text cannot reach the scheduler through `/setup time`, whose pattern admits only digits.
- StatsCommand.AverageOf: the average is an exact rational. The one-decimal rounding of `toFixed(1)` and floating-point division are not modelled.
- Scheduler.CronExpression: text that is not a valid cron expression, such as `undefined 10 * * *`, is built but not rejected; node-cron's validation is not modelled.
- Counters are unbounded integers. SQLite's 64-bit `INTEGER` and JavaScript's double-precision numbers are not modelled.
- `/history` takes member fetching, Discord's member cache and the server's UTC offset as inputs.
- The webhook, the health check and the bot's startup wiring are not part of this model.
