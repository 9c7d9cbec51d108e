/**
 * The `/stats` command: the four period views (today, yesterday, last 7
 * days, last 30 days) built from the store's reads, with missing rows and
 * null range totals shown as zero, the daily-breakdown text of the week
 * view and the per-day averages of the month view.
 */
module StatsCommand {
  import opened Wrappers
  import opened Text
  import opened Trend
  import opened Database
  import opened Scheduler

  /** The `period` option; absent means today (`|| 'today'`). */
  datatype Period = Today | Yesterday | Week | Month

  function PeriodOf(choice: Option<Period>): (p: Period)
    ensures choice.None? ==> p == Today
    ensures choice.Some? ==> p == choice.value
  {
    choice.GetOr(Today)
  }

  /** An average per day with data; `'0'` when no day has data. */
  datatype Average = NoDays | PerDay(value: real)

  /**
   * `days_with_data > 0 ? total / days_with_data : '0'`: the division is
   * by the days that have a row, and only when there is one.
   */
  function AverageOf(total: Option<int>, daysWithData: nat): (a: Average)
    ensures a.NoDays? <==> daysWithData == 0
    ensures a.PerDay? ==> a.value * (daysWithData as real) == (total.GetOr(0) as real)
  {
    if daysWithData > 0 then PerDay((total.GetOr(0) as real) / (daysWithData as real)) else NoDays
  }

  /** What the embed shows (emoji and timestamp aside); the summary carries net, trend colour and display. */
  datatype StatsView =
    | DayView(title: string, summary: NetSummary, joined: string, left: string, footer: string)
    | WeekView(summary: NetSummary, totalJoined: string, totalLeft: string, breakdown: string, footer: string)
    | MonthView(summary: NetSummary, totalJoined: string, totalLeft: string,
                avgJoins: Average, avgLeaves: Average, daysTracked: string, footer: string)

  function Footer(tz: Timezone): string {
    "Timezone: " + tz
  }

  /** The today and yesterday views: a missing row counts as zero joins and leaves. */
  function DayViewOf(title: string, stats: Option<DayStats>, tz: Timezone): (v: StatsView)
    ensures v.DayView? && v.title == title && v.footer == Footer(tz)
    ensures v.summary == Summarize(Figures(stats).0, Figures(stats).1)
    ensures ParseSigned(v.joined) == Some(Figures(stats).0) && ParseSigned(v.left) == Some(Figures(stats).1)
  {
    var (joins, leaves) := Figures(stats);
    ToStringReadsBack(joins);
    ToStringReadsBack(leaves);
    DayView(title, Summarize(joins, leaves), IntToString(joins), IntToString(leaves), Footer(tz))
  }

  /** `(stats.total_joins || 0)` and `(stats.total_leaves || 0)`. */
  function Totals(r: RangeStats): (t: (int, int))
    ensures r.totalJoins.Some? ==> t.0 == r.totalJoins.value
    ensures r.totalLeaves.Some? ==> t.1 == r.totalLeaves.value
    ensures r.totalJoins.None? ==> t.0 == 0
    ensures r.totalLeaves.None? ==> t.1 == 0
  {
    (r.totalJoins.GetOr(0), r.totalLeaves.GetOr(0))
  }

  /** The week view; an empty breakdown text would show as `'No data'`. */
  function WeekViewOf(r: RangeStats, breakdownText: string, tz: Timezone): (v: StatsView)
    ensures v.WeekView? && v.footer == Footer(tz)
    ensures v.summary == Summarize(Totals(r).0, Totals(r).1)
    ensures v.totalJoined == IntToString(Totals(r).0) && v.totalLeft == IntToString(Totals(r).1)
    ensures v.breakdown == if breakdownText != "" then breakdownText else "No data"
  {
    var (joins, leaves) := Totals(r);
    WeekView(Summarize(joins, leaves), IntToString(joins), IntToString(leaves),
      if breakdownText != "" then breakdownText else "No data", Footer(tz))
  }

  /** The month view: totals, averages over the days with data, and the number of such days. */
  function MonthViewOf(r: RangeStats, tz: Timezone): (v: StatsView)
    ensures v.MonthView? && v.footer == Footer(tz)
    ensures v.summary == Summarize(Totals(r).0, Totals(r).1)
    ensures v.totalJoined == IntToString(Totals(r).0) && v.totalLeft == IntToString(Totals(r).1)
    ensures v.avgJoins == AverageOf(r.totalJoins, r.daysWithData)
    ensures v.avgLeaves == AverageOf(r.totalLeaves, r.daysWithData)
    ensures v.daysTracked == NatToString(r.daysWithData)
  {
    var (joins, leaves) := Totals(r);
    MonthView(Summarize(joins, leaves), IntToString(joins), IntToString(leaves),
      AverageOf(r.totalJoins, r.daysWithData), AverageOf(r.totalLeaves, r.daysWithData),
      NatToString(r.daysWithData), Footer(tz))
  }

  // ==================== the daily breakdown text ====================

  /** `**${date}**: ${joins} joined, ${leaves} left (${dayNetDisplay})\n`. */
  function Line(day: DayStats): string {
    LineOf(day.date, IntToString(day.joins), IntToString(day.leaves), SignedDisplay(day.joins - day.leaves))
  }

  /** The line template, filled with already rendered pieces. */
  function LineOf(date: string, joins: string, leaves: string, net: string): string {
    "**" + date + "**: " + joins + " joined, " + leaves + " left (" + net + ")\n"
  }

  lemma LineOfStartsWithStars(date: string, joins: string, leaves: string, net: string)
    ensures |LineOf(date, joins, leaves, net)| >= 1 && LineOf(date, joins, leaves, net)[0] == '*'
  {
    var rest := date + "**: " + joins + " joined, " + leaves + " left (" + net + ")\n";
    assert LineOf(date, joins, leaves, net) == "**" + rest;
  }

  lemma LineStartsWithStars(day: DayStats)
    ensures |Line(day)| >= 1 && Line(day)[0] == '*'
  {
    LineOfStartsWithStars(day.date, IntToString(day.joins), IntToString(day.leaves), SignedDisplay(day.joins - day.leaves));
  }

  /** The lines of `days`, in order. */
  function Lines(days: seq<DayStats>): string {
    if days == [] then "" else Lines(days[..|days| - 1]) + Line(days[|days| - 1])
  }

  function Min(a: int, b: int): int {
    if a <= b then a else b
  }

  /** The rows the loop visits: `breakdown.slice(0, 7)`. */
  function Shown(breakdown: seq<DayStats>): (s: seq<DayStats>)
    ensures |s| == Min(7, |breakdown|) && s == breakdown[..|s|]
  {
    breakdown[..Min(7, |breakdown|)]
  }

  /** The breakdown text: one line per shown row, `'No data available'` when there is none. */
  function BreakdownBody(breakdown: seq<DayStats>): string {
    if Lines(Shown(breakdown)) == "" then "No data available" else Lines(Shown(breakdown))
  }

  /** The `for` loop over `breakdown.slice(0, 7)` and the empty-text fallback. */
  method BreakdownText(breakdown: seq<DayStats>) returns (text: string)
    ensures text == BreakdownBody(breakdown)
  {
    var shown := breakdown[..Min(7, |breakdown|)];
    text := "";
    for i := 0 to |shown|
      invariant text == Lines(shown[..i])
    {
      assert shown[..i + 1][..i] == shown[..i];
      text := text + Line(shown[i]);
    }
    assert shown[..|shown|] == shown;
    if text == "" {
      text := "No data available";
    }
  }

  /** Lines of a non-empty list start with the `**` of the first date. */
  lemma {:induction false} LinesStartWithDate(days: seq<DayStats>)
    requires days != []
    ensures |Lines(days)| >= 1 && Lines(days)[0] == '*'
  {
    if |days| > 1 {
      LinesStartWithDate(days[..|days| - 1]);
    } else {
      assert days[..0] == [];
      assert Lines(days) == Line(days[0]);
      LineStartsWithStars(days[0]);
    }
  }

  /** The fallback text appears exactly when the breakdown is empty. */
  lemma NoDataIffEmpty(breakdown: seq<DayStats>)
    ensures BreakdownBody(breakdown) == "No data available" <==> breakdown == []
    ensures BreakdownBody(breakdown) != ""
  {
    if breakdown != [] {
      LinesStartWithDate(Shown(breakdown));
      assert "No data available"[0] != '*';
    }
  }

  /** The week view never falls back to `'No data'`: the breakdown text is never empty. */
  lemma WeekFieldIsBreakdown(r: RangeStats, breakdown: seq<DayStats>, tz: Timezone)
    ensures WeekViewOf(r, BreakdownBody(breakdown), tz).breakdown == BreakdownBody(breakdown)
  {
    NoDataIffEmpty(breakdown);
  }

  // ==================== the command ====================

  /** Every view, from the config map and the stats rows as they are before the command. */
  function ViewFor(period: Period, configs: map<GuildId, GuildConfig>, rows: seq<StatRow>, g: GuildId, clock: Clock): (v: StatsView)
    ensures v.DayView? <==> period.Today? || period.Yesterday?
    ensures v.WeekView? <==> period.Week?
    ensures v.MonthView? <==> period.Month?
    ensures v.footer == Footer(TimezoneOf(Lookup(configs, g)))
  {
    var tz := TimezoneOf(Lookup(configs, g));
    var today := clock.Today(tz);
    match period
    case Today =>
      DayViewOf("Today's Stats", Some(ToDayStats(Find(rows, g, today).GetOr(StatRow(g, today, 0, 0)))), tz)
    case Yesterday =>
      var row := Find(rows, g, clock.Yesterday(tz));
      DayViewOf("Yesterday's Stats", if row.Some? then Some(ToDayStats(row.value)) else None, tz)
    case Week =>
      WeekViewOf(RangeOf(rows, g, clock.dateBack(6, tz), today),
        BreakdownBody(Breakdown(rows, g, clock.dateBack(6, tz), today)), tz)
    case Month =>
      MonthViewOf(RangeOf(rows, g, clock.dateBack(29, tz), today), tz)
  }

  /**
   * `execute`: the view of the chosen period, `today` when none is chosen.
   * Only `today` writes, through
   * `getTodayStats`, which creates today's zero row if needed.
   */
  method Execute(store: Store, g: GuildId, choice: Option<Period>, clock: Clock) returns (view: StatsView)
    requires store.Valid()
    modifies store`dailyStats
    ensures store.Valid()
    ensures PeriodOf(choice).Today? ==> store.dailyStats == EnsureRow(old(store.dailyStats), g, clock.Today(store.TimezoneFor(g)))
    ensures !PeriodOf(choice).Today? ==> store.dailyStats == old(store.dailyStats)
    ensures view == ViewFor(PeriodOf(choice), store.configs, old(store.dailyStats), g, clock)
  {
    var period := PeriodOf(choice);
    var tz := TimezoneOf(store.GetGuildConfig(g));
    match period
    case Today =>
      var stats := store.GetTodayStats(g, clock);
      view := DayViewOf("Today's Stats", Some(stats), tz);
    case Yesterday =>
      view := DayViewOf("Yesterday's Stats", store.GetYesterdayStats(g, clock), tz);
    case Week =>
      var range := store.GetStatsRange(g, 7, clock);
      var text := BreakdownText(store.GetDailyBreakdown(g, 7, clock));
      view := WeekViewOf(range, text, tz);
    case Month =>
      view := MonthViewOf(store.GetStatsRange(g, 30, clock), tz);
  }

  // ==================== what the views promise ====================

  /** A missing yesterday row shows exactly as a row of zeros: net 0, flat trend, display "0". */
  lemma MissingYesterdayIsZero(tz: Timezone)
    ensures DayViewOf("Yesterday's Stats", None, tz) == DayViewOf("Yesterday's Stats", Some(ZeroStats), tz)
    ensures DayViewOf("Yesterday's Stats", None, tz).summary.trend == Steady
    ensures DayViewOf("Yesterday's Stats", None, tz).summary.display == "0"
  {
  }

  /** A window without rows shows zero totals, a flat trend and no averages. */
  lemma EmptyRangeShowsZero(r: RangeStats, tz: Timezone)
    requires r.daysWithData == 0 && r.totalJoins.None? && r.totalLeaves.None?
    ensures MonthViewOf(r, tz).totalJoined == "0" && MonthViewOf(r, tz).totalLeft == "0"
    ensures MonthViewOf(r, tz).summary.trend == Steady && MonthViewOf(r, tz).summary.display == "0"
    ensures MonthViewOf(r, tz).avgJoins == NoDays && MonthViewOf(r, tz).avgLeaves == NoDays
    ensures MonthViewOf(r, tz).daysTracked == "0"
  {
  }

  /**
   * The week view's totals are the sums of its breakdown rows, the
   * breakdown has one row per day counted, and a week with no row reads
   * "No data available".
   */
  lemma WeekTotalsMatchBreakdown(rows: seq<StatRow>, g: GuildId, start: Date, end: Date, tz: Timezone)
    ensures var b := Breakdown(rows, g, start, end);
      var v := WeekViewOf(RangeOf(rows, g, start, end), BreakdownBody(b), tz);
      && v.summary.joins == SumJoins(b)
      && v.summary.leaves == SumLeaves(b)
      && (v.breakdown == "No data available" <==> RangeOf(rows, g, start, end).daysWithData == 0)
  {
    var b := Breakdown(rows, g, start, end);
    BreakdownMatchesRange(rows, g, start, end);
    NoDataIffEmpty(b);
  }
}
