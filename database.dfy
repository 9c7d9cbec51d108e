/**
 * The logical contract of the bot's three SQLite tables: `guild_config`
 * (one row per guild, partial updates with COALESCE, insert-time defaults),
 * `daily_stats` (one row per guild and calendar date, counters that start at
 * zero and go up by one per join or leave) and the append-only
 * `member_events` log, with the read queries over them.
 */
module Database {
  import opened Wrappers
  import opened Order

  type GuildId = string
  /** A `YYYY-MM-DD` calendar date string. */
  type Date = string
  /** An IANA timezone name such as `America/New_York`. */
  type Timezone = string

  /**
   * The moment an operation runs. `dateBack(k, tz)` is the `YYYY-MM-DD`
   * calendar date, in zone `tz`, of the instant `k` server-local calendar
   * days before now; today is `dateBack(0, tz)`.
   */
  datatype Clock = Clock(instant: int, dateBack: (int, Timezone) -> Date) {
    function Today(tz: Timezone): Date { dateBack(0, tz) }
    function Yesterday(tz: Timezone): Date { dateBack(1, tz) }
  }

  const DefaultReportTime: string := "10:00"
  const DefaultTimezone: Timezone := "UTC"

  /** A `guild_config` row (timestamps aside). `enabled` is the stored INTEGER. */
  datatype GuildConfig = GuildConfig(
    reportChannelId: Option<string>,
    reportTime: string,
    timezone: Timezone,
    enabled: int,
    slackWebhookUrl: Option<string>)

  /** The argument of `setGuildConfig`: `None` is a property left out or set to null. */
  datatype ConfigPatch = ConfigPatch(
    reportChannelId: Option<string>,
    reportTime: Option<string>,
    timezone: Option<Timezone>,
    enabled: Option<int>,
    slackWebhookUrl: Option<string>)

  const NoChange: ConfigPatch := ConfigPatch(None, None, None, None, None)

  /** `v || null` on a string: the empty string is falsy. */
  function OrNull(v: Option<string>): Option<string> {
    if v.Some? && v.value != "" then v else None
  }

  /** `v || d` on a string. */
  function OrDefault(v: Option<string>, d: string): string {
    if v.Some? && v.value != "" then v.value else d
  }

  /** `COALESCE(v, current)`. */
  function Coalesce<T>(v: Option<T>, current: T): T {
    if v.Some? then v.value else current
  }

  /**
   * The row `setGuildConfig` leaves behind. An existing row is updated
   * field by field with COALESCE on the `??`-defaulted arguments, so any
   * supplied value (0 and "" included) wins; a new row takes the `||`
   * defaults, so "" becomes null or the column default, while
   * `enabled` uses `?? 1` and keeps 0.
   */
  function ApplyPatch(existing: Option<GuildConfig>, p: ConfigPatch): (r: GuildConfig)
    ensures existing.None? ==> r.reportTime != "" && r.timezone != ""
    ensures existing.Some? && p == NoChange ==> r == existing.value
    ensures p.enabled.Some? ==> r.enabled == p.enabled.value
  {
    match existing
    case Some(c) =>
      GuildConfig(
        if p.reportChannelId.Some? then p.reportChannelId else c.reportChannelId,
        Coalesce(p.reportTime, c.reportTime),
        Coalesce(p.timezone, c.timezone),
        Coalesce(p.enabled, c.enabled),
        if p.slackWebhookUrl.Some? then p.slackWebhookUrl else c.slackWebhookUrl)
    case None =>
      GuildConfig(
        OrNull(p.reportChannelId),
        OrDefault(p.reportTime, DefaultReportTime),
        OrDefault(p.timezone, DefaultTimezone),
        p.enabled.GetOr(1),
        OrNull(p.slackWebhookUrl))
  }

  /** A first write fills in the defaults for everything it does not supply. */
  lemma InsertDefaults(p: ConfigPatch)
    ensures var c := ApplyPatch(None, p);
      && (p.reportChannelId.None? ==> c.reportChannelId.None?)
      && (p.reportTime.None? ==> c.reportTime == "10:00")
      && (p.timezone.None? ==> c.timezone == "UTC")
      && (p.enabled.None? ==> c.enabled == 1)
      && (p.slackWebhookUrl.None? ==> c.slackWebhookUrl.None?)
      && (p.enabled.Some? ==> c.enabled == p.enabled.value)
      && (p.reportChannelId.Some? && p.reportChannelId.value != "" ==> c.reportChannelId == p.reportChannelId)
      && (p.reportChannelId == Some("") ==> c.reportChannelId.None?)
      && (p.slackWebhookUrl.Some? && p.slackWebhookUrl.value != "" ==> c.slackWebhookUrl == p.slackWebhookUrl)
      && (p.slackWebhookUrl == Some("") ==> c.slackWebhookUrl.None?)
      && (p.reportTime.Some? && p.reportTime.value != "" ==> c.reportTime == p.reportTime.value)
      && (p.reportTime == Some("") ==> c.reportTime == "10:00")
      && (p.timezone.Some? && p.timezone.value != "" ==> c.timezone == p.timezone.value)
      && (p.timezone == Some("") ==> c.timezone == "UTC")
      && c.reportTime != "" && c.timezone != ""
  {
  }

  /** An update changes exactly the supplied fields; `enabled: 0` counts as supplied. */
  lemma PartialUpdate(c: GuildConfig, p: ConfigPatch)
    ensures var r := ApplyPatch(Some(c), p);
      && (p.reportChannelId.Some? ==> r.reportChannelId == p.reportChannelId)
      && (p.reportChannelId.None? ==> r.reportChannelId == c.reportChannelId)
      && (p.reportTime.Some? ==> r.reportTime == p.reportTime.value)
      && (p.reportTime.None? ==> r.reportTime == c.reportTime)
      && (p.timezone.Some? ==> r.timezone == p.timezone.value)
      && (p.timezone.None? ==> r.timezone == c.timezone)
      && (p.enabled.Some? ==> r.enabled == p.enabled.value)
      && (p.enabled.None? ==> r.enabled == c.enabled)
      && (p.slackWebhookUrl.Some? ==> r.slackWebhookUrl == p.slackWebhookUrl)
      && (p.slackWebhookUrl.None? ==> r.slackWebhookUrl == c.slackWebhookUrl)
  {
  }

  /** Writing the same patch twice leaves the row as writing it once did. */
  lemma PatchIdempotent(existing: Option<GuildConfig>, p: ConfigPatch)
    requires existing.Some? || (OrNull(p.reportChannelId) == p.reportChannelId && OrNull(p.slackWebhookUrl) == p.slackWebhookUrl)
    requires existing.Some? || ((p.reportTime.Some? ==> p.reportTime.value != "") && (p.timezone.Some? ==> p.timezone.value != ""))
    ensures ApplyPatch(Some(ApplyPatch(existing, p)), p) == ApplyPatch(existing, p)
  {
  }

  /** `getGuildConfig`: the row, or `undefined`. */
  function Lookup(configs: map<GuildId, GuildConfig>, g: GuildId): (r: Option<GuildConfig>)
    ensures r.Some? <==> g in configs
    ensures r.Some? ==> r.value == configs[g]
  {
    if g in configs then Some(configs[g]) else None
  }

  /** `config?.timezone || 'UTC'`: the zone every read and write path buckets by. */
  function TimezoneOf(c: Option<GuildConfig>): (tz: Timezone)
    ensures tz != ""
    ensures c.Some? && c.value.timezone != "" ==> tz == c.value.timezone
    ensures c.None? || c.value.timezone == "" ==> tz == "UTC"
  {
    if c.Some? && c.value.timezone != "" then c.value.timezone else DefaultTimezone
  }

  /** `getAllEnabledGuilds`: `enabled = 1 AND report_channel_id IS NOT NULL`. */
  predicate IsEnabledRow(c: GuildConfig) {
    c.enabled == 1 && c.reportChannelId.Some?
  }

  function EnabledGuilds(configs: map<GuildId, GuildConfig>): (r: map<GuildId, GuildConfig>)
    ensures forall g :: g in r <==> g in configs && IsEnabledRow(configs[g])
    ensures forall g :: g in r ==> r[g] == configs[g]
  {
    map g | g in configs && IsEnabledRow(configs[g]) :: configs[g]
  }

  // ==================== daily_stats and member_events ====================

  /** A `daily_stats` row (its surrogate id and timestamp aside). */
  datatype StatRow = StatRow(guildId: GuildId, date: Date, joins: nat, leaves: nat)

  /** What the read queries select: `date, joins, leaves, (joins - leaves) as net`. */
  datatype DayStats = DayStats(date: Date, joins: int, leaves: int, net: int)

  datatype EventKind = Join | Leave

  /** A `member_events` row; `timestamp` is the instant of insertion. */
  datatype MemberEvent = MemberEvent(guildId: GuildId, userId: string, username: string, kind: EventKind, timestamp: int)

  /** The `UNIQUE(guild_id, date)` constraint. */
  ghost predicate UniqueDays(rows: seq<StatRow>) {
    forall i, j :: 0 <= i < j < |rows| ==> rows[i].guildId != rows[j].guildId || rows[i].date != rows[j].date
  }

  predicate IsRowOf(row: StatRow, g: GuildId, d: Date) {
    row.guildId == g && row.date == d
  }

  /** `SELECT ... WHERE guild_id = ? AND date = ?`. */
  function Find(rows: seq<StatRow>, g: GuildId, d: Date): (r: Option<StatRow>)
    ensures r.Some? ==> r.value in rows && IsRowOf(r.value, g, d)
    ensures r.None? <==> forall i :: 0 <= i < |rows| ==> !IsRowOf(rows[i], g, d)
  {
    if rows == [] then None
    else if IsRowOf(rows[0], g, d) then Some(rows[0])
    else
      var r := Find(rows[1..], g, d);
      assert forall i :: 1 <= i < |rows| ==> rows[i] == rows[1..][i - 1];
      r
  }

  /** Under the uniqueness constraint, the row found for a key is the one row with that key. */
  lemma {:induction false} FindUnique(rows: seq<StatRow>, i: nat)
    requires UniqueDays(rows) && i < |rows|
    ensures Find(rows, rows[i].guildId, rows[i].date) == Some(rows[i])
  {
    if i > 0 {
      assert !IsRowOf(rows[0], rows[i].guildId, rows[i].date);
      FindUnique(rows[1..], i - 1);
    }
  }

  /** `ensureTodayExists`: `INSERT OR IGNORE ... VALUES (guild, date, 0, 0)`. */
  function EnsureRow(rows: seq<StatRow>, g: GuildId, d: Date): (r: seq<StatRow>)
    ensures rows <= r && |r| <= |rows| + 1
    ensures Find(rows, g, d).Some? ==> r == rows
    ensures Find(rows, g, d).None? ==> Find(r, g, d) == Some(StatRow(g, d, 0, 0))
    ensures UniqueDays(rows) ==> UniqueDays(r)
    ensures forall g', d' :: Find(rows, g', d').Some? ==> Find(r, g', d') == Find(rows, g', d')
  {
    if Find(rows, g, d).Some? then rows
    else
      var r := rows + [StatRow(g, d, 0, 0)];
      FindAppend(rows, StatRow(g, d, 0, 0));
      r
  }

  lemma {:induction false} FindAppend(rows: seq<StatRow>, row: StatRow)
    ensures forall g, d :: Find(rows, g, d).Some? ==> Find(rows + [row], g, d) == Find(rows, g, d)
    ensures forall g, d :: Find(rows, g, d).None? && IsRowOf(row, g, d) ==> Find(rows + [row], g, d) == Some(row)
  {
    if rows != [] {
      FindAppend(rows[1..], row);
      assert (rows + [row])[1..] == rows[1..] + [row];
    }
  }

  /** One more join or leave on a row. */
  function Incremented(row: StatRow, kind: EventKind): StatRow {
    match kind
    case Join => row.(joins := row.joins + 1)
    case Leave => row.(leaves := row.leaves + 1)
  }

  /** `UPDATE daily_stats SET joins = joins + 1 WHERE guild_id = ? AND date = ?` (or `leaves`). */
  function Bump(rows: seq<StatRow>, g: GuildId, d: Date, kind: EventKind): (r: seq<StatRow>)
    ensures |r| == |rows|
    ensures forall i :: 0 <= i < |rows| ==> r[i] == if IsRowOf(rows[i], g, d) then Incremented(rows[i], kind) else rows[i]
  {
    seq(|rows|, i requires 0 <= i < |rows| => if IsRowOf(rows[i], g, d) then Incremented(rows[i], kind) else rows[i])
  }

  /** The `daily_stats` table after `recordJoin`/`recordLeave` bucketed the event on date `d`. */
  function RecordOn(rows: seq<StatRow>, g: GuildId, d: Date, kind: EventKind): (r: seq<StatRow>)
    ensures |rows| <= |r| <= |rows| + 1
  {
    Bump(EnsureRow(rows, g, d), g, d, kind)
  }

  lemma BumpUnique(rows: seq<StatRow>, g: GuildId, d: Date, kind: EventKind)
    requires UniqueDays(rows)
    ensures UniqueDays(Bump(rows, g, d, kind))
  {
    var r := Bump(rows, g, d, kind);
    forall i, j | 0 <= i < j < |r| ensures r[i].guildId != r[j].guildId || r[i].date != r[j].date {
      assert r[i].guildId == rows[i].guildId && r[i].date == rows[i].date;
      assert r[j].guildId == rows[j].guildId && r[j].date == rows[j].date;
    }
  }

  /** Reading any key after the update: the bumped key sees its row incremented, every other key is untouched. */
  lemma BumpFind(rows: seq<StatRow>, g: GuildId, d: Date, kind: EventKind, g': GuildId, d': Date)
    requires UniqueDays(rows)
    ensures Find(Bump(rows, g, d, kind), g', d') ==
      if g' == g && d' == d && Find(rows, g, d).Some? then Some(Incremented(Find(rows, g, d).value, kind))
      else Find(rows, g', d')
  {
    var r := Bump(rows, g, d, kind);
    BumpUnique(rows, g, d, kind);
    var f := Find(rows, g', d');
    if f.Some? {
      var k :| 0 <= k < |rows| && rows[k] == f.value;
      FindUnique(rows, k);
      FindUnique(r, k);
    } else {
      forall k | 0 <= k < |r| ensures !IsRowOf(r[k], g', d') {
        assert !IsRowOf(rows[k], g', d');
      }
    }
  }

  /**
   * A recorded join (leave) raises that day's `joins` (`leaves`) by exactly
   * one, starting from a zero row when the day had none, and no other
   * (guild, date) row changes; the table stays unique.
   */
  lemma RecordCountsOne(rows: seq<StatRow>, g: GuildId, d: Date, kind: EventKind)
    requires UniqueDays(rows)
    ensures UniqueDays(RecordOn(rows, g, d, kind))
    ensures Find(RecordOn(rows, g, d, kind), g, d) == Some(Incremented(Find(rows, g, d).GetOr(StatRow(g, d, 0, 0)), kind))
    ensures forall g', d' :: g' != g || d' != d ==> Find(RecordOn(rows, g, d, kind), g', d') == Find(rows, g', d')
  {
    var e := EnsureRow(rows, g, d);
    BumpUnique(e, g, d, kind);
    BumpFind(e, g, d, kind, g, d);
    forall g', d' | g' != g || d' != d
      ensures Find(RecordOn(rows, g, d, kind), g', d') == Find(rows, g', d')
    {
      BumpFind(e, g, d, kind, g', d');
    }
  }

  function ToDayStats(row: StatRow): (s: DayStats)
    ensures s.net == s.joins - s.leaves
  {
    DayStats(row.date, row.joins, row.leaves, row.joins - row.leaves)
  }

  function Days(rows: seq<StatRow>): (r: seq<DayStats>)
    ensures |r| == |rows|
    ensures forall i :: 0 <= i < |rows| ==> r[i] == ToDayStats(rows[i])
  {
    seq(|rows|, i requires 0 <= i < |rows| => ToDayStats(rows[i]))
  }

  function DateOf(s: DayStats): Date { s.date }

  /** `guild_id = ? AND date >= ? AND date <= ?` under SQLite's BINARY collation. */
  predicate InWindow(row: StatRow, g: GuildId, start: Date, end: Date) {
    row.guildId == g && LexLe(start, row.date) && LexLe(row.date, end)
  }

  /** The rows of one guild inside a date window, in table order. */
  function Window(rows: seq<StatRow>, g: GuildId, start: Date, end: Date): (r: seq<StatRow>)
    ensures forall x :: x in r <==> x in rows && InWindow(x, g, start, end)
  {
    if rows == [] then []
    else
      var rest := Window(rows[1..], g, start, end);
      assert forall x :: x in rows <==> x == rows[0] || x in rows[1..];
      if InWindow(rows[0], g, start, end) then [rows[0]] + rest else rest
  }

  /** Rows of one guild have distinct dates when the table is unique. */
  lemma {:induction false} WindowDistinct(rows: seq<StatRow>, g: GuildId, start: Date, end: Date)
    requires UniqueDays(rows)
    ensures DistinctKeys(Days(Window(rows, g, start, end)), DateOf)
  {
    if rows != [] {
      WindowDistinct(rows[1..], g, start, end);
      var rest := Window(rows[1..], g, start, end);
      if InWindow(rows[0], g, start, end) {
        var w := [rows[0]] + rest;
        var ds := Days(w);
        forall i, j | 0 <= i < j < |ds| ensures DateOf(ds[i]) != DateOf(ds[j]) {
          if i == 0 {
            assert w[j] in rest;
            var k :| 0 <= k < |rows[1..]| && rows[1..][k] == w[j];
            assert rows[k + 1] == w[j];
          } else {
            assert ds[i] == Days(rest)[i - 1] && ds[j] == Days(rest)[j - 1];
          }
        }
      }
    }
  }

  function SumJoins(s: seq<DayStats>): int {
    if s == [] then 0 else s[0].joins + SumJoins(s[1..])
  }

  function SumLeaves(s: seq<DayStats>): int {
    if s == [] then 0 else s[0].leaves + SumLeaves(s[1..])
  }

  function SumNet(s: seq<DayStats>): int {
    if s == [] then 0 else s[0].net + SumNet(s[1..])
  }

  lemma {:induction false} SumNetIsDifference(s: seq<DayStats>)
    requires forall i :: 0 <= i < |s| ==> s[i].net == s[i].joins - s[i].leaves
    ensures SumNet(s) == SumJoins(s) - SumLeaves(s)
  {
    if s != [] {
      SumNetIsDifference(s[1..]);
    }
  }

  /** The `SUM`/`COUNT(*)` row of `getStatsRange`; SQL's SUM over no rows is NULL. */
  datatype RangeStats = RangeStats(totalJoins: Option<int>, totalLeaves: Option<int>, net: Option<int>, daysWithData: nat)

  function RangeOf(rows: seq<StatRow>, g: GuildId, start: Date, end: Date): (r: RangeStats)
    ensures r.daysWithData == |Window(rows, g, start, end)|
    ensures r.totalJoins.None? <==> r.daysWithData == 0
    ensures r.totalLeaves.None? <==> r.daysWithData == 0
    ensures r.net.None? <==> r.daysWithData == 0
    ensures r.net.Some? ==> r.net.value == r.totalJoins.value - r.totalLeaves.value
  {
    var w := Days(Window(rows, g, start, end));
    if w == [] then RangeStats(None, None, None, 0)
    else
      SumNetIsDifference(w);
      RangeStats(Some(SumJoins(w)), Some(SumLeaves(w)), Some(SumNet(w)), |w|)
  }

  /** `getDailyBreakdown`: the window's rows, `ORDER BY date DESC`. */
  function Breakdown(rows: seq<StatRow>, g: GuildId, start: Date, end: Date): (r: seq<DayStats>)
    ensures multiset(r) == multiset(Days(Window(rows, g, start, end)))
    ensures |r| == |Window(rows, g, start, end)|
  {
    SortDesc(Days(Window(rows, g, start, end)), DateOf)
  }

  lemma {:induction false} SumsOfInsert(x: DayStats, s: seq<DayStats>)
    ensures SumJoins(InsertDesc(x, s, DateOf)) == x.joins + SumJoins(s)
    ensures SumLeaves(InsertDesc(x, s, DateOf)) == x.leaves + SumLeaves(s)
  {
    if s != [] && !LexLe(DateOf(s[0]), DateOf(x)) {
      SumsOfInsert(x, s[1..]);
      assert ([s[0]] + InsertDesc(x, s[1..], DateOf))[1..] == InsertDesc(x, s[1..], DateOf);
    } else {
      assert ([x] + s)[1..] == s;
    }
  }

  lemma {:induction false} SumsOfSort(s: seq<DayStats>)
    ensures SumJoins(SortDesc(s, DateOf)) == SumJoins(s)
    ensures SumLeaves(SortDesc(s, DateOf)) == SumLeaves(s)
  {
    if s != [] {
      SumsOfSort(s[1..]);
      SumsOfInsert(s[0], SortDesc(s[1..], DateOf));
    }
  }

  /**
   * The breakdown lists exactly this guild's rows inside the window, newest
   * date first with no date twice.
   */
  lemma BreakdownMembers(rows: seq<StatRow>, g: GuildId, start: Date, end: Date)
    requires UniqueDays(rows)
    ensures var b := Breakdown(rows, g, start, end);
      && (forall i, j :: 0 <= i < j < |b| ==> LexLt(b[j].date, b[i].date))
      && (forall s :: s in b <==> exists row :: row in rows && InWindow(row, g, start, end) && s == ToDayStats(row))
      && (forall i :: 0 <= i < |b| ==> b[i].net == b[i].joins - b[i].leaves)
  {
    var w := Window(rows, g, start, end);
    var ds := Days(w);
    var b := Breakdown(rows, g, start, end);
    WindowDistinct(rows, g, start, end);
    SortDescStrict(ds, DateOf);
    forall s ensures s in b <==> exists row :: row in rows && InWindow(row, g, start, end) && s == ToDayStats(row) {
      assert s in b <==> s in multiset(ds);
      if s in ds {
        var k :| 0 <= k < |ds| && ds[k] == s;
        assert w[k] in rows && InWindow(w[k], g, start, end);
      }
      if exists row :: row in rows && InWindow(row, g, start, end) && s == ToDayStats(row) {
        var row :| row in rows && InWindow(row, g, start, end) && s == ToDayStats(row);
        var k :| 0 <= k < |w| && w[k] == row;
        assert ds[k] == s;
      }
    }
    forall i | 0 <= i < |b| ensures b[i].net == b[i].joins - b[i].leaves {
      assert b[i] in multiset(ds);
    }
  }

  /** The breakdown has one entry per day the range counts, and the same totals. */
  lemma BreakdownMatchesRange(rows: seq<StatRow>, g: GuildId, start: Date, end: Date)
    ensures var b := Breakdown(rows, g, start, end);
      && |b| == RangeOf(rows, g, start, end).daysWithData
      && SumJoins(b) == RangeOf(rows, g, start, end).totalJoins.GetOr(0)
      && SumLeaves(b) == RangeOf(rows, g, start, end).totalLeaves.GetOr(0)
  {
    var ds := Days(Window(rows, g, start, end));
    var b := Breakdown(rows, g, start, end);
    SumsOfSort(ds);
    assert |b| == |multiset(b)| == |multiset(ds)| == |ds|;
  }


  /** The three tables. */
  class Store {
    var configs: map<GuildId, GuildConfig>
    var dailyStats: seq<StatRow>
    var memberEvents: seq<MemberEvent>

    ghost predicate Valid()
      reads this
    {
      UniqueDays(dailyStats)
    }

    constructor ()
      ensures Valid()
      ensures configs == map[] && dailyStats == [] && memberEvents == []
    {
      configs := map[];
      dailyStats := [];
      memberEvents := [];
    }

    function GetGuildConfig(g: GuildId): (r: Option<GuildConfig>)
      reads this
      ensures r.Some? <==> g in configs
      ensures r.Some? ==> r.value == configs[g]
    {
      Lookup(configs, g)
    }

    /** The zone the store buckets guild `g` by. */
    function TimezoneFor(g: GuildId): (tz: Timezone)
      reads this
      ensures tz != ""
      ensures g in configs && configs[g].timezone != "" ==> tz == configs[g].timezone
      ensures g !in configs || configs[g].timezone == "" ==> tz == "UTC"
    {
      TimezoneOf(Lookup(configs, g))
    }

    method SetGuildConfig(g: GuildId, patch: ConfigPatch) returns (cfg: GuildConfig)
      modifies this`configs
      ensures configs == old(configs)[g := ApplyPatch(Lookup(old(configs), g), patch)]
      ensures cfg == configs[g]
    {
      cfg := ApplyPatch(Lookup(configs, g), patch);
      configs := configs[g := cfg];
    }

    function GetAllEnabledGuilds(): (r: map<GuildId, GuildConfig>)
      reads this
      ensures forall g :: g in r <==> g in configs && configs[g].enabled == 1 && configs[g].reportChannelId.Some?
      ensures forall g :: g in r ==> r[g] == configs[g]
    {
      EnabledGuilds(configs)
    }

    method EnsureTodayExists(g: GuildId, tz: Timezone, clock: Clock)
      requires Valid()
      modifies this`dailyStats
      ensures Valid()
      ensures dailyStats == EnsureRow(old(dailyStats), g, clock.Today(tz))
    {
      dailyStats := EnsureRow(dailyStats, g, clock.Today(tz));
    }

    method Record(g: GuildId, userId: string, username: string, kind: EventKind, clock: Clock)
      requires Valid()
      modifies this`dailyStats, this`memberEvents
      ensures Valid()
      ensures dailyStats == RecordOn(old(dailyStats), g, clock.Today(TimezoneFor(g)), kind)
      ensures memberEvents == old(memberEvents) + [MemberEvent(g, userId, username, kind, clock.instant)]
    {
      var tz := TimezoneOf(Lookup(configs, g));
      EnsureTodayExists(g, tz, clock);
      var today := clock.Today(tz);
      RecordCountsOne(old(dailyStats), g, today, kind);
      dailyStats := Bump(dailyStats, g, today, kind);
      memberEvents := memberEvents + [MemberEvent(g, userId, username, kind, clock.instant)];
    }

    method RecordJoin(g: GuildId, userId: string, username: string, clock: Clock)
      requires Valid()
      modifies this`dailyStats, this`memberEvents
      ensures Valid()
      ensures dailyStats == RecordOn(old(dailyStats), g, clock.Today(TimezoneFor(g)), Join)
      ensures memberEvents == old(memberEvents) + [MemberEvent(g, userId, username, Join, clock.instant)]
    {
      Record(g, userId, username, Join, clock);
    }

    method RecordLeave(g: GuildId, userId: string, username: string, clock: Clock)
      requires Valid()
      modifies this`dailyStats, this`memberEvents
      ensures Valid()
      ensures dailyStats == RecordOn(old(dailyStats), g, clock.Today(TimezoneFor(g)), Leave)
      ensures memberEvents == old(memberEvents) + [MemberEvent(g, userId, username, Leave, clock.instant)]
    {
      Record(g, userId, username, Leave, clock);
    }

    /** Always yields today's row, creating a zero row first when needed. */
    method GetTodayStats(g: GuildId, clock: Clock) returns (stats: DayStats)
      requires Valid()
      modifies this`dailyStats
      ensures Valid()
      ensures dailyStats == EnsureRow(old(dailyStats), g, clock.Today(TimezoneFor(g)))
      ensures stats == ToDayStats(Find(old(dailyStats), g, clock.Today(TimezoneFor(g))).GetOr(StatRow(g, clock.Today(TimezoneFor(g)), 0, 0)))
      ensures stats.date == clock.Today(TimezoneFor(g)) && stats.net == stats.joins - stats.leaves
    {
      var tz := TimezoneOf(Lookup(configs, g));
      EnsureTodayExists(g, tz, clock);
      var row := Find(dailyStats, g, clock.Today(tz));
      stats := ToDayStats(row.value);
    }

    /** Yesterday's row if there is one; never creates a row. */
    function GetYesterdayStats(g: GuildId, clock: Clock): (r: Option<DayStats>)
      reads this
      ensures r.Some? <==> Find(dailyStats, g, clock.Yesterday(TimezoneFor(g))).Some?
      ensures r.Some? ==> r.value.date == clock.Yesterday(TimezoneFor(g)) && r.value.net == r.value.joins - r.value.leaves
      ensures r.Some? ==> exists row :: row in dailyStats && IsRowOf(row, g, clock.Yesterday(TimezoneFor(g))) && r.value == ToDayStats(row)
    {
      var row := Find(dailyStats, g, clock.Yesterday(TimezoneOf(Lookup(configs, g))));
      if row.Some? then Some(ToDayStats(row.value)) else None
    }

    /** The window of the last `days` days: from `days - 1` days back to today. */
    function WindowStart(g: GuildId, days: int, clock: Clock): (start: Date)
      reads this
      ensures days == 1 ==> start == clock.Today(TimezoneFor(g))
    {
      clock.dateBack(days - 1, TimezoneFor(g))
    }

    /**
     * `getStatsRange`: one aggregate row over the window. `COUNT(*)` is the
     * number of days in the window that have a row; the SUMs are NULL
     * exactly when there is none.
     */
    function GetStatsRange(g: GuildId, days: int, clock: Clock): (r: RangeStats)
      reads this
      ensures r.daysWithData == |Window(dailyStats, g, WindowStart(g, days, clock), clock.Today(TimezoneFor(g)))|
      ensures r.totalJoins.None? <==> r.daysWithData == 0
      ensures r.totalLeaves.None? <==> r.daysWithData == 0
      ensures r.net.None? <==> r.daysWithData == 0
      ensures r.net.Some? ==> r.net.value == r.totalJoins.value - r.totalLeaves.value
      ensures r == RangeOf(dailyStats, g, WindowStart(g, days, clock), clock.Today(TimezoneFor(g)))
    {
      RangeOf(dailyStats, g, WindowStart(g, days, clock), clock.Today(TimezoneFor(g)))
    }

    /**
     * `getDailyBreakdown`: the window's rows, newest date first, one per
     * day, agreeing with `getStatsRange` over the same window.
     */
    function GetDailyBreakdown(g: GuildId, days: int, clock: Clock): (r: seq<DayStats>)
      requires Valid()
      reads this
      ensures forall i, j :: 0 <= i < j < |r| ==> LexLt(r[j].date, r[i].date)
      ensures forall s :: s in r <==>
        exists row :: row in dailyStats && InWindow(row, g, WindowStart(g, days, clock), clock.Today(TimezoneFor(g))) && s == ToDayStats(row)
      ensures forall i :: 0 <= i < |r| ==> r[i].net == r[i].joins - r[i].leaves
      ensures |r| == GetStatsRange(g, days, clock).daysWithData
      ensures SumJoins(r) == GetStatsRange(g, days, clock).totalJoins.GetOr(0)
      ensures SumLeaves(r) == GetStatsRange(g, days, clock).totalLeaves.GetOr(0)
      ensures r == Breakdown(dailyStats, g, WindowStart(g, days, clock), clock.Today(TimezoneFor(g)))
    {
      var start, end := WindowStart(g, days, clock), clock.Today(TimezoneFor(g));
      BreakdownMembers(dailyStats, g, start, end);
      BreakdownMatchesRange(dailyStats, g, start, end);
      Breakdown(dailyStats, g, start, end)
    }
  }
}
