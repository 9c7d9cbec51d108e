/**
 * The per-guild report scheduler: the registry of running cron tasks (at
 * most one per guild), the conversion of a report time into a cron
 * expression, the content of the daily report and the decision of
 * `sendDailyReportForGuild`. A task handle is an opaque number; stopping it
 * is recorded in the ghost set `stopped`.
 */
module Scheduler {
  import opened Wrappers
  import opened Text
  import opened Trend
  import opened Database

  /**
   * One element of `reportTime.split(':').map(Number)` as it reaches the
   * template string: an index past the end of the split is `undefined`,
   * a piece `Number` cannot read is NaN, anything else a number.
   */
  datatype Piece = Missing | NaN | Num(value: nat)

  /** `Number(piece)` for a piece of the split; only digit strings are read. */
  function ToNumber(piece: string): (n: Piece)
    ensures n != Missing
    ensures piece == "" ==> n == Num(0)
    ensures AllDigits(piece) ==> n == Num(DigitsValue(piece))
    ensures !AllDigits(piece) ==> n == NaN
  {
    if AllDigits(piece) then Num(DigitsValue(piece)) else NaN
  }

  /** Element `i` of the mapped split: `undefined` past its end. */
  function PieceAt(parts: seq<string>, i: nat): (n: Piece)
    ensures n.Missing? <==> i >= |parts|
    ensures i < |parts| ==> n == ToNumber(parts[i])
  {
    if i < |parts| then ToNumber(parts[i]) else Missing
  }

  /** How a piece is interpolated into a template string. */
  function PieceText(n: Piece): string {
    match n
    case Missing => "undefined"
    case NaN => "NaN"
    case Num(v) => NatToString(v)
  }

  /** `const [hours, minutes] = reportTime.split(':').map(Number)`. */
  function TimeFields(reportTime: string): (fields: (Piece, Piece))
    ensures fields.0 != Missing
    ensures ':' !in reportTime ==> fields == (ToNumber(reportTime), Missing)
    ensures ':' in reportTime ==> fields.1 != Missing
  {
    var parts := SplitColon(reportTime);
    (PieceAt(parts, 0), PieceAt(parts, 1))
  }

  /** `${minutes} ${hours} * * *`: daily at that hour and minute. */
  function CronExpression(reportTime: string): (cron: string)
    ensures |cron| >= 6 && cron[|cron| - 6..] == " * * *"
  {
    var (hours, minutes) := TimeFields(reportTime);
    PieceText(minutes) + " " + PieceText(hours) + " * * *"
  }

  /** A time without a colon leaves the minute field `undefined`. */
  lemma CronWithoutColon(reportTime: string)
    requires ':' !in reportTime
    ensures CronExpression(reportTime) == "undefined " + PieceText(ToNumber(reportTime)) + " * * *"
  {
  }

  /** A stored hour without minutes, such as `10`, gives `undefined 10 * * *`. */
  lemma HourOnlyCron()
    ensures CronExpression("10") == "undefined 10 * * *"
  {
    CronWithoutColon("10");
    assert AllDigits("10") && DigitsValue("10") == 10;
    assert NatToString(10) == "10";
  }

  /** A running cron task: its handle and the trigger it was created with. */
  datatype Task = Task(handle: nat, cron: string, timezone: Timezone)

  /** The handle `stop()` is called on when guild `g`'s entry is replaced or removed. */
  function StopSet(tasks: map<GuildId, Task>, g: GuildId): (s: set<nat>)
    ensures g in tasks ==> s == {tasks[g].handle}
    ensures g !in tasks ==> s == {}
  {
    if g in tasks then {tasks[g].handle} else {}
  }

  /** The handles of the tasks of the guilds in `keys`. */
  ghost function Replaced(tasks: map<GuildId, Task>, keys: set<GuildId>): set<nat> {
    set g | g in tasks && g in keys :: tasks[g].handle
  }

  lemma ReplacedAdd(tasks: map<GuildId, Task>, keys: set<GuildId>, g: GuildId)
    ensures Replaced(tasks, keys + {g}) == Replaced(tasks, keys) + StopSet(tasks, g)
  {
  }

  /** `config.report_time || '10:00'`. */
  function ReportTimeOf(c: GuildConfig): (t: string)
    ensures t != ""
    ensures c.reportTime != "" ==> t == c.reportTime
  {
    if c.reportTime != "" then c.reportTime else DefaultReportTime
  }

  /**
   * What `refreshGuildScheduler` does: `None` when the config is missing,
   * disabled (`enabled` falsy) or without a channel (null or empty), so the
   * task is stopped; otherwise the report time and zone to schedule with.
   */
  function RefreshPlan(c: Option<GuildConfig>): (plan: Option<(string, Timezone)>)
    ensures plan.None? <==> c.None? || c.value.enabled == 0 || OrNull(c.value.reportChannelId).None?
    ensures plan.Some? ==> plan.value == (ReportTimeOf(c.value), TimezoneOf(c))
    ensures plan.Some? ==> plan.value.0 != "" && plan.value.1 != ""
  {
    if c.None? || c.value.enabled == 0 || OrNull(c.value.reportChannelId).None? then None
    else Some((ReportTimeOf(c.value), TimezoneOf(c)))
  }

  /** The registry after refreshing guild `g`, the new task taking handle `h`. */
  function RefreshedTasks(tasks: map<GuildId, Task>, c: Option<GuildConfig>, g: GuildId, h: nat): (r: map<GuildId, Task>)
    ensures g in r <==> RefreshPlan(c).Some?
    ensures g in r ==> r[g] == Task(h, CronExpression(RefreshPlan(c).value.0), RefreshPlan(c).value.1)
    ensures forall g' :: g' != g ==> (g' in r <==> g' in tasks) && (g' in r ==> r[g'] == tasks[g'])
  {
    match RefreshPlan(c)
    case None => tasks - {g}
    case Some((time, tz)) => tasks[g := Task(h, CronExpression(time), tz)]
  }

  /** The handles of the tasks registered in `tasks`. */
  ghost function Handles(tasks: map<GuildId, Task>): set<nat> {
    set g | g in tasks :: tasks[g].handle
  }

  /**
   * No leaked timers: every task handle issued so far (all below `next`) is
   * either still registered or has been stopped, never both; no two guilds
   * share a task.
   */
  ghost predicate NoLeak(tasks: map<GuildId, Task>, next: nat, stopped: set<nat>) {
    && (forall g :: g in tasks ==> tasks[g].handle < next && tasks[g].handle !in stopped)
    && (forall g, g' :: g in tasks && g' in tasks && tasks[g].handle == tasks[g'].handle ==> g == g')
    && (forall h :: h in stopped ==> h < next)
    && (forall h :: 0 <= h < next && h !in stopped ==> h in Handles(tasks))
  }

  /** Stopping a guild's task (if any) and registering a fresh one leaks nothing. */
  lemma ReplaceKeepsNoLeak(tasks: map<GuildId, Task>, next: nat, stopped: set<nat>, g: GuildId, cron: string, tz: Timezone)
    requires NoLeak(tasks, next, stopped)
    ensures NoLeak(tasks[g := Task(next, cron, tz)], next + 1, stopped + StopSet(tasks, g))
  {
    var tasks', stopped' := tasks[g := Task(next, cron, tz)], stopped + StopSet(tasks, g);
    forall h | 0 <= h < next + 1 && h !in stopped' ensures h in Handles(tasks') {
      if h == next {
        assert tasks'[g].handle == h;
      } else {
        var k :| k in tasks && tasks[k].handle == h;
        assert k != g;
        assert tasks'[k].handle == h;
      }
    }
  }

  /** Stopping and removing a guild's task (if any) leaks nothing. */
  lemma RemoveKeepsNoLeak(tasks: map<GuildId, Task>, next: nat, stopped: set<nat>, g: GuildId)
    requires NoLeak(tasks, next, stopped)
    ensures NoLeak(tasks - {g}, next, stopped + StopSet(tasks, g))
  {
    var tasks', stopped' := tasks - {g}, stopped + StopSet(tasks, g);
    forall h | 0 <= h < next && h !in stopped' ensures h in Handles(tasks') {
      var k :| k in tasks && tasks[k].handle == h;
      assert k != g;
      assert tasks'[k].handle == h;
    }
  }

  /** Stopping every task and clearing the map leaks nothing. */
  lemma ClearKeepsNoLeak(tasks: map<GuildId, Task>, next: nat, stopped: set<nat>)
    requires NoLeak(tasks, next, stopped)
    ensures NoLeak(map[], next, stopped + Handles(tasks))
  {
    var stopped' := stopped + Handles(tasks);
    forall h | h in stopped' ensures h < next {
      if h !in stopped {
        var k :| k in tasks && tasks[k].handle == h;
      }
    }
  }

  /** The `scheduledTasks` map. */
  class Registry {
    var tasks: map<GuildId, Task>
    var nextHandle: nat
    ghost var stopped: set<nat>

    ghost predicate Valid()
      reads this
    {
      NoLeak(tasks, nextHandle, stopped)
    }

    constructor ()
      ensures Valid()
      ensures tasks == map[] && nextHandle == 0 && stopped == {}
    {
      tasks := map[];
      nextHandle := 0;
      stopped := {};
    }

    /** `scheduleGuildReport`: stop the guild's old task, then register a new one. */
    method ScheduleGuildReport(g: GuildId, reportTime: string, tz: Timezone)
      requires Valid()
      modifies this
      ensures Valid()
      ensures tasks == old(tasks)[g := Task(old(nextHandle), CronExpression(reportTime), tz)]
      ensures stopped == old(stopped) + StopSet(old(tasks), g)
      ensures nextHandle == old(nextHandle) + 1
    {
      ReplaceKeepsNoLeak(tasks, nextHandle, stopped, g, CronExpression(reportTime), tz);
      if g in tasks {
        stopped := stopped + {tasks[g].handle};
      }
      tasks := tasks[g := Task(nextHandle, CronExpression(reportTime), tz)];
      nextHandle := nextHandle + 1;
    }

    /** `stopGuildScheduler`: stop and remove the guild's task; nothing happens when it has none. */
    method StopGuildScheduler(g: GuildId)
      requires Valid()
      modifies this
      ensures Valid()
      ensures tasks == old(tasks) - {g}
      ensures stopped == old(stopped) + StopSet(old(tasks), g)
      ensures nextHandle == old(nextHandle)
    {
      RemoveKeepsNoLeak(tasks, nextHandle, stopped, g);
      if g in tasks {
        stopped := stopped + {tasks[g].handle};
        tasks := tasks - {g};
      }
    }

    /** `stopAllSchedulers`: stop every registered task, then clear the map. */
    method StopAllSchedulers()
      requires Valid()
      modifies this
      ensures Valid()
      ensures tasks == map[]
      ensures stopped == old(stopped) + Handles(old(tasks))
      ensures nextHandle == old(nextHandle)
    {
      ClearKeepsNoLeak(tasks, nextHandle, stopped);
      ghost var stopped0 := stopped;
      var pending := tasks.Keys;
      while pending != {}
        invariant pending <= tasks.Keys
        invariant tasks == old(tasks) && nextHandle == old(nextHandle)
        invariant stopped == stopped0 + Replaced(tasks, tasks.Keys - pending)
        decreases pending
      {
        var g :| g in pending;
        ReplacedAdd(tasks, tasks.Keys - pending, g);
        assert tasks.Keys - (pending - {g}) == (tasks.Keys - pending) + {g};
        stopped := stopped + {tasks[g].handle};
        pending := pending - {g};
      }
      assert Replaced(tasks, tasks.Keys) == Handles(tasks);
      tasks := map[];
    }

    /** `refreshGuildScheduler`: re-derive the guild's task from its stored config. */
    method RefreshGuildScheduler(store: Store, g: GuildId)
      requires Valid()
      modifies this
      ensures Valid()
      ensures tasks == RefreshedTasks(old(tasks), store.GetGuildConfig(g), g, old(nextHandle))
      ensures stopped == old(stopped) + StopSet(old(tasks), g)
      ensures nextHandle == old(nextHandle) + (if RefreshPlan(store.GetGuildConfig(g)).Some? then 1 else 0)
    {
      var plan := RefreshPlan(store.GetGuildConfig(g));
      if plan.None? {
        StopGuildScheduler(g);
      } else {
        ScheduleGuildReport(g, plan.value.0, plan.value.1);
      }
    }

    /** One round of `startAllSchedulers`: schedule the pending guild `g` from its config. */
    method ScheduleNext(guilds: map<GuildId, GuildConfig>, pending: set<GuildId>, g: GuildId,
                        ghost tasks0: map<GuildId, Task>, ghost stopped0: set<nat>, ghost next0: nat)
      requires Valid() && g in pending && pending <= guilds.Keys && next0 <= nextHandle
      requires StartedAll(tasks, tasks0, guilds, pending, next0)
      requires stopped == stopped0 + Replaced(tasks0, guilds.Keys - pending)
      modifies this
      ensures Valid() && next0 <= nextHandle
      ensures StartedAll(tasks, tasks0, guilds, pending - {g}, next0)
      ensures stopped == stopped0 + Replaced(tasks0, guilds.Keys - (pending - {g}))
      ensures nextHandle == old(nextHandle) + 1
    {
      ghost var before := tasks;
      StoppedOneMore(before, tasks0, guilds, pending, next0, g);
      ScheduleGuildReport(g, ReportTimeOf(guilds[g]), TimezoneOf(Some(guilds[g])));
      StartedOneMore(before, tasks0, guilds, pending, next0, g, nextHandle - 1);
    }

    /** `startAllSchedulers`: one task per guild `getAllEnabledGuilds` returns. */
    method StartAllSchedulers(store: Store)
      requires Valid()
      modifies this
      ensures Valid()
      ensures StartedAll(tasks, old(tasks), store.GetAllEnabledGuilds(), {}, old(nextHandle))
      ensures stopped == old(stopped) + Replaced(old(tasks), store.GetAllEnabledGuilds().Keys)
      ensures nextHandle == old(nextHandle) + |store.GetAllEnabledGuilds()|
    {
      var guilds := store.GetAllEnabledGuilds();
      ghost var tasks0, stopped0, next0 := tasks, stopped, nextHandle;
      var pending := guilds.Keys;
      while pending != {}
        invariant Valid()
        invariant pending <= guilds.Keys
        invariant next0 <= nextHandle && nextHandle + |pending| == next0 + |guilds|
        invariant StartedAll(tasks, tasks0, guilds, pending, next0)
        invariant stopped == stopped0 + Replaced(tasks0, guilds.Keys - pending)
        decreases pending
      {
        var g :| g in pending;
        ScheduleNext(guilds, pending, g, tasks0, stopped0, next0);
        pending := pending - {g};
      }
      assert guilds.Keys - pending == guilds.Keys;
    }
  }

  /**
   * `tasks` is `tasks0` after scheduling every guild of `guilds` outside
   * `pending` from its config, with handles from `next0` on; the guilds
   * not (yet) scheduled keep their old tasks.
   */
  ghost predicate StartedAll(tasks: map<GuildId, Task>, tasks0: map<GuildId, Task>, guilds: map<GuildId, GuildConfig>,
                             pending: set<GuildId>, next0: nat)
  {
    && (forall g :: g in tasks <==> g in tasks0 || (g in guilds && g !in pending))
    && (forall g :: g in guilds && g !in pending ==>
          && tasks[g].cron == CronExpression(ReportTimeOf(guilds[g]))
          && tasks[g].timezone == TimezoneOf(Some(guilds[g]))
          && next0 <= tasks[g].handle)
    && (forall g :: g in tasks0 && (g !in guilds || g in pending) ==> tasks[g] == tasks0[g])
  }

  lemma StartedOneMore(tasks: map<GuildId, Task>, tasks0: map<GuildId, Task>, guilds: map<GuildId, GuildConfig>,
                       pending: set<GuildId>, next0: nat, g: GuildId, h: nat)
    requires StartedAll(tasks, tasks0, guilds, pending, next0)
    requires g in pending && pending <= guilds.Keys && next0 <= h
    ensures StartedAll(tasks[g := Task(h, CronExpression(ReportTimeOf(guilds[g])), TimezoneOf(Some(guilds[g])))],
                       tasks0, guilds, pending - {g}, next0)
  {
    var t := tasks[g := Task(h, CronExpression(ReportTimeOf(guilds[g])), TimezoneOf(Some(guilds[g])))];
    StartedKeys(tasks, tasks0, guilds, pending, next0, g, h, t);
    StartedScheduled(tasks, tasks0, guilds, pending, next0, g, h, t);
    StartedUntouched(tasks, tasks0, guilds, pending, next0, g, h, t);
  }

  lemma StartedKeys(tasks: map<GuildId, Task>, tasks0: map<GuildId, Task>, guilds: map<GuildId, GuildConfig>,
                    pending: set<GuildId>, next0: nat, g: GuildId, h: nat, t: map<GuildId, Task>)
    requires StartedAll(tasks, tasks0, guilds, pending, next0)
    requires g in pending && pending <= guilds.Keys
    requires t == tasks[g := Task(h, CronExpression(ReportTimeOf(guilds[g])), TimezoneOf(Some(guilds[g])))]
    ensures forall k :: k in t <==> k in tasks0 || (k in guilds && k !in pending - {g})
  {
    forall k ensures k in t <==> k in tasks0 || (k in guilds && k !in pending - {g}) {
      assert k in t <==> k in tasks || k == g;
    }
  }

  lemma StartedScheduled(tasks: map<GuildId, Task>, tasks0: map<GuildId, Task>, guilds: map<GuildId, GuildConfig>,
                         pending: set<GuildId>, next0: nat, g: GuildId, h: nat, t: map<GuildId, Task>)
    requires StartedAll(tasks, tasks0, guilds, pending, next0)
    requires g in pending && pending <= guilds.Keys && next0 <= h
    requires t == tasks[g := Task(h, CronExpression(ReportTimeOf(guilds[g])), TimezoneOf(Some(guilds[g])))]
    ensures forall k :: k in guilds && k !in pending - {g} ==>
          && t[k].cron == CronExpression(ReportTimeOf(guilds[k]))
          && t[k].timezone == TimezoneOf(Some(guilds[k]))
          && next0 <= t[k].handle
  {
    forall k | k in guilds && k !in pending - {g}
      ensures && t[k].cron == CronExpression(ReportTimeOf(guilds[k]))
              && t[k].timezone == TimezoneOf(Some(guilds[k]))
              && next0 <= t[k].handle
    {
      if k != g {
        assert k !in pending && t[k] == tasks[k];
      }
    }
  }

  lemma StartedUntouched(tasks: map<GuildId, Task>, tasks0: map<GuildId, Task>, guilds: map<GuildId, GuildConfig>,
                         pending: set<GuildId>, next0: nat, g: GuildId, h: nat, t: map<GuildId, Task>)
    requires StartedAll(tasks, tasks0, guilds, pending, next0)
    requires g in pending && pending <= guilds.Keys
    requires t == tasks[g := Task(h, CronExpression(ReportTimeOf(guilds[g])), TimezoneOf(Some(guilds[g])))]
    ensures forall k :: k in tasks0 && (k !in guilds || k in pending - {g}) ==> t[k] == tasks0[k]
  {
    forall k | k in tasks0 && (k !in guilds || k in pending - {g}) ensures t[k] == tasks0[k] {
      assert k != g && k in tasks;
    }
  }

  /** The next guild scheduled stops exactly its own old task, if it had one. */
  lemma StoppedOneMore(tasks: map<GuildId, Task>, tasks0: map<GuildId, Task>, guilds: map<GuildId, GuildConfig>,
                       pending: set<GuildId>, next0: nat, g: GuildId)
    requires StartedAll(tasks, tasks0, guilds, pending, next0)
    requires g in pending && pending <= guilds.Keys
    ensures Replaced(tasks0, guilds.Keys - pending) + StopSet(tasks, g) == Replaced(tasks0, guilds.Keys - (pending - {g}))
  {
    assert StopSet(tasks, g) == StopSet(tasks0, g);
    ReplacedAdd(tasks0, guilds.Keys - pending, g);
    assert guilds.Keys - (pending - {g}) == (guilds.Keys - pending) + {g};
  }

  // ==================== report content ====================

  datatype Field = Field(name: string, value: string, inline: bool)

  /** The report embed's figures and fields (title, date line and timestamp aside). */
  datatype DailyReport = DailyReport(summary: NetSummary, fields: seq<Field>)

  /** The `{ joins: 0, leaves: 0, net: 0 }` stand-in for a day without a row. */
  const ZeroStats: DayStats := DayStats("", 0, 0, 0)

  /** The joins and leaves a report shows: those of the row, zero without one. */
  function Figures(stats: Option<DayStats>): (f: (int, int))
    ensures stats.Some? ==> f == (stats.value.joins, stats.value.leaves)
    ensures stats.None? ==> f == (0, 0)
  {
    if stats.Some? then (stats.value.joins, stats.value.leaves) else (0, 0)
  }

  /** `createDailyReportEmbed`: three figure fields, then Total Members only when known. */
  function CreateDailyReport(stats: Option<DayStats>, totalMembers: Option<nat>): (r: DailyReport)
    ensures r.summary == Summarize(Figures(stats).0, Figures(stats).1)
    ensures |r.fields| == 4 <==> totalMembers.Some?
    ensures |r.fields| == 3 <==> totalMembers.None?
    ensures |r.fields| >= 3 && r.fields[0].name == "Joined" && r.fields[1].name == "Left" && r.fields[2].name == "Net Change"
    ensures totalMembers.Some? ==> r.fields[3] == Field("Total Members", NatToString(totalMembers.value), false)
  {
    var (joins, leaves) := Figures(stats);
    var summary := Summarize(joins, leaves);
    var base := [
      Field("Joined", IntToString(joins), true),
      Field("Left", IntToString(leaves), true),
      Field("Net Change", summary.display, true)];
    DailyReport(summary,
      if totalMembers.Some? then base + [Field("Total Members", NatToString(totalMembers.value), false)] else base)
  }

  /** The three figure fields read back as the day's joins, leaves and net change. */
  lemma ReportFiguresReadBack(stats: Option<DayStats>, totalMembers: Option<nat>)
    ensures var r := CreateDailyReport(stats, totalMembers);
      && ParseSigned(r.fields[0].value) == Some(Figures(stats).0)
      && ParseSigned(r.fields[1].value) == Some(Figures(stats).1)
      && ParseSigned(r.fields[2].value) == Some(Figures(stats).0 - Figures(stats).1)
  {
    var f := Figures(stats);
    var r := CreateDailyReport(stats, totalMembers);
    ToStringReadsBack(f.0);
    ToStringReadsBack(f.1);
    assert r.fields[..3] == [
      Field("Joined", IntToString(f.0), true),
      Field("Left", IntToString(f.1), true),
      Field("Net Change", Summarize(f.0, f.1).display, true)];
  }

  lemma ToStringReadsBack(n: int)
    ensures ParseSigned(IntToString(n)) == Some(n)
  {
    SignedDisplayRoundTrip(n);
    if n > 0 {
      NatToStringRoundTrip(n);
    }
  }

  /** A report for a day without a row is the report of a zero day. */
  lemma MissingStatsAreZero(totalMembers: Option<nat>)
    ensures CreateDailyReport(None, totalMembers) == CreateDailyReport(Some(ZeroStats), totalMembers)
  {
  }

  /** What `sendDailyReportForGuild` ends with. */
  datatype Delivery = NotConfigured | ChannelNotFound | Sent(channelId: string, report: DailyReport)

  /**
   * `sendDailyReportForGuild`: nothing is sent without a config and a
   * channel; otherwise the report covers yesterday's row (zero-filled when
   * absent). `channelFound` and `totalMembers` are the results of the two
   * Discord fetches (a failed member-count fetch is `None`).
   */
  function DailyReportFor(store: Store, g: GuildId, clock: Clock, channelFound: bool, totalMembers: Option<nat>): (d: Delivery)
    reads store
    ensures d.NotConfigured? <==> g !in store.configs || OrNull(store.configs[g].reportChannelId).None?
    ensures d.Sent? <==> g in store.configs && OrNull(store.configs[g].reportChannelId).Some? && channelFound
    ensures d.Sent? ==> d.channelId == store.configs[g].reportChannelId.value
    ensures d.Sent? ==> d.report == CreateDailyReport(Some(store.GetYesterdayStats(g, clock).GetOr(ZeroStats)), totalMembers)
  {
    var config := store.GetGuildConfig(g);
    if config.None? || OrNull(config.value.reportChannelId).None? then NotConfigured
    else if !channelFound then ChannelNotFound
    else Sent(config.value.reportChannelId.value,
      CreateDailyReport(Some(store.GetYesterdayStats(g, clock).GetOr(ZeroStats)), totalMembers))
  }

  /**
   * Startup and refresh disagree on a stored empty channel id: the startup
   * query selects the row (its channel is not NULL), while refresh tests the
   * id's truthiness and schedules nothing.
   */
  lemma EmptyChannelStartedButNotRefreshed(c: GuildConfig)
    requires c.enabled == 1 && c.reportChannelId == Some("")
    ensures IsEnabledRow(c)
    ensures RefreshPlan(Some(c)).None?
  {
  }

  /**
   * Where both apply, `startAllSchedulers` schedules a guild exactly as
   * `refreshGuildScheduler` would: same report time, same zone.
   */
  lemma StartAllAgreesWithRefresh(c: GuildConfig)
    requires IsEnabledRow(c) && c.reportChannelId.value != ""
    ensures RefreshPlan(Some(c)) == Some((ReportTimeOf(c), TimezoneOf(Some(c))))
  {
  }
}
