/**
 * The `/setup` command: the report-time pattern and its normalisation to
 * `HH:MM`, the timezone choices, and the subcommand dispatch that writes
 * the guild's config and then refreshes the guild's scheduled task.
 */
module Setup {
  import opened Wrappers
  import opened Text
  import opened Database
  import opened Scheduler

  // ==================== the report-time pattern ====================

  /** `[01]?[0-9]|2[0-3]`: the hour group. */
  predicate HourGroup(h: string) {
    || (|h| == 1 && IsDigit(h[0]))
    || (|h| == 2 && (h[0] == '0' || h[0] == '1') && IsDigit(h[1]))
    || (|h| == 2 && h[0] == '2' && '0' <= h[1] <= '3')
  }

  /** `[0-5][0-9]`: the minute group. */
  predicate MinuteGroup(m: string) {
    |m| == 2 && '0' <= m[0] <= '5' && IsDigit(m[1])
  }

  /**
   * `/^([01]?[0-9]|2[0-3]):([0-5][0-9])$/.test(s)`. The minute group is
   * the last two characters, so the colon is the third from the end and
   * everything before it is the hour group.
   */
  predicate IsValidTime(s: string): (ok: bool)
    ensures ok ==> 4 <= |s| <= 5 && s[|s| - 3] == ':'
  {
    |s| >= 3 && s[|s| - 3] == ':' && HourGroup(s[..|s| - 3]) && MinuteGroup(s[|s| - 2..])
  }

  function HourText(s: string): string
    requires IsValidTime(s)
  {
    s[..|s| - 3]
  }

  function MinuteText(s: string): string
    requires IsValidTime(s)
  {
    s[|s| - 2..]
  }

  /** The hour an accepted time names. */
  function HourOf(s: string): (h: nat)
    requires IsValidTime(s)
    ensures h <= 23
  {
    HourGroupRange(HourText(s));
    DigitsValue(HourText(s))
  }

  /** The minute an accepted time names. */
  function MinuteOf(s: string): (m: nat)
    requires IsValidTime(s)
    ensures m <= 59
  {
    MinuteGroupValue(MinuteText(s));
    DigitsValue(MinuteText(s))
  }

  lemma GroupsAreDigits(h: string, m: string)
    requires HourGroup(h) && MinuteGroup(m)
    ensures AllDigits(h) && AllDigits(m)
  {
    forall i | 0 <= i < |h| ensures IsDigit(h[i]) {
    }
    forall i | 0 <= i < |m| ensures IsDigit(m[i]) {
    }
  }

  /** Two-digit rendering with a leading zero. */
  function Two(n: nat): (s: string)
    requires n < 100
    ensures |s| == 2 && AllDigits(s)
  {
    [DigitChar(n / 10), DigitChar(n % 10)]
  }

  lemma DigitsValueOfOne(a: char)
    requires IsDigit(a)
    ensures DigitsValue([a]) == DigitValue(a)
  {
    assert [a][..0] == [];
  }

  lemma DigitsValueOfTwo(a: char, b: char)
    requires IsDigit(a) && IsDigit(b)
    ensures DigitsValue([a, b]) == 10 * DigitValue(a) + DigitValue(b)
  {
    assert [a, b][..1] == [a];
    DigitsValueOfOne(a);
  }

  lemma TwoReadsBack(n: nat)
    requires n < 100
    ensures DigitsValue(Two(n)) == n
  {
    DigitsValueOfTwo(DigitChar(n / 10), DigitChar(n % 10));
  }

  lemma CharRoundTrip(c: char)
    requires IsDigit(c)
    ensures DigitChar(DigitValue(c)) == c
  {
  }

  /** Two digits read as a number render back as the same two digits. */
  lemma TwoOfDigits(a: char, b: char)
    requires IsDigit(a) && IsDigit(b)
    ensures DigitsValue([a, b]) < 100 && Two(DigitsValue([a, b])) == [a, b]
  {
    DigitsValueOfTwo(a, b);
    var v := 10 * DigitValue(a) + DigitValue(b);
    assert v / 10 == DigitValue(a) && v % 10 == DigitValue(b);
    CharRoundTrip(a);
    CharRoundTrip(b);
  }

  /** The hour group reads as an hour of the day. */
  lemma HourGroupRange(h: string)
    requires HourGroup(h)
    ensures AllDigits(h) && DigitsValue(h) <= 23
  {
    if |h| == 1 {
      assert h == [h[0]];
      DigitsValueOfOne(h[0]);
    } else {
      assert h == [h[0], h[1]];
      DigitsValueOfTwo(h[0], h[1]);
    }
  }

  /** A one-digit hour padded with `padStart(2, '0')` is the two-digit rendering of its value. */
  lemma OneDigitPads(x: char)
    requires IsDigit(x)
    ensures AllDigits([x]) && DigitsValue([x]) < 100
    ensures PadStart([x], 2, '0') == Two(DigitsValue([x]))
  {
    assert PadStart([x], 2, '0') == ['0', x];
    assert DigitsValue([x]) == DigitsValue(['0', x]) by {
      DigitsValueOfOne(x);
      DigitsValueOfTwo('0', x);
    }
    TwoOfDigits('0', x);
  }

  /** The hour group padded with `padStart(2, '0')` is the two-digit rendering of its value. */
  lemma HourGroupPads(h: string)
    requires HourGroup(h)
    ensures AllDigits(h) && DigitsValue(h) < 100
    ensures PadStart(h, 2, '0') == Two(DigitsValue(h))
  {
    if |h| == 1 {
      assert h == [h[0]];
      OneDigitPads(h[0]);
    } else {
      assert h == [h[0], h[1]];
      TwoOfDigits(h[0], h[1]);
    }
  }


  /** The minute group reads as a minute of the hour and is its own two-digit rendering. */
  lemma MinuteGroupValue(m: string)
    requires MinuteGroup(m)
    ensures AllDigits(m) && DigitsValue(m) <= 59
    ensures m == Two(DigitsValue(m))
  {
    assert m == [m[0], m[1]];
    DigitsValueOfTwo(m[0], m[1]);
    TwoOfDigits(m[0], m[1]);
  }


  /**
   * Two-digit `HH:MM` texts: the pattern accepts exactly those naming an
   * hour of the day and a minute of the hour.
   */
  lemma TwoDigitTimes(h: nat, m: nat)
    requires h < 100 && m < 100
    ensures IsValidTime(Two(h) + ":" + Two(m)) <==> h <= 23 && m <= 59
  {
    var s := Two(h) + ":" + Two(m);
    assert s[..|s| - 3] == Two(h);
    assert s[|s| - 2..] == Two(m);
  }

  /** With a one-digit hour (`9:30`) only the minute is constrained. */
  lemma OneDigitHourTimes(h: nat, m: nat)
    requires h < 10 && m < 100
    ensures IsValidTime([DigitChar(h)] + ":" + Two(m)) <==> m <= 59
  {
    var s := [DigitChar(h)] + ":" + Two(m);
    assert s[..|s| - 3] == [DigitChar(h)];
    assert s[|s| - 2..] == Two(m);
  }

  /**
   * The converse: every accepted time is `HH:MM` or `H:MM` written in
   * digits, so the two lemmas above describe all the pattern accepts.
   */
  lemma AcceptedIsDigitForm(s: string)
    requires IsValidTime(s)
    ensures || (|s| == 5 && s == Two(HourOf(s)) + ":" + Two(MinuteOf(s)))
            || (|s| == 4 && HourOf(s) < 10 && s == [DigitChar(HourOf(s))] + ":" + Two(MinuteOf(s)))
  {
    var h, m := HourText(s), MinuteText(s);
    assert s == h + ":" + m;
    HourGroupRange(h);
    MinuteGroupValue(m);
    if |h| == 1 {
      assert h == [h[0]];
      DigitsValueOfOne(h[0]);
      CharRoundTrip(h[0]);
    } else {
      assert h == [h[0], h[1]];
      TwoOfDigits(h[0], h[1]);
    }
  }

  // ==================== normalisation ====================

  /** `str.padStart(width, fill)`. */
  function PadStart(str: string, width: nat, fill: char): (r: string)
    ensures |r| == if |str| >= width then |str| else width
    ensures r[|r| - |str|..] == str
    ensures forall i :: 0 <= i < |r| - |str| ==> r[i] == fill
  {
    if |str| >= width then str else seq(width - |str|, _ => fill) + str
  }


  /**
   * `const [hours, minutes] = timeStr.split(':')` followed by
   * `` `${hours.padStart(2, '0')}:${minutes}` ``, applied only to a time the
   * pattern accepted.
   */
  function NormalizeTime(s: string): (r: string)
    requires IsValidTime(s)
    ensures |r| == 5 && r[2] == ':' && r[3..] == MinuteText(s)
  {
    assert s == HourText(s) + ":" + MinuteText(s);
    SplitOneColon(HourText(s), MinuteText(s));
    var parts := SplitColon(s);
    PadStart(parts[0], 2, '0') + ":" + parts[1]
  }

  /**
   * Normalising writes the same hour and minute as two digits each: the
   * result is the canonical `HH:MM`, which the pattern accepts again.
   */
  lemma NormalizeTimeCanonical(s: string)
    requires IsValidTime(s)
    ensures NormalizeTime(s) == Two(HourOf(s)) + ":" + Two(MinuteOf(s))
    ensures IsValidTime(NormalizeTime(s))
    ensures HourOf(NormalizeTime(s)) == HourOf(s) && MinuteOf(NormalizeTime(s)) == MinuteOf(s)
  {
    var h, m := HourText(s), MinuteText(s);
    assert s == h + ":" + m;
    SplitOneColon(h, m);
    HourGroupPads(h);
    MinuteGroupValue(m);
    var r := Two(HourOf(s)) + ":" + Two(MinuteOf(s));
    assert NormalizeTime(s) == r;
    TwoDigitTimes(HourOf(s), MinuteOf(s));
    assert HourText(r) == Two(HourOf(s)) && MinuteText(r) == Two(MinuteOf(s));
    TwoReadsBack(HourOf(s));
    TwoReadsBack(MinuteOf(s));
  }

  /** Normalising a normalised time changes nothing. */
  lemma NormalizeTimeIdempotent(s: string)
    requires IsValidTime(s)
    ensures IsValidTime(NormalizeTime(s)) && NormalizeTime(NormalizeTime(s)) == NormalizeTime(s)
  {
    NormalizeTimeCanonical(s);
    NormalizeTimeCanonical(NormalizeTime(s));
  }

  /**
   * The cron trigger of an accepted time fires daily at its hour and
   * minute, written without leading zeros; normalising first does not
   * change the trigger.
   */
  lemma CronOfValidTime(s: string)
    requires IsValidTime(s)
    ensures CronExpression(s) == NatToString(MinuteOf(s)) + " " + NatToString(HourOf(s)) + " * * *"
    ensures CronExpression(NormalizeTime(s)) == CronExpression(s)
  {
    var h, m := HourText(s), MinuteText(s);
    assert CronExpression(s) == NatToString(MinuteOf(s)) + " " + NatToString(HourOf(s)) + " * * *" by {
      GroupsAreDigits(h, m);
      assert s == h + ":" + m;
      CronOfParts(h, m);
    }
    assert CronExpression(NormalizeTime(s)) == NatToString(MinuteOf(s)) + " " + NatToString(HourOf(s)) + " * * *" by {
      NormalizeTimeCanonical(s);
      TwoReadsBack(HourOf(s));
      TwoReadsBack(MinuteOf(s));
      CronOfParts(Two(HourOf(s)), Two(MinuteOf(s)));
    }
  }


  lemma CronOfParts(h: string, m: string)
    requires AllDigits(h) && AllDigits(m)
    ensures CronExpression(h + ":" + m) == NatToString(DigitsValue(m)) + " " + NatToString(DigitsValue(h)) + " * * *"
  {
    NoColonInDigits(h);
    NoColonInDigits(m);
    SplitOneColon(h, m);
  }

  lemma NoColonInDigits(s: string)
    requires AllDigits(s)
    ensures ':' !in s
  {
    forall i | 0 <= i < |s| ensures s[i] != ':' {
      assert IsDigit(s[i]);
    }
  }

  // ==================== timezone choices ====================

  /** The eight zones the timezone option offers. */
  datatype ZoneChoice = Utc | Singapore | Manila | Tokyo | Sydney | London | NewYork | LosAngeles
  {
    /** The IANA name stored for the choice. */
    function Value(): (z: Timezone)
      ensures z != ""
    {
      match this
      case Utc => "UTC"
      case Singapore => "Asia/Singapore"
      case Manila => "Asia/Manila"
      case Tokyo => "Asia/Tokyo"
      case Sydney => "Australia/Sydney"
      case London => "Europe/London"
      case NewYork => "America/New_York"
      case LosAngeles => "America/Los_Angeles"
    }
  }

  /** Different choices store different zone names. */
  lemma ZoneValuesDistinct(a: ZoneChoice, b: ZoneChoice)
    ensures a.Value() == b.Value() <==> a == b
  {
  }

  // ==================== dispatch ====================

  datatype Subcommand =
    | Channel(channelId: string)
    | Time(timeText: string)
    | SetTimezone(zone: ZoneChoice)
    | Enable
    | Disable
    | View

  /** What the subcommand writes with `setGuildConfig`; `None` when it writes nothing. */
  function PatchFor(sub: Subcommand): (p: Option<ConfigPatch>)
    ensures p.None? <==> sub.View? || (sub.Time? && !IsValidTime(sub.timeText))
    ensures sub.Channel? ==> p == Some(NoChange.(reportChannelId := Some(sub.channelId)))
    ensures sub.Time? && IsValidTime(sub.timeText) ==> p == Some(NoChange.(reportTime := Some(NormalizeTime(sub.timeText))))
    ensures sub.SetTimezone? ==> p == Some(NoChange.(timezone := Some(sub.zone.Value())))
    ensures sub.Enable? ==> p == Some(NoChange.(enabled := Some(1)))
    ensures sub.Disable? ==> p == Some(NoChange.(enabled := Some(0)))
  {
    match sub
    case Channel(id) => Some(NoChange.(reportChannelId := Some(id)))
    case Time(t) => if IsValidTime(t) then Some(NoChange.(reportTime := Some(NormalizeTime(t)))) else None
    case SetTimezone(z) => Some(NoChange.(timezone := Some(z.Value())))
    case Enable => Some(NoChange.(enabled := Some(1)))
    case Disable => Some(NoChange.(enabled := Some(0)))
    case View => None
  }

  /** The configuration as the view subcommand shows it. */
  datatype ConfigView = ConfigView(channel: string, reportTime: string, timezone: string, enabled: bool)

  /** The reply of each subcommand (titles, colours and timestamps aside). */
  datatype Reply =
    | ChannelUpdated(channelId: string)
    | InvalidTime
    | TimeUpdated(time: string, zone: string)
    | TimezoneUpdated(zone: Timezone, time: string)
    | ReportsEnabled
    | ReportsDisabled
    | Shown(view: ConfigView)
  {
    /** Only the validation error and the view are ephemeral. */
    predicate Ephemeral() {
      InvalidTime? || Shown?
    }
  }

  /**
   * The view of a config: `<#id>` or "Not configured" for the channel, the
   * report time and zone with their `||` defaults, enabled when truthy.
   */
  function ViewOf(c: Option<GuildConfig>): (v: ConfigView)
    ensures v.channel == "Not configured" <==> OrNull(if c.Some? then c.value.reportChannelId else None).None?
    ensures c.Some? && OrNull(c.value.reportChannelId).Some? ==> v.channel == "<#" + c.value.reportChannelId.value + ">"
    ensures v.reportTime == if c.Some? then ReportTimeOf(c.value) else DefaultReportTime
    ensures v.timezone == TimezoneOf(c)
    ensures v.enabled <==> c.Some? && c.value.enabled != 0
  {
    var channel := if c.Some? && OrNull(c.value.reportChannelId).Some?
      then "<#" + c.value.reportChannelId.value + ">" else "Not configured";
    assert channel[0] == '<' <==> c.Some? && OrNull(c.value.reportChannelId).Some?;
    ConfigView(channel,
      if c.Some? then ReportTimeOf(c.value) else DefaultReportTime,
      TimezoneOf(c),
      c.Some? && c.value.enabled != 0)
  }

  /** The reply, given the guild's config as it is after the write. */
  function ReplyFor(sub: Subcommand, after: Option<GuildConfig>): (r: Reply)
    ensures sub.Time? ==> (r.InvalidTime? <==> !IsValidTime(sub.timeText))
    ensures sub.Time? && IsValidTime(sub.timeText) ==> r == TimeUpdated(NormalizeTime(sub.timeText), TimezoneOf(after))
    ensures sub.SetTimezone? ==> r == TimezoneUpdated(sub.zone.Value(), if after.Some? then ReportTimeOf(after.value) else DefaultReportTime)
    ensures sub.View? ==> r == Shown(ViewOf(after))
    ensures r.Ephemeral() <==> sub.View? || (sub.Time? && !IsValidTime(sub.timeText))
  {
    match sub
    case Channel(id) => ChannelUpdated(id)
    case Time(t) => if IsValidTime(t) then TimeUpdated(NormalizeTime(t), TimezoneOf(after)) else InvalidTime
    case SetTimezone(z) => TimezoneUpdated(z.Value(), if after.Some? then ReportTimeOf(after.value) else DefaultReportTime)
    case Enable => ReportsEnabled
    case Disable => ReportsDisabled
    case View => Shown(ViewOf(after))
  }

  /**
   * `execute`: a writing subcommand stores its patch and then refreshes the
   * guild's task from the stored config; an invalid time and the view write
   * nothing and leave the scheduler alone.
   */
  method Execute(store: Store, registry: Registry, g: GuildId, sub: Subcommand) returns (reply: Reply)
    requires registry.Valid()
    modifies store`configs, registry
    ensures registry.Valid()
    ensures PatchFor(sub).None? ==> store.configs == old(store.configs) && registry.tasks == old(registry.tasks)
    ensures PatchFor(sub).Some? ==>
      && store.configs == old(store.configs)[g := ApplyPatch(Lookup(old(store.configs), g), PatchFor(sub).value)]
      && registry.tasks == RefreshedTasks(old(registry.tasks), Some(store.configs[g]), g, old(registry.nextHandle))
    ensures registry.stopped == old(registry.stopped) + (if PatchFor(sub).Some? then StopSet(old(registry.tasks), g) else {})
    ensures registry.nextHandle == old(registry.nextHandle)
      + (if PatchFor(sub).Some? && RefreshPlan(Some(store.configs[g])).Some? then 1 else 0)
    ensures reply == ReplyFor(sub, Lookup(store.configs, g))
  {
    var patch := PatchFor(sub);
    if patch.Some? {
      var _ := store.SetGuildConfig(g, patch.value);
      registry.RefreshGuildScheduler(store, g);
    }
    reply := ReplyFor(sub, store.GetGuildConfig(g));
  }

  // ==================== what the subcommands mean for the schedule ====================

  /** Enabling or disabling touches only the `enabled` column of an existing row. */
  lemma ToggleOnlyTouchesEnabled(c: GuildConfig, on: bool)
    ensures ApplyPatch(Some(c), PatchFor(if on then Enable else Disable).value) == c.(enabled := if on then 1 else 0)
  {
  }

  /** After `/setup disable` the guild has no scheduled report. */
  lemma DisableStopsReports(c: Option<GuildConfig>)
    ensures RefreshPlan(Some(ApplyPatch(c, PatchFor(Disable).value))).None?
  {
  }

  /**
   * After `/setup enable` a guild with a channel is scheduled at its report
   * time and zone; without a channel nothing is scheduled.
   */
  lemma EnableSchedulesWithChannel(c: Option<GuildConfig>)
    ensures var after := ApplyPatch(c, PatchFor(Enable).value);
      && (RefreshPlan(Some(after)).Some? <==> c.Some? && OrNull(c.value.reportChannelId).Some?)
      && (RefreshPlan(Some(after)).Some? ==> RefreshPlan(Some(after)).value == (ReportTimeOf(after), TimezoneOf(c)))
  {
    var after := ApplyPatch(c, PatchFor(Enable).value);
    if c.Some? {
      assert after.timezone == c.value.timezone;
    }
  }

  /**
   * A guild never configured before that sets a channel is enabled at once
   * and reported daily at the default time in the default zone.
   */
  lemma FirstChannelUsesDefaults(id: string)
    requires id != ""
    ensures var after := ApplyPatch(None, PatchFor(Channel(id)).value);
      && after.reportChannelId == Some(id)
      && after.enabled == 1
      && RefreshPlan(Some(after)) == Some((DefaultReportTime, DefaultTimezone))
  {
    var after := ApplyPatch(None, PatchFor(Channel(id)).value);
    assert after == GuildConfig(Some(id), DefaultReportTime, DefaultTimezone, 1, None);
  }

  /**
   * After `/setup time` on a guild that is enabled and has a channel, the
   * guild's task fires daily at the chosen hour and minute.
   */
  lemma TimeReschedules(c: GuildConfig, t: string)
    requires IsValidTime(t) && c.enabled != 0 && OrNull(c.reportChannelId).Some?
    ensures var after := ApplyPatch(Some(c), PatchFor(Time(t)).value);
      && RefreshPlan(Some(after)).Some?
      && CronExpression(RefreshPlan(Some(after)).value.0) == NatToString(MinuteOf(t)) + " " + NatToString(HourOf(t)) + " * * *"
  {
    TimePatchPlan(c, t);
    CronOfValidTime(t);
  }

  /** The time patch stores the normalised time, and a refresh schedules from it. */
  lemma TimePatchPlan(c: GuildConfig, t: string)
    requires IsValidTime(t) && c.enabled != 0 && OrNull(c.reportChannelId).Some?
    ensures var after := ApplyPatch(Some(c), PatchFor(Time(t)).value);
      RefreshPlan(Some(after)) == Some((NormalizeTime(t), TimezoneOf(Some(after))))
  {
    var n := NormalizeTime(t);
    var p := NoChange.(reportTime := Some(n));
    assert PatchFor(Time(t)) == Some(p);
    PartialUpdate(c, p);
    var after := ApplyPatch(Some(c), p);
    assert after == c.(reportTime := n);
    assert ReportTimeOf(after) == n;
  }
}
