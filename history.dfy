/**
 * The `/history` command: members still in the server are bucketed by their
 * join instant into today, yesterday, the last week, the last 30 days and
 * older, and counted per UTC calendar date over the last seven days.
 *
 * Instants are integers (milliseconds); the server-local day boundaries and
 * the seven day keys are inputs, because they come from `Date` arithmetic.
 */
module History {
  import opened Wrappers
  import opened Text
  import opened Order

  type Date = string

  /** A member's `joinedAt`: the instant and its `toISOString()` date part. */
  datatype Joined = Joined(instant: int, utcDate: Date)

  datatype Member = Member(isBot: bool, joinedAt: Option<Joined>)

  /**
   * Local midnight of today, and the instants one, seven and thirty local
   * days before it.
   */
  datatype Boundaries = Boundaries(todayStart: int, yesterdayStart: int, weekStart: int, monthStart: int) {
    /** Going back 1, 7 and 30 days never moves forward in time. */
    predicate Ordered() {
      monthStart <= weekStart <= yesterdayStart <= todayStart
    }
  }

  /** Bots and members without `joinedAt` are skipped by the loop. */
  predicate Counted(m: Member) {
    !m.isBot && m.joinedAt.Some?
  }

  /** The five counters. */
  datatype Window = TodayW | YesterdayW | WeekW | MonthW | OlderW

  /** Which windows a join instant falls in, as the loop's branches decide. */
  predicate InWindow(w: Window, b: Boundaries, t: int) {
    match w
    case TodayW => t >= b.todayStart
    case YesterdayW => t < b.todayStart && t >= b.yesterdayStart
    case WeekW => t >= b.weekStart
    case MonthW => t >= b.monthStart
    case OlderW => t < b.monthStart
  }

  /** How many counted members joined inside window `w`. */
  function CountIn(ms: seq<Member>, b: Boundaries, w: Window): (n: nat)
    ensures n <= Joins(ms)
  {
    if ms == [] then 0
    else
      var m := ms[|ms| - 1];
      CountIn(ms[..|ms| - 1], b, w) + (if Counted(m) && InWindow(w, b, m.joinedAt.value.instant) then 1 else 0)
  }

  /** How many members the loop counts at all. */
  function Joins(ms: seq<Member>): nat {
    if ms == [] then 0 else Joins(ms[..|ms| - 1]) + (if Counted(ms[|ms| - 1]) then 1 else 0)
  }

  /** How many counted members joined on UTC date `d`. */
  function JoinedOn(ms: seq<Member>, d: Date): (n: nat)
    ensures n <= Joins(ms)
  {
    if ms == [] then 0
    else
      var m := ms[|ms| - 1];
      JoinedOn(ms[..|ms| - 1], d) + (if Counted(m) && m.joinedAt.value.utcDate == d then 1 else 0)
  }

  /** `members.filter(m => !m.user.bot).size`: members without `joinedAt` included. */
  function NonBots(ms: seq<Member>): (n: nat)
    ensures n <= |ms|
  {
    if ms == [] then 0 else NonBots(ms[..|ms| - 1]) + (if ms[|ms| - 1].isBot then 0 else 1)
  }

  // ==================== the seven day keys ====================

  /** JavaScript object keys in insertion order: a repeated key keeps its first place. */
  function Dedup(s: seq<Date>): (r: seq<Date>)
    ensures forall k :: k in r <==> k in s
    ensures |r| <= |s|
  {
    if s == [] then []
    else
      var d := Dedup(s[..|s| - 1]);
      if s[|s| - 1] in d then d else d + [s[|s| - 1]]
  }

  predicate Distinct(s: seq<Date>) {
    forall i, j :: 0 <= i < j < |s| ==> s[i] != s[j]
  }

  lemma {:induction false} DedupDistinct(s: seq<Date>)
    ensures Distinct(Dedup(s))
  {
    if s != [] {
      DedupDistinct(s[..|s| - 1]);
    }
  }

  /** Without repeated keys every key gets its own entry, in loop order. */
  lemma {:induction false} DedupOfDistinct(s: seq<Date>)
    requires Distinct(s)
    ensures Dedup(s) == s
  {
    if s != [] {
      DedupOfDistinct(s[..|s| - 1]);
      assert s[..|s| - 1] + [s[|s| - 1]] == s;
    }
  }

  /** A list without repeats has as many members as entries. */
  lemma {:induction false} DistinctCard(s: seq<Date>)
    requires Distinct(s)
    ensures |set k | k in s| == |s|
  {
    if s != [] {
      var p := s[..|s| - 1];
      DistinctCard(p);
      assert (set k | k in s) == (set k | k in p) + {s[|s| - 1]};
    }
  }

  /** `dayKey(i)` is the UTC date of local midnight `i` days before today; `i = 0 .. 6`. */
  function WeekKeys(dayKey: nat -> Date): (keys: seq<Date>)
    ensures |keys| == 7 && forall i :: 0 <= i < 7 ==> keys[i] == dayKey(i)
  {
    seq(7, i requires 0 <= i => dayKey(i))
  }

  /**
   * The `for` loop that creates `dailyCounts`: one zero entry per day key,
   * with `order` the object's key order.
   */
  method InitDailyCounts(dayKey: nat -> Date) returns (counts: map<Date, nat>, order: seq<Date>)
    ensures order == Dedup(WeekKeys(dayKey))
    ensures forall k :: k in counts <==> k in order
    ensures forall k :: k in counts ==> counts[k] == 0
  {
    ghost var keys := WeekKeys(dayKey);
    counts, order := map[], [];
    for i := 0 to 7
      invariant order == Dedup(keys[..i])
      invariant forall k :: k in counts <==> k in order
      invariant forall k :: k in counts ==> counts[k] == 0
    {
      assert keys[..i + 1][..i] == keys[..i];
      var date := dayKey(i);
      if date !in counts {
        order := order + [date];
      }
      counts := counts[date := 0];
    }
    assert keys[..7] == keys;
  }

  /** Seven different dates give seven keys. */
  lemma SevenKeys(dayKey: nat -> Date)
    requires Distinct(WeekKeys(dayKey))
    ensures Dedup(WeekKeys(dayKey)) == WeekKeys(dayKey)
    ensures |set k | k in Dedup(WeekKeys(dayKey))| == 7
  {
    DedupOfDistinct(WeekKeys(dayKey));
    DistinctCard(WeekKeys(dayKey));
  }

  /** A list has at most as many different elements as entries. */
  lemma {:induction false} CardAtMostLength(s: seq<Date>)
    ensures |set k | k in s| <= |s|
  {
    if s != [] {
      var p := s[..|s| - 1];
      CardAtMostLength(p);
      assert (set k | k in s) == (set k | k in p) + {s[|s| - 1]};
    }
  }

  /** A repeated entry leaves fewer different elements than entries. */
  lemma RepeatedKeyShrinks(s: seq<Date>, i: nat, j: nat)
    requires i < j < |s| && s[i] == s[j]
    ensures |set k | k in s| < |s|
  {
    var t := s[..j] + s[j + 1..];
    assert s == s[..j] + [s[j]] + s[j + 1..];
    assert s[j] in t by {
      assert t[i] == s[i];
    }
    assert (set k | k in s) == (set k | k in t);
    CardAtMostLength(t);
  }

  /**
   * Two consecutive day keys can be the same date (they are UTC dates of
   * local midnights, which a daylight-saving change can map to one day);
   * the object then has fewer than seven keys and the breakdown fewer than
   * seven lines.
   */
  lemma CollidingDayKeys(dayKey: nat -> Date, i: nat)
    requires i < 6 && dayKey(i) == dayKey(i + 1)
    ensures |Dedup(WeekKeys(dayKey))| < 7
    ensures |SortedDates(Dedup(WeekKeys(dayKey)))| < 7
  {
    var w := WeekKeys(dayKey);
    var d := Dedup(w);
    DedupDistinct(w);
    DistinctCard(d);
    assert (set k | k in d) == (set k | k in w);
    RepeatedKeyShrinks(w, i, i + 1);
    assert |SortedDates(d)| == |multiset(SortedDates(d))| == |multiset(d)| == |d|;
  }

  // ==================== the member loop ====================

  datatype Counters = Counters(today: nat, yesterday: nat, thisWeek: nat, thisMonth: nat, older: nat)

  /** The counters are exact tallies of their windows over `ms`. */
  ghost predicate Tallies(c: Counters, ms: seq<Member>, b: Boundaries) {
    c.today == CountIn(ms, b, TodayW) && c.yesterday == CountIn(ms, b, YesterdayW)
    && c.thisWeek == CountIn(ms, b, WeekW) && c.thisMonth == CountIn(ms, b, MonthW)
    && c.older == CountIn(ms, b, OlderW)
  }

  /** Each key of `counts` holds its start value plus the members of `ms` that joined that day. */
  ghost predicate DailyTallies(counts: map<Date, nat>, counts0: map<Date, nat>, ms: seq<Member>) {
    (forall k :: k in counts <==> k in counts0)
    && forall k :: k in counts ==> counts[k] == counts0[k] + JoinedOn(ms, k)
  }

  /** The body of `members.forEach`, for one member. */
  method Visit(m: Member, b: Boundaries, c: Counters, counts: map<Date, nat>) returns (c': Counters, counts': map<Date, nat>)
    ensures !Counted(m) ==> c' == c && counts' == counts
    ensures Counted(m) ==> forall k :: k in counts' <==> k in counts
    ensures Counted(m) ==> forall k :: k in counts ==>
      counts'[k] == counts[k] + (if m.joinedAt.value.utcDate == k then 1 else 0)
    ensures Counted(m) ==>
      var t := m.joinedAt.value.instant;
      c'.today == c.today + (if InWindow(TodayW, b, t) then 1 else 0)
      && c'.yesterday == c.yesterday + (if InWindow(YesterdayW, b, t) then 1 else 0)
      && c'.thisWeek == c.thisWeek + (if InWindow(WeekW, b, t) then 1 else 0)
      && c'.thisMonth == c.thisMonth + (if InWindow(MonthW, b, t) then 1 else 0)
      && c'.older == c.older + (if InWindow(OlderW, b, t) then 1 else 0)
  {
    c', counts' := c, counts;
    if m.isBot {
      return;
    }
    if m.joinedAt.None? {
      return;
    }
    var joined := m.joinedAt.value;
    if joined.utcDate in counts' {
      counts' := counts'[joined.utcDate := counts'[joined.utcDate] + 1];
    }
    if joined.instant >= b.todayStart {
      c' := c'.(today := c'.today + 1);
    } else if joined.instant >= b.yesterdayStart {
      c' := c'.(yesterday := c'.yesterday + 1);
    }
    if joined.instant >= b.weekStart {
      c' := c'.(thisWeek := c'.thisWeek + 1);
    }
    if joined.instant >= b.monthStart {
      c' := c'.(thisMonth := c'.thisMonth + 1);
    } else {
      c' := c'.(older := c'.older + 1);
    }
  }

  /** `members.forEach(...)`: all five counters and the daily counts over every member. */
  method Bucket(members: seq<Member>, b: Boundaries, counts0: map<Date, nat>) returns (c: Counters, counts: map<Date, nat>)
    ensures c.today == CountIn(members, b, TodayW) && c.yesterday == CountIn(members, b, YesterdayW)
    ensures c.thisWeek == CountIn(members, b, WeekW) && c.thisMonth == CountIn(members, b, MonthW)
    ensures c.older == CountIn(members, b, OlderW)
    ensures forall k :: k in counts <==> k in counts0
    ensures forall k :: k in counts ==> counts[k] == counts0[k] + JoinedOn(members, k)
  {
    c, counts := Counters(0, 0, 0, 0, 0), counts0;
    for i := 0 to |members|
      invariant Tallies(c, members[..i], b)
      invariant DailyTallies(counts, counts0, members[..i])
    {
      assert members[..i + 1][..i] == members[..i];
      c, counts := Visit(members[i], b, c, counts);
    }
    assert members[..|members|] == members;
  }

  // ==================== what the counters mean ====================

  /** Every counted member is in exactly one of the last 30 days and older. */
  lemma {:induction false} MonthOlderPartition(ms: seq<Member>, b: Boundaries)
    ensures CountIn(ms, b, MonthW) + CountIn(ms, b, OlderW) == Joins(ms)
  {
    if ms != [] {
      MonthOlderPartition(ms[..|ms| - 1], b);
    }
  }

  /** Today and yesterday never both count a member. */
  lemma {:induction false} TodayYesterdayDisjoint(ms: seq<Member>, b: Boundaries)
    ensures CountIn(ms, b, TodayW) + CountIn(ms, b, YesterdayW) <= Joins(ms)
  {
    if ms != [] {
      TodayYesterdayDisjoint(ms[..|ms| - 1], b);
    }
  }

  /** Total Members counts every non-bot, so it is at least every counter. */
  lemma {:induction false} TotalCoversCounters(ms: seq<Member>, b: Boundaries, w: Window)
    ensures CountIn(ms, b, w) <= Joins(ms) <= NonBots(ms)
  {
    if ms != [] {
      TotalCoversCounters(ms[..|ms| - 1], b, w);
    }
  }

  /** With ordered boundaries the windows nest: today and yesterday lie in the week, the week in the month. */
  lemma {:induction false} WindowsNest(ms: seq<Member>, b: Boundaries)
    requires b.Ordered()
    ensures CountIn(ms, b, TodayW) + CountIn(ms, b, YesterdayW) <= CountIn(ms, b, WeekW)
    ensures CountIn(ms, b, WeekW) <= CountIn(ms, b, MonthW)
  {
    if ms != [] {
      WindowsNest(ms[..|ms| - 1], b);
    }
  }

  lemma {:induction false} CountInAppend(a: seq<Member>, c: seq<Member>, b: Boundaries, w: Window)
    ensures CountIn(a + c, b, w) == CountIn(a, b, w) + CountIn(c, b, w)
    decreases |c|
  {
    if c != [] {
      CountInAppend(a, c[..|c| - 1], b, w);
      assert (a + c)[..|a + c| - 1] == a + c[..|c| - 1];
    } else {
      assert a + c == a;
    }
  }

  lemma {:induction false} JoinedOnAppend(a: seq<Member>, c: seq<Member>, d: Date)
    ensures JoinedOn(a + c, d) == JoinedOn(a, d) + JoinedOn(c, d)
    decreases |c|
  {
    if c != [] {
      JoinedOnAppend(a, c[..|c| - 1], d);
      assert (a + c)[..|a + c| - 1] == a + c[..|c| - 1];
    } else {
      assert a + c == a;
    }
  }

  /** A bot, or a member without `joinedAt`, changes no counter wherever it sits in the list. */
  lemma SkippedMemberChangesNothing(before: seq<Member>, m: Member, after: seq<Member>, b: Boundaries, w: Window, d: Date)
    requires !Counted(m)
    ensures CountIn(before + [m] + after, b, w) == CountIn(before + after, b, w)
    ensures JoinedOn(before + [m] + after, d) == JoinedOn(before + after, d)
  {
    CountInAppend(before + [m], after, b, w);
    CountInAppend(before, after, b, w);
    assert (before + [m])[..|before|] == before;
    JoinedOnAppend(before + [m], after, d);
    JoinedOnAppend(before, after, d);
  }

  // ==================== what the daily counts add up to ====================

  /** The values of `counts` at `keys`, added up. */
  function SumAt(keys: seq<Date>, counts: map<Date, nat>): nat {
    if keys == [] then 0
    else SumAt(keys[..|keys| - 1], counts) + (if keys[|keys| - 1] in counts then counts[keys[|keys| - 1]] else 0)
  }

  /** The members of `ms` that joined on one of `keys`, counted once per key. */
  function SumJoinedOn(keys: seq<Date>, ms: seq<Member>): nat {
    if keys == [] then 0 else SumJoinedOn(keys[..|keys| - 1], ms) + JoinedOn(ms, keys[|keys| - 1])
  }

  /** How many counted members joined on a date in `keys`. */
  function JoinedWithin(ms: seq<Member>, keys: seq<Date>): (n: nat)
    ensures n <= Joins(ms)
  {
    if ms == [] then 0
    else
      var m := ms[|ms| - 1];
      JoinedWithin(ms[..|ms| - 1], keys) + (if Counted(m) && m.joinedAt.value.utcDate in keys then 1 else 0)
  }

  lemma {:induction false} SumAtDaily(keys: seq<Date>, ms: seq<Member>, order: seq<Date>)
    requires forall k :: k in keys ==> k in order
    ensures SumAt(keys, DailyCountsOf(ms, order)) == SumJoinedOn(keys, ms)
  {
    if keys != [] {
      SumAtDaily(keys[..|keys| - 1], ms, order);
    }
  }

  /** The number of keys among distinct `keys` equal to `d`: one or none. */
  function Hits(keys: seq<Date>, d: Date): nat {
    if keys == [] then 0 else Hits(keys[..|keys| - 1], d) + (if keys[|keys| - 1] == d then 1 else 0)
  }

  lemma {:induction false} HitsOfDistinct(keys: seq<Date>, d: Date)
    requires Distinct(keys)
    ensures Hits(keys, d) == if d in keys then 1 else 0
  {
    if keys != [] {
      var p := keys[..|keys| - 1];
      HitsOfDistinct(p, d);
      assert keys == p + [keys[|keys| - 1]];
    }
  }

  /** Adding a member adds its hits to the sum over the keys. */
  lemma {:induction false} SumJoinedOnStep(keys: seq<Date>, ms: seq<Member>, m: Member)
    ensures SumJoinedOn(keys, ms + [m]) == SumJoinedOn(keys, ms) + (if Counted(m) then Hits(keys, m.joinedAt.value.utcDate) else 0)
  {
    assert (ms + [m])[..|ms|] == ms;
    if keys != [] {
      SumJoinedOnStep(keys[..|keys| - 1], ms, m);
    }
  }

  /** Over distinct keys, the per-day counts add up to the members that joined on one of those days. */
  lemma {:induction false} SumJoinedOnDistinct(keys: seq<Date>, ms: seq<Member>)
    requires Distinct(keys)
    ensures SumJoinedOn(keys, ms) == JoinedWithin(ms, keys)
  {
    if ms == [] {
      SumJoinedOnEmpty(keys);
    } else {
      var p := ms[..|ms| - 1];
      var m := ms[|ms| - 1];
      SumJoinedOnDistinct(keys, p);
      assert p + [m] == ms;
      SumJoinedOnStep(keys, p, m);
      if Counted(m) {
        HitsOfDistinct(keys, m.joinedAt.value.utcDate);
      }
    }
  }

  lemma {:induction false} SumJoinedOnEmpty(keys: seq<Date>)
    ensures SumJoinedOn(keys, []) == 0
  {
    if keys != [] {
      SumJoinedOnEmpty(keys[..|keys| - 1]);
    }
  }

  /**
   * After the member loop the daily counts, summed over the object's keys,
   * are exactly the counted members that joined on one of the seven days,
   * so never more than the counted members.
   */
  lemma DailySum(dayKey: nat -> Date, ms: seq<Member>)
    ensures var order := Dedup(WeekKeys(dayKey));
      SumAt(order, DailyCountsOf(ms, order)) == JoinedWithin(ms, WeekKeys(dayKey)) <= Joins(ms)
  {
    var order := Dedup(WeekKeys(dayKey));
    SumAtDaily(order, ms, order);
    DedupDistinct(WeekKeys(dayKey));
    SumJoinedOnDistinct(order, ms);
    JoinedWithinSameKeys(ms, order, WeekKeys(dayKey));
  }

  lemma {:induction false} JoinedWithinSameKeys(ms: seq<Member>, k1: seq<Date>, k2: seq<Date>)
    requires forall k :: k in k1 <==> k in k2
    ensures JoinedWithin(ms, k1) == JoinedWithin(ms, k2)
  {
    if ms != [] {
      JoinedWithinSameKeys(ms[..|ms| - 1], k1, k2);
    }
  }

  // ==================== the breakdown text ====================

  /** `'(Today)'`, `'(Yesterday)'` or nothing, by comparing with the first two day keys. */
  function Label(date: Date, todayKey: Date, yesterdayKey: Date): (tag: string)
    ensures tag == "(Today)" <==> date == todayKey
    ensures tag == "(Yesterday)" <==> date != todayKey && date == yesterdayKey
    ensures tag == "" <==> date != todayKey && date != yesterdayKey
  {
    if date == todayKey then "(Today)" else if date == yesterdayKey then "(Yesterday)" else ""
  }

  /** `**${date}** ${tag}: ${count} joined\n`. */
  function DayLine(date: Date, tag: string, count: nat): string {
    "**" + date + "** " + tag + ": " + NatToString(count) + " joined\n"
  }

  /** The lines for `dates`, in order. */
  function DayLines(dates: seq<Date>, counts: map<Date, nat>, todayKey: Date, yesterdayKey: Date): (text: string)
    ensures text == "" <==> dates == []
  {
    if dates == [] then ""
    else
      var date := dates[|dates| - 1];
      DayLines(dates[..|dates| - 1], counts, todayKey, yesterdayKey)
      + DayLine(date, Label(date, todayKey, yesterdayKey), if date in counts then counts[date] else 0)
  }

  function Identity(d: Date): string { d }

  /** `Object.keys(dailyCounts).sort().reverse()`. */
  function SortedDates(order: seq<Date>): (r: seq<Date>)
    ensures multiset(r) == multiset(order)
  {
    SortDesc(order, Identity)
  }

  /** The dates come out newest first, each key once. */
  lemma SortedDatesDescending(order: seq<Date>)
    requires Distinct(order)
    ensures forall k :: k in SortedDates(order) <==> k in order
    ensures |SortedDates(order)| == |order|
    ensures forall i, j :: 0 <= i < j < |SortedDates(order)| ==> LexLt(SortedDates(order)[j], SortedDates(order)[i])
  {
    var r := SortedDates(order);
    assert DistinctKeys(order, Identity) by {
      forall i, j | 0 <= i < j < |order| ensures Identity(order[i]) != Identity(order[j]) {
      }
    }
    SortDescStrict(order, Identity);
    forall k ensures k in r <==> k in order {
      assert k in r <==> k in multiset(r);
    }
    assert |r| == |multiset(r)| == |multiset(order)| == |order|;
  }

  /** The `for ... of sortedDates` loop that builds `breakdownText`. */
  method BreakdownText(sorted: seq<Date>, counts: map<Date, nat>, todayKey: Date, yesterdayKey: Date) returns (text: string)
    requires forall k :: k in sorted ==> k in counts
    ensures text == DayLines(sorted, counts, todayKey, yesterdayKey)
  {
    text := "";
    for i := 0 to |sorted|
      invariant text == DayLines(sorted[..i], counts, todayKey, yesterdayKey)
    {
      assert sorted[..i + 1][..i] == sorted[..i];
      var date := sorted[i];
      var count := counts[date];
      var tag := if date == todayKey then "(Today)" else if date == yesterdayKey then "(Yesterday)" else "";
      text := text + DayLine(date, tag, count);
    }
    assert sorted[..|sorted|] == sorted;
  }

  lemma DayLineStartsWithStars(date: Date, tag: string, count: nat)
    ensures |DayLine(date, tag, count)| >= 1 && DayLine(date, tag, count)[0] == '*'
  {
    var rest := date + "** " + tag + ": " + NatToString(count) + " joined\n";
    assert DayLine(date, tag, count) == "**" + rest;
  }

  /** There is always at least one key, so the field never falls back to `'No data'`. */
  lemma {:induction false} DayLinesNonEmpty(dates: seq<Date>, counts: map<Date, nat>, todayKey: Date, yesterdayKey: Date)
    requires dates != []
    ensures DayLines(dates, counts, todayKey, yesterdayKey) != ""
  {
    var date := dates[|dates| - 1];
    DayLineStartsWithStars(date, Label(date, todayKey, yesterdayKey), if date in counts then counts[date] else 0);
  }

  // ==================== the command ====================

  /** The embed's figures. */
  datatype HistoryReport = HistoryReport(
    today: nat, yesterday: nat, thisWeek: nat, last30Days: nat, older: nat,
    totalMembers: nat, breakdown: string)

  /** `dailyCounts` after the member loop: each of the keys maps to the members that joined that day. */
  function DailyCountsOf(ms: seq<Member>, keys: seq<Date>): (counts: map<Date, nat>)
    ensures forall k :: k in counts <==> k in keys
    ensures forall k :: k in counts ==> counts[k] <= Joins(ms)
  {
    map k | k in keys :: JoinedOn(ms, k)
  }

  lemma CountsAreDailyCounts(counts: map<Date, nat>, ms: seq<Member>, keys: seq<Date>)
    requires forall k :: k in counts <==> k in keys
    requires forall k :: k in counts ==> counts[k] == JoinedOn(ms, k)
    ensures counts == DailyCountsOf(ms, keys)
  {
    var d := DailyCountsOf(ms, keys);
    assert forall k :: k in counts <==> k in d;
    assert counts.Keys == d.Keys;
  }

  /** The reply: the embed, or the error message when fetching the members fails. */
  datatype Reply = Report(report: HistoryReport) | FetchFailed

  /** `breakdownText || 'No data'`. */
  function BreakdownField(text: string): (v: string)
    ensures text != "" ==> v == text
    ensures text == "" ==> v == "No data"
  {
    if text != "" then text else "No data"
  }

  /**
   * `execute`: `fetched` is the result of `guild.members.fetch()` (none when
   * it throws), `b` the day boundaries and `dayKey` the seven day keys.
   */
  method Execute(fetched: Option<seq<Member>>, b: Boundaries, dayKey: nat -> Date) returns (reply: Reply)
    ensures fetched.None? <==> reply.FetchFailed?
    ensures fetched.Some? ==>
      var ms, r := fetched.value, reply.report;
      r.today == CountIn(ms, b, TodayW) && r.yesterday == CountIn(ms, b, YesterdayW)
      && r.thisWeek == CountIn(ms, b, WeekW) && r.last30Days == CountIn(ms, b, MonthW)
      && r.older == CountIn(ms, b, OlderW) && r.totalMembers == NonBots(ms)
    ensures fetched.Some? ==>
      var order := Dedup(WeekKeys(dayKey));
      reply.report.breakdown == DayLines(SortedDates(order), DailyCountsOf(fetched.value, order), dayKey(0), dayKey(1))
  {
    if fetched.None? {
      return FetchFailed;
    }
    var members := fetched.value;
    var counts0, order := InitDailyCounts(dayKey);
    var c, counts := Bucket(members, b, counts0);
    var sorted := SortedDates(order);
    assert forall k :: k in sorted ==> k in counts by {
      forall k | k in sorted ensures k in counts {
        assert k in multiset(sorted);
      }
    }
    var text := BreakdownText(sorted, counts, dayKey(0), dayKey(1));
    assert dayKey(0) in order by {
      assert WeekKeys(dayKey)[0] == dayKey(0);
    }
    assert sorted != [] by {
      assert dayKey(0) in multiset(sorted);
    }
    DayLinesNonEmpty(sorted, counts, dayKey(0), dayKey(1));
    CountsAreDailyCounts(counts, members, order);
    reply := Report(HistoryReport(c.today, c.yesterday, c.thisWeek, c.thisMonth, c.older, NonBots(members), BreakdownField(text)));
  }
}
