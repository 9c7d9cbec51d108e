/**
 * The net-change summary shared by the daily report and the stats command:
 * net = joins - leaves, a tri-state trend chosen by its sign, and the
 * display that prefixes positive values with '+'.
 */
module Trend {
  import opened Wrappers
  import opened Text

  /** Up, down or flat. */
  datatype Trend = Rising | Falling | Steady

  function TrendOf(net: int): (t: Trend)
    ensures t == Rising <==> net > 0
    ensures t == Falling <==> net < 0
    ensures t == Steady <==> net == 0
  {
    if net > 0 then Rising else if net < 0 then Falling else Steady
  }

  datatype NetSummary = NetSummary(joins: int, leaves: int, net: int, trend: Trend, display: string)

  /** The joined / left / net figures of one period. */
  function Summarize(joins: int, leaves: int): (r: NetSummary)
    ensures r.joins == joins && r.leaves == leaves
    ensures r.net == joins - leaves
    ensures r.trend == TrendOf(joins - leaves)
    ensures |r.display| >= 1 && (r.display[0] == '+' <==> joins > leaves)
    ensures ParseSigned(r.display) == Some(joins - leaves)
  {
    SignedDisplayRoundTrip(joins - leaves);
    NetSummary(joins, leaves, joins - leaves, TrendOf(joins - leaves), SignedDisplay(joins - leaves))
  }
}
