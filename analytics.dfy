/**
 * The analytics page's helpers: the call-duration text, the risk pie chart's
 * slices, the seven-day activity chart and the "last call" date text. Dates
 * come in already resolved: the key and weekday of each of the last seven days,
 * and the whole-day difference between now and a stored date.
 */
module Analytics {
  import opened Strings

  /** A duration split as it is shown: seconds, minutes and seconds, or hours and minutes. */
  datatype Duration = Secs(secs: int) | MinSecs(m: nat, s: nat) | HourMins(h: nat, m: nat)

  /**
   * How formatDuration splits a number of seconds. Under a minute the seconds
   * are shown as they are; under an hour the minutes and seconds add up to the
   * input exactly; from an hour on, hours and minutes fall short of it by less
   * than a minute (the seconds are dropped). No minute or second count reaches 60.
   */
  function DurationOf(seconds: int): (d: Duration)
    ensures seconds < 60 <==> d.Secs?
    ensures d.Secs? ==> d.secs == seconds
    ensures d.MinSecs? ==> 1 <= d.m < 60 && d.s < 60 && 60 * d.m + d.s == seconds
    ensures d.HourMins? ==>
      1 <= d.h && d.m < 60 && 3600 * d.h + 60 * d.m <= seconds < 3600 * d.h + 60 * d.m + 60
  {
    if seconds < 60 then Secs(seconds)
    else if seconds < 3600 then MinSecs(seconds / 60, seconds % 60)
    else HourMins(seconds / 3600, (seconds % 3600) / 60)
  }

  /** "{s}s", "{m}m {s}s" or "{h}h {m}m". */
  function Render(d: Duration): string {
    match d
    case Secs(secs) => IntToString(secs) + "s"
    case MinSecs(m, s) => NatToString(m) + "m " + NatToString(s) + "s"
    case HourMins(h, m) => NatToString(h) + "h " + NatToString(m) + "m"
  }

  /** formatDuration. */
  function FormatDuration(seconds: int): string {
    Render(DurationOf(seconds))
  }

  /** The minutes-and-seconds text reads back as the same duration. */
  lemma MinSecsReadsBack(seconds: int)
    requires 60 <= seconds < 3600
    ensures var d := DurationOf(seconds);
      DigitsValue(NatToString(d.m)) * 60 + DigitsValue(NatToString(d.s)) == seconds
  {
    var d := DurationOf(seconds);
    NatToStringRoundTrip(d.m);
    NatToStringRoundTrip(d.s);
  }

  /** The stored counts of calls by risk level. */
  datatype RiskCounts = RiskCounts(high: int, medium: int, low: int)

  datatype Slice = Slice(name: string, value: int, color: string)

  /** The three slices in their fixed order: high, medium, low. */
  function AllSlices(c: RiskCounts): seq<Slice> {
    [Slice("High Risk", c.high, "#ef4444"), Slice("Medium Risk", c.medium, "#f59e0b"),
     Slice("Low Risk", c.low, "#22c55e")]
  }

  /** The slices with a positive value, order kept. */
  function Positive(xs: seq<Slice>): (r: seq<Slice>)
    ensures |r| <= |xs|
    ensures forall i :: 0 <= i < |r| ==> r[i].value > 0
  {
    if xs == [] then []
    else (if xs[0].value > 0 then [xs[0]] else []) + Positive(xs[1..])
  }

  /** getRiskDistributionData: nothing without analytics, else the slices with a positive count. */
  function RiskDistribution(analytics: Option<RiskCounts>): (r: seq<Slice>)
    ensures analytics.None? ==> r == []
    ensures |r| <= 3
    ensures forall i :: 0 <= i < |r| ==> r[i].value > 0
  {
    match analytics
    case None => []
    case Some(c) => Positive(AllSlices(c))
  }

  /** The rank of a slice name in the chart's order. */
  function Rank(name: string): nat {
    if name == "High Risk" then 0 else if name == "Medium Risk" then 1 else 2
  }

  /** A slice kept on its own, or nothing. */
  function Kept(x: Slice): seq<Slice> {
    if x.value > 0 then [x] else []
  }

  lemma PositiveOfThree(c: RiskCounts)
    ensures var xs := AllSlices(c);
      Positive(xs) == Kept(xs[0]) + Kept(xs[1]) + Kept(xs[2])
  {
    var xs := AllSlices(c);
    assert xs[1..][1..] == xs[2..];
    assert Positive(xs[2..]) == Kept(xs[2]) + Positive(xs[2..][1..]);
  }

  /**
   * With analytics, a level's slice is shown exactly when its count is
   * positive, and the slices shown keep the order high, medium, low.
   */
  lemma RiskDistributionShape(c: RiskCounts)
    ensures var r := RiskDistribution(Some(c));
      && (Slice("High Risk", c.high, "#ef4444") in r <==> c.high > 0)
      && (Slice("Medium Risk", c.medium, "#f59e0b") in r <==> c.medium > 0)
      && (Slice("Low Risk", c.low, "#22c55e") in r <==> c.low > 0)
      && forall i, j :: 0 <= i < j < |r| ==> Rank(r[i].name) < Rank(r[j].name)
  {
    PositiveOfThree(c);
  }

  /** One day's stored counts; either may be missing. */
  datatype DayStats = DayStats(calls: Option<int>, scams: Option<int>)

  /** One bar of the activity chart. */
  datatype ChartDay = ChartDay(name: string, calls: int, scams: int)

  const DayNames: seq<string> := ["Sun", "Mon", "Tue", "Wed", "Thu", "Fri", "Sat"]

  /**
   * The bar for the day with key `key` and weekday `weekday`: a missing table,
   * day or count reads as 0.
   */
  function DayEntry(stats: Option<map<string, DayStats>>, key: string, weekday: nat): (e: ChartDay)
    requires weekday < 7
    ensures e.name == DayNames[weekday]
    ensures stats.None? || key !in stats.value ==> e.calls == 0 && e.scams == 0
    ensures stats.Some? && key in stats.value ==>
      e.calls == stats.value[key].calls.GetOr(0) && e.scams == stats.value[key].scams.GetOr(0)
  {
    if stats.Some? && key in stats.value then
      ChartDay(DayNames[weekday], stats.value[key].calls.GetOr(0), stats.value[key].scams.GetOr(0))
    else ChartDay(DayNames[weekday], 0, 0)
  }

  /**
   * getDailyChartData: seven bars, six days ago first and today last.
   * `dayKey(i)` and `weekday(i)` are the date key and weekday of the day i days ago.
   */
  method DailyChartData(stats: Option<map<string, DayStats>>, dayKey: nat -> string, weekday: nat -> nat)
    returns (days: seq<ChartDay>)
    requires forall i :: weekday(i) < 7
    ensures |days| == 7
    ensures forall k :: 0 <= k < 7 ==> days[k] == DayEntry(stats, dayKey(6 - k), weekday(6 - k))
  {
    days := [];
    var i := 6;
    while i >= 0
      invariant -1 <= i <= 6
      invariant |days| == 6 - i
      invariant forall k :: 0 <= k < |days| ==> days[k] == DayEntry(stats, dayKey(6 - k), weekday(6 - k))
    {
      var key := dayKey(i);
      var dayName := DayNames[weekday(i)];
      var calls := 0;
      var scams := 0;
      if stats.Some? && key in stats.value {
        calls := stats.value[key].calls.GetOr(0);
        scams := stats.value[key].scams.GetOr(0);
      }
      days := days + [ChartDay(dayName, calls, scams)];
      i := i - 1;
    }
  }

  /**
   * formatDate: "Never" with no date; then by whole days since it: "Today",
   * "Yesterday", "{n} days ago" below a week (a future date too, as negative
   * days), else the locale's date text `localeDate`.
   */
  function FormatDate(dateString: Option<string>, diffDays: int, localeDate: string): (r: string)
    ensures dateString.None? || dateString.value == "" ==> r == "Never"
    ensures dateString.Some? && dateString.value != "" ==>
      && (diffDays == 0 ==> r == "Today")
      && (diffDays == 1 ==> r == "Yesterday")
      && (diffDays < 7 && diffDays != 0 && diffDays != 1 ==> r == IntToString(diffDays) + " days ago")
      && (diffDays >= 7 ==> r == localeDate)
  {
    if dateString.None? || dateString.value == "" then "Never"
    else if diffDays == 0 then "Today"
    else if diffDays == 1 then "Yesterday"
    else if diffDays < 7 then IntToString(diffDays) + " days ago"
    else localeDate
  }
}
