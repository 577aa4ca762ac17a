/**
 * The metric endpoints of server/api/metrics.ts: the date window every
 * handler derives from its query, the previous period the summary compares
 * against, the percentage-change formula, the `metric`, `limit` and
 * `platform` parameters, and each handler's answer in terms of the storage
 * it reads.
 *
 * Dates are whole day numbers: a given `startDate`/`endDate` stands for the
 * day it names, `today` for `new Date()`. An error answer is its status and
 * message.
 */
module MetricsRoutes {
  import opened Wrappers
  import opened Json
  import opened Schema
  import opened Summaries
  import opened Performance
  import opened TopCampaigns
  import opened Timeseries
  import opened Storage
  import opened OAuth

  /** `res.status(status).json({ message })` */
  datatype HttpError = HttpError(status: int, message: string)

  /** The inclusive range of days a handler asks storage about. */
  datatype Window = Window(start: int, end: int)

  /** `end = endDate ? endDate : today`, `start = startDate ? startDate : end - 30 days`. */
  function DateWindow(startDate: Option<int>, endDate: Option<int>, today: int): (w: Window)
    ensures w.end == (if endDate.Some? then endDate.value else today)
    ensures startDate.None? ==> w.end - w.start == 30
    ensures startDate.Some? ==> w.start == startDate.value
  {
    var end := endDate.GetOr(today);
    Window(startDate.GetOr(end - 30), end)
  }

  /** `prevEnd = start - 1 day`, `prevStart = prevEnd - daysDiff` with `daysDiff = round(end - start)` in days. */
  function PreviousPeriod(w: Window): Window {
    var daysDiff := w.end - w.start;
    var prevEnd := w.start - 1;
    Window(prevEnd - daysDiff, prevEnd)
  }

  /**
   * The previous period ends the day before the current one starts and
   * covers as many days; so every one of its days precedes the current
   * window.
   */
  lemma PreviousPeriodMeaning(w: Window)
    ensures PreviousPeriod(w).end + 1 == w.start
    ensures |Days(PreviousPeriod(w).start, PreviousPeriod(w).end)| == |Days(w.start, w.end)|
    ensures forall d :: d in Days(PreviousPeriod(w).start, PreviousPeriod(w).end) ==> d < w.start
  {
    var p := PreviousPeriod(w);
    forall d | d in Days(p.start, p.end)
      ensures d < w.start
    {
      var i :| 0 <= i < |Days(p.start, p.end)| && Days(p.start, p.end)[i] == d;
    }
  }

  /** `prev ? ((cur - prev) / prev) * 100 : 0` */
  function PercentChange(current: real, previous: real): real {
    if previous != 0.0 then (current - previous) / previous * 100.0 else 0.0
  }

  /**
   * A change of `r` percent takes the previous figure to the current one;
   * without a previous figure the change is 0; against a positive previous
   * figure it is positive exactly when the figure grew.
   */
  lemma PercentChangeMeaning(current: real, previous: real)
    ensures previous != 0.0 ==> previous + previous * PercentChange(current, previous) / 100.0 == current
    ensures previous == 0.0 ==> PercentChange(current, previous) == 0.0
    ensures previous > 0.0 ==> (PercentChange(current, previous) > 0.0 <==> current > previous)
  {
    if previous != 0.0 {
      var q := (current - previous) / previous;
      assert previous * q == current - previous;
      assert PercentChange(current, previous) / 100.0 == q;
      if previous > 0.0 {
        assert q > 0.0 <==> current - previous > 0.0;
      }
    }
  }

  /** `{ ...metrics, spendChange, roasChange, conversionsChange, costPerConversionChange }` */
  function SummaryResponse(current: MetricSummary, previous: MetricSummary): MetricSummary {
    current.(
      spendChange := PercentChange(current.totalSpend, previous.totalSpend),
      roasChange := PercentChange(current.overallRoas, previous.overallRoas),
      conversionsChange := PercentChange(current.totalConversions, previous.totalConversions),
      costPerConversionChange := PercentChange(current.averageCostPerConversion, previous.averageCostPerConversion))
  }

  /** `GET /api/metrics/summary` */
  function SummaryRoute(st: SupabaseStorage, userId: int, startDate: Option<int>, endDate: Option<int>, platform: Option<string>, today: int): MetricSummary
    reads st
  {
    var w := DateWindow(startDate, endDate, today);
    var p := PreviousPeriod(w);
    SummaryResponse(st.GetMetricsSummary(userId, w.start, w.end, platform), st.GetMetricsSummary(userId, p.start, p.end, platform))
  }

  /**
   * The summary answer keeps the eight figures of the current window and
   * replaces the four change figures (the constants storage puts there) by
   * the change of the current window's spend, conversions, ROAS and cost
   * per conversion against the previous window's (whose meaning
   * `SummaryAverages` states); a previous window without rows gives four
   * zero changes.
   */
  lemma SummaryRouteMeaning(st: SupabaseStorage, userId: int, startDate: Option<int>, endDate: Option<int>, platform: Option<string>, today: int)
    ensures var r := SummaryRoute(st, userId, startDate, endDate, platform, today);
      var w := DateWindow(startDate, endDate, today);
      var p := PreviousPeriod(w);
      var cur := st.GetCampaignMetrics(userId, w.start, w.end, platform);
      var prev := st.GetCampaignMetrics(userId, p.start, p.end, platform);
      var c := SummaryOf(cur);
      r.totalSpend == c.totalSpend && r.totalImpressions == c.totalImpressions
      && r.totalClicks == c.totalClicks && r.totalConversions == c.totalConversions
      && r.averageCtr == c.averageCtr && r.averageCpc == c.averageCpc
      && r.averageCostPerConversion == c.averageCostPerConversion && r.overallRoas == c.overallRoas
      && r.spendChange == PercentChange(Total(cur, Spend), Total(prev, Spend))
      && r.conversionsChange == PercentChange(Total(cur, Conversions), Total(prev, Conversions))
      && r.roasChange == PercentChange(c.overallRoas, SummaryOf(prev).overallRoas)
      && r.costPerConversionChange == PercentChange(c.averageCostPerConversion, SummaryOf(prev).averageCostPerConversion)
      && (prev == [] ==> r.spendChange == 0.0 && r.roasChange == 0.0 && r.conversionsChange == 0.0 && r.costPerConversionChange == 0.0)
  {
    var w := DateWindow(startDate, endDate, today);
    var p := PreviousPeriod(w);
    SummaryMeaning(st.GetCampaignMetrics(userId, w.start, w.end, platform));
    SummaryMeaning(st.GetCampaignMetrics(userId, p.start, p.end, platform));
  }

  /** `GET /api/metrics/platforms` */
  method PlatformsRoute(st: SupabaseStorage, userId: int, startDate: Option<int>, endDate: Option<int>, today: int) returns (r: seq<PlatformPerformance>)
    ensures var w := DateWindow(startDate, endDate, today);
      r == PerformanceOf(st.GetCampaignMetrics(userId, w.start, w.end, None), st.GetPlatformConnectionsByUserId(userId))
  {
    var w := DateWindow(startDate, endDate, today);
    r := st.GetPlatformPerformance(userId, w.start, w.end);
  }

  /** `GET /api/metrics/spend-distribution` */
  method SpendDistributionRoute(st: SupabaseStorage, userId: int, startDate: Option<int>, endDate: Option<int>, today: int) returns (r: seq<SpendDistribution>)
    ensures var w := DateWindow(startDate, endDate, today);
      r == SpendDistributionOf(PerformanceOf(st.GetCampaignMetrics(userId, w.start, w.end, None), st.GetPlatformConnectionsByUserId(userId)))
  {
    var w := DateWindow(startDate, endDate, today);
    r := st.GetSpendDistribution(userId, w.start, w.end);
  }

  // ------------------------------------------------------------ parseInt

  /** The white space `parseInt` skips: ASCII blanks, no-break space and the byte-order mark. */
  predicate IsSpace(c: char) {
    c == ' ' || c == '\t' || c == '\n' || c == '\r' || c == '\U{000B}' || c == '\U{000C}'
    || c == '\U{00A0}' || c == '\U{FEFF}'
  }

  function TrimStart(s: string): (r: string)
    ensures |r| <= |s| && r == s[|s| - |r|..]
    ensures r != [] ==> !IsSpace(r[0])
  {
    if s != [] && IsSpace(s[0]) then TrimStart(s[1..]) else s
  }

  /** The value of a digit in base 10 or 16. */
  function DigitValue(c: char, radix: int): (r: Option<int>)
    ensures r.Some? ==> 0 <= r.value < radix
  {
    if '0' <= c <= '9' && (c as int - '0' as int) < radix then Some(c as int - '0' as int)
    else if radix == 16 && 'a' <= c <= 'f' then Some(c as int - 'a' as int + 10)
    else if radix == 16 && 'A' <= c <= 'F' then Some(c as int - 'A' as int + 10)
    else None
  }

  predicate AllDigits(s: string, radix: int) {
    forall i :: 0 <= i < |s| ==> DigitValue(s[i], radix).Some?
  }

  /** The longest run of digits at the start of `s`. */
  function DigitRun(s: string, radix: int): (r: string)
    ensures r <= s && AllDigits(r, radix)
    ensures |r| < |s| ==> DigitValue(s[|r|], radix).None?
  {
    if s != [] && DigitValue(s[0], radix).Some? then [s[0]] + DigitRun(s[1..], radix) else ""
  }

  /** The number a run of digits writes, most significant first. */
  function RunValue(s: string, radix: int): (r: int)
    requires AllDigits(s, radix)
    ensures r >= 0
  {
    if s == [] then 0
    else RunValue(s[..|s| - 1], radix) * radix + DigitValue(s[|s| - 1], radix).value
  }

  /** The digits after the sign: a `0x` prefix selects base 16; `None` when no digit follows. */
  function ParseUnsigned(u: string): (r: Option<nat>) {
    var hex := |u| >= 2 && u[0] == '0' && (u[1] == 'x' || u[1] == 'X');
    var radix := if hex then 16 else 10;
    var digits := DigitRun(if hex then u[2..] else u, radix);
    if digits == [] then None else Some(RunValue(digits, radix))
  }

  /**
   * `parseInt(s)` without a radix: leading white space and one sign are
   * skipped and the digits that follow are read; `None` stands for `NaN`,
   * when there is no digit.
   */
  function ParseInt(s: string): Option<int> {
    var t := TrimStart(s);
    if |t| > 0 && (t[0] == '-' || t[0] == '+') then
      match ParseUnsigned(t[1..])
      case None => None
      case Some(v) =>
        var n: int := if t[0] == '-' then 0 - v as int else v;
        Some(n)
    else
      match ParseUnsigned(t)
      case None => None
      case Some(v) => Some(v)
  }

  lemma {:induction false} DigitRunOfDigits(s: string, radix: int)
    requires AllDigits(s, radix)
    ensures DigitRun(s, radix) == s
  {
    if s != [] {
      assert AllDigits(s[1..], radix) by {
        forall i | 0 <= i < |s[1..]| ensures DigitValue(s[1..][i], radix).Some? {
          assert s[1..][i] == s[i + 1];
        }
      }
      DigitRunOfDigits(s[1..], radix);
      assert [s[0]] + s[1..] == s;
    }
  }

  lemma {:induction false} DecimalValue(n: nat)
    ensures AllDigits(NatToDecimal(n), 10)
    ensures RunValue(NatToDecimal(n), 10) == n
    decreases n
  {
    var s := NatToDecimal(n);
    if n >= 10 {
      DecimalValue(n / 10);
      assert s[..|s| - 1] == NatToDecimal(n / 10);
    }
  }

  /** Decimal digits are read in base 10 to the number they write. */
  lemma ParseUnsignedDecimal(m: nat)
    ensures ParseUnsigned(NatToDecimal(m)) == Some(m)
  {
    var u := NatToDecimal(m);
    DecimalValue(m);
    DigitRunOfDigits(u, 10);
  }

  /** The decimal text of a natural number parses back to it. */
  lemma ParseIntNat(m: nat)
    ensures ParseInt(NatToDecimal(m)) == Some(m)
  {
    var u := NatToDecimal(m);
    assert TrimStart(u) == u;
    ParseUnsignedDecimal(m);
  }

  /** So does the text of a negative number, its '-' being the sign. */
  lemma ParseIntNegative(n: int)
    requires n < 0
    ensures ParseInt("-" + NatToDecimal(-n)) == Some(n)
  {
    var u := NatToDecimal(-n);
    var s := "-" + u;
    assert s[0] == '-' && s[1..] == u;
    assert TrimStart(s) == s;
    ParseUnsignedDecimal(-n);
    assert ParseUnsigned(s[1..]) == Some(-n);
  }

  /** `parseInt` reads back the decimal text of every integer. */
  lemma ParseIntDecimal(n: int)
    ensures ParseInt(IntToDecimal(n)) == Some(n)
  {
    if n < 0 {
      ParseIntNegative(n);
    } else {
      ParseIntNat(n);
    }
  }

  // ------------------------------------------------------------ the remaining handlers

  /** `const { limit = "5" } = req.query; parseInt(limit)` */
  function LimitParam(limit: Option<string>): Option<int> {
    ParseInt(limit.GetOr("5"))
  }

  /** Without a `limit` the top list holds at most five campaigns. */
  lemma DefaultLimit()
    ensures LimitParam(None) == Some(5)
  {
    ParseIntDecimal(5);
    assert IntToDecimal(5) == "5";
  }

  /** `GET /api/metrics/top-campaigns` */
  method TopCampaignsRoute(st: SupabaseStorage, userId: int, startDate: Option<int>, endDate: Option<int>, limit: Option<string>, platform: Option<string>, today: int) returns (r: seq<TopCampaign>)
    ensures var w := DateWindow(startDate, endDate, today);
      r == TopCampaignsOf(st.GetCampaignMetrics(userId, w.start, w.end, platform), LimitParam(limit))
  {
    var w := DateWindow(startDate, endDate, today);
    r := st.GetTopCampaigns(userId, w.start, w.end, LimitParam(limit), platform);
  }

  const ValidMetrics: seq<string> := ["spend", "roas", "conversions", "ctr"]

  /** `const { metric = "spend" } = req.query` and its check against the four chartable metrics. */
  function MetricParam(metric: Option<string>): (r: Result<string, HttpError>)
    ensures r.Ok? <==> metric.GetOr("spend") in ValidMetrics
    ensures r.Ok? ==> r.value == metric.GetOr("spend")
    ensures r.Err? ==> r.error == HttpError(400, "Invalid metric")
  {
    var m := metric.GetOr("spend");
    if m in ValidMetrics then Ok(m) else Err(HttpError(400, "Invalid metric"))
  }

  /** `GET /api/metrics/performance`: storage is asked only for a valid metric. */
  method PerformanceRoute(st: SupabaseStorage, userId: int, startDate: Option<int>, endDate: Option<int>, metric: Option<string>, platform: Option<string>, today: int, random: nat -> real) returns (r: Result<seq<PerformancePoint>, HttpError>)
    ensures r.Err? <==> metric.GetOr("spend") !in ValidMetrics
    ensures r.Err? ==> r.error == HttpError(400, "Invalid metric")
    ensures r.Ok? ==>
      var w := DateWindow(startDate, endDate, today);
      r.value == SeriesOf(st.GetCampaignMetrics(userId, w.start, w.end, platform), w.start, w.end, metric.GetOr("spend"), platform, random)
  {
    var w := DateWindow(startDate, endDate, today);
    var m := MetricParam(metric);
    if m.Err? {
      return Err(m.error);
    }
    var points := st.GetPerformanceTimeseries(userId, w.start, w.end, m.value, platform, random);
    r := Ok(points);
  }

  const ValidPlatforms: seq<string> := [GoogleAdsId, FacebookAdsId, TikTokAdsId]

  /** `POST /api/metrics/fetch`: a truthy `platform` in the body must name one of the three platforms. */
  function FetchRoute(platform: Option<Json>): (r: Result<string, HttpError>)
    ensures r.Err? <==> platform.Some? && Truthy(platform.value) && !(platform.value.JStr? && platform.value.s in ValidPlatforms)
    ensures r.Err? ==> r.error == HttpError(400, "Invalid platform")
    ensures r.Ok? ==> r.value == "Data fetch initiated"
  {
    if platform.Some? && Truthy(platform.value) && !(platform.value.JStr? && platform.value.s in ValidPlatforms) then
      Err(HttpError(400, "Invalid platform"))
    else
      Ok("Data fetch initiated")
  }
}
