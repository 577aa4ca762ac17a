/**
 * The metric-row query and the dashboard summary of server/storage.ts:
 * `getCampaignMetrics` (an inclusive date window over one user's rows,
 * optionally one platform) and `getMetricsSummary` (totals, guarded averages,
 * ROAS at 100 per conversion, and fixed change figures).
 */
module Summaries {
  import opened Wrappers
  import opened Schema
  import opened OAuth

  /** The filter of `getCampaignMetrics`: the user, `start <= date <= end`, and the platform when a non-empty one is given. */
  predicate InWindow(m: CampaignMetric, userId: int, start: int, end: int, platform: Option<string>) {
    m.userId == userId && start <= m.date <= end && (Present(platform) ==> m.platform == platform.value)
  }

  /** `getCampaignMetrics`: the selected rows, in table order. */
  function MetricsIn(rows: seq<CampaignMetric>, userId: int, start: int, end: int, platform: Option<string>): (r: seq<CampaignMetric>)
    ensures forall m :: m in r <==> m in rows && InWindow(m, userId, start, end, platform)
    ensures |r| <= |rows|
  {
    if rows == [] then []
    else
      var last := rows[|rows| - 1];
      MetricsIn(rows[..|rows| - 1], userId, start, end, platform)
      + (if InWindow(last, userId, start, end, platform) then [last] else [])
  }

  /** The change figures a non-empty summary carries whatever the data. */
  const SpendChange: real := 12.4
  const RoasChange: real := 8.3
  const ConversionsChange: real := 23.5
  const CostPerConversionChange: real := -4.2

  const ZeroSummary: MetricSummary := MetricSummary(0.0, 0.0, 0.0, 0.0, 0.0, 0.0, 0.0, 0.0, 0.0, 0.0, 0.0, 0.0)

  /** `getMetricsSummary` over the rows `getCampaignMetrics` selected. */
  function SummaryOf(rows: seq<CampaignMetric>): MetricSummary {
    if |rows| == 0 then ZeroSummary
    else
      var spend := Total(rows, Spend);
      var impressions := Total(rows, Impressions);
      var clicks := Total(rows, Clicks);
      var conversions := Total(rows, Conversions);
      MetricSummary(
        spend, impressions, clicks, conversions,
        Ratio(clicks, impressions), Ratio(spend, clicks), Ratio(spend, conversions),
        Ratio(conversions * 100.0, spend),
        SpendChange, RoasChange, ConversionsChange, CostPerConversionChange)
  }

  // ------------------------------------------------------------ properties

  /** Rows saved later are selected after the earlier ones, and exactly when they fall in the window. */
  lemma {:induction false} MetricsInAppend(xs: seq<CampaignMetric>, ys: seq<CampaignMetric>, userId: int, start: int, end: int, platform: Option<string>)
    ensures MetricsIn(xs + ys, userId, start, end, platform)
      == MetricsIn(xs, userId, start, end, platform) + MetricsIn(ys, userId, start, end, platform)
    decreases |ys|
  {
    if ys == [] {
      assert xs + ys == xs;
    } else {
      var n := |ys| - 1;
      var last := ys[n];
      var tail := if InWindow(last, userId, start, end, platform) then [last] else [];
      assert (xs + ys)[..|xs + ys| - 1] == xs + ys[..n];
      assert (xs + ys)[|xs + ys| - 1] == last;
      MetricsInAppend(xs, ys[..n], userId, start, end, platform);
      var a := MetricsIn(xs, userId, start, end, platform);
      var b := MetricsIn(ys[..n], userId, start, end, platform);
      calc {
        MetricsIn(xs + ys, userId, start, end, platform);
        MetricsIn(xs + ys[..n], userId, start, end, platform) + tail;
        (a + b) + tail;
        { assert (a + b) + tail == a + (b + tail); }
        a + (b + tail);
        a + MetricsIn(ys, userId, start, end, platform);
      }
    }
  }

  /** A query for a non-empty platform selects exactly that platform's share of the unfiltered query, in order. */
  lemma {:induction false} MetricsInPlatform(rows: seq<CampaignMetric>, userId: int, start: int, end: int, p: string)
    requires p != ""
    ensures MetricsIn(rows, userId, start, end, Some(p)) == OfPlatform(MetricsIn(rows, userId, start, end, None), p)
  {
    if rows != [] {
      var init := rows[..|rows| - 1];
      var last := rows[|rows| - 1];
      MetricsInPlatform(init, userId, start, end, p);
      var all := MetricsIn(init, userId, start, end, None);
      assert rows[..|rows| - 1] == init;
      assert MetricsIn(rows, userId, start, end, Some(p))
        == MetricsIn(init, userId, start, end, Some(p)) + (if InWindow(last, userId, start, end, Some(p)) then [last] else []);
      assert InWindow(last, userId, start, end, Some(p)) <==> InWindow(last, userId, start, end, None) && last.platform == p;
      var tail := if InWindow(last, userId, start, end, Some(p)) then [last] else [];
      if InWindow(last, userId, start, end, None) {
        assert MetricsIn(rows, userId, start, end, None) == all + [last];
        OfPlatformAppend(all, last, p);
        assert OfPlatform(all + [last], p) == OfPlatform(all, p) + tail;
      } else {
        assert MetricsIn(rows, userId, start, end, None) == all;
        assert tail == [];
      }
    }
  }

  /**
   * An empty selection gives twelve zeros. Otherwise the totals are the
   * column sums with null as 0, and the four change figures are the
   * constants 12.4, 8.3, 23.5 and -4.2.
   */
  lemma SummaryMeaning(rows: seq<CampaignMetric>)
    ensures rows == [] ==> SummaryOf(rows) == ZeroSummary
    ensures rows != [] ==>
      var s := SummaryOf(rows);
      s.totalSpend == Total(rows, Spend) && s.totalImpressions == Total(rows, Impressions)
      && s.totalClicks == Total(rows, Clicks) && s.totalConversions == Total(rows, Conversions)
      && s.spendChange == 12.4 && s.roasChange == 8.3
      && s.conversionsChange == 23.5 && s.costPerConversionChange == -4.2
  {
  }

  /**
   * The averages of a summary: CTR, CPC and cost per conversion are the
   * quotients clicks/impressions, spend/clicks and spend/conversions, 0 when
   * the divisor is not positive; ROAS is conversions x 100 / spend, 0 when
   * spend is not positive (an empty selection has all four at 0).
   */
  lemma SummaryAverages(rows: seq<CampaignMetric>)
    ensures var s := SummaryOf(rows);
      (s.totalImpressions > 0.0 ==> s.averageCtr * s.totalImpressions == s.totalClicks)
      && (s.totalImpressions <= 0.0 ==> s.averageCtr == 0.0)
      && (s.totalClicks > 0.0 ==> s.averageCpc * s.totalClicks == s.totalSpend)
      && (s.totalClicks <= 0.0 ==> s.averageCpc == 0.0)
      && (s.totalConversions > 0.0 ==> s.averageCostPerConversion * s.totalConversions == s.totalSpend)
      && (s.totalConversions <= 0.0 ==> s.averageCostPerConversion == 0.0)
      && (s.totalSpend > 0.0 ==> s.overallRoas * s.totalSpend == s.totalConversions * 100.0)
      && (s.totalSpend <= 0.0 ==> s.overallRoas == 0.0)
  {
    var s := SummaryOf(rows);
    RatioInverse(s.totalClicks, s.totalImpressions);
    RatioInverse(s.totalSpend, s.totalClicks);
    RatioInverse(s.totalSpend, s.totalConversions);
    RatioInverse(s.totalConversions * 100.0, s.totalSpend);
  }

  /** The four totals of a selection split over any cut of its rows (the empty summary being all zeros). */
  lemma SummaryTotalsAdd(xs: seq<CampaignMetric>, ys: seq<CampaignMetric>)
    ensures SummaryOf(xs + ys).totalSpend == SummaryOf(xs).totalSpend + SummaryOf(ys).totalSpend
    ensures SummaryOf(xs + ys).totalImpressions == SummaryOf(xs).totalImpressions + SummaryOf(ys).totalImpressions
    ensures SummaryOf(xs + ys).totalClicks == SummaryOf(xs).totalClicks + SummaryOf(ys).totalClicks
    ensures SummaryOf(xs + ys).totalConversions == SummaryOf(xs).totalConversions + SummaryOf(ys).totalConversions
  {
    TotalAppend(xs, ys, Spend);
    TotalAppend(xs, ys, Impressions);
    TotalAppend(xs, ys, Clicks);
    TotalAppend(xs, ys, Conversions);
  }
}
