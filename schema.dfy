/**
 * The records the server stores and the views it computes (shared/schema.ts):
 * platform connections, daily campaign metric rows, and the summary,
 * per-platform, spend-share, top-campaign and timeseries views.
 *
 * Dates are whole day numbers and money and ratios are `real`. A nullable
 * column is an `Option`, `None` standing for SQL null (and for `undefined` in
 * an insert record). The `created_at`/`updated_at` timestamps are not kept.
 */
module Schema {
  import opened Wrappers
  import opened Json

  /** A row of `platform_connections`. */
  datatype PlatformConnection = PlatformConnection(
    id: int,
    userId: int,
    platform: string,
    accessToken: string,
    refreshToken: Option<string>,
    expiresAt: Option<int>,
    accountId: Option<string>,
    accountName: Option<string>,
    metadata: Json)

  /** `InsertPlatformConnection`: what a caller hands to `savePlatformConnection`. */
  datatype ConnectionInput = ConnectionInput(
    userId: int,
    platform: string,
    accessToken: string,
    refreshToken: Option<string>,
    expiresAt: Option<int>,
    accountId: Option<string>,
    accountName: Option<string>,
    metadata: Option<Json>)

  /** A row of `campaign_metrics` (its serial id is never read and is not kept). */
  datatype CampaignMetric = CampaignMetric(
    userId: int,
    platform: string,
    platformConnectionId: Option<int>,
    campaignId: string,
    campaignName: string,
    date: int,
    spend: Option<real>,
    impressions: Option<int>,
    clicks: Option<int>,
    conversions: Option<int>,
    costPerConversion: Option<real>,
    conversionRate: Option<real>,
    ctr: Option<real>,
    cpc: Option<real>,
    roas: Option<real>)

  datatype MetricSummary = MetricSummary(
    totalSpend: real,
    totalImpressions: real,
    totalClicks: real,
    totalConversions: real,
    averageCtr: real,
    averageCpc: real,
    averageCostPerConversion: real,
    overallRoas: real,
    spendChange: real,
    roasChange: real,
    conversionsChange: real,
    costPerConversionChange: real)

  datatype PlatformPerformance = PlatformPerformance(
    platform: string,
    spend: real,
    impressions: real,
    clicks: real,
    conversions: real,
    ctr: real,
    cpc: real,
    costPerConversion: real,
    roas: real,
    isConnected: bool)

  datatype SpendDistribution = SpendDistribution(platform: string, percentage: real, isConnected: bool)

  datatype TopCampaign = TopCampaign(campaignName: string, platform: string, spend: real, conversions: real, roas: real)

  /** A timeseries point: only the field of the requested metric is set. */
  datatype PerformancePoint = PerformancePoint(
    date: int,
    spend: Option<real>,
    roas: Option<real>,
    conversions: Option<real>,
    ctr: Option<real>)

  // ------------------------------------------------------------ measures

  /** The row columns the aggregations sum. */
  datatype Measure = Spend | Impressions | Clicks | Conversions | Ctr | Cpc | Roas

  /** `m.<measure> || 0`: a null column counts as 0. */
  function Value(m: CampaignMetric, k: Measure): real {
    match k
    case Spend => m.spend.GetOr(0.0)
    case Impressions => m.impressions.GetOr(0) as real
    case Clicks => m.clicks.GetOr(0) as real
    case Conversions => m.conversions.GetOr(0) as real
    case Ctr => m.ctr.GetOr(0.0)
    case Cpc => m.cpc.GetOr(0.0)
    case Roas => m.roas.GetOr(0.0)
  }

  /** `rows.reduce((sum, m) => sum + (m.<measure> || 0), 0)` */
  function Total(rows: seq<CampaignMetric>, k: Measure): real {
    if rows == [] then 0.0 else Total(rows[..|rows| - 1], k) + Value(rows[|rows| - 1], k)
  }

  /** A total splits over any cut of its rows, so it does not depend on how the rows are batched. */
  lemma {:induction false} TotalAppend(xs: seq<CampaignMetric>, ys: seq<CampaignMetric>, k: Measure)
    ensures Total(xs + ys, k) == Total(xs, k) + Total(ys, k)
    decreases |ys|
  {
    if ys == [] {
      assert xs + ys == xs;
    } else {
      var n := |ys| - 1;
      assert (xs + ys)[..|xs + ys| - 1] == xs + ys[..n];
      TotalAppend(xs, ys[..n], k);
    }
  }

  lemma TotalSingle(m: CampaignMetric, k: Measure)
    ensures Total([m], k) == Value(m, k)
  {
    assert [m][..0] == [];
  }

  /** `a / b` behind the `b > 0 ? … : 0` guard the aggregations use. */
  function Ratio(a: real, b: real): real {
    if b > 0.0 then a / b else 0.0
  }

  /** A guarded quotient times a positive divisor gives back the dividend; a non-positive divisor gives 0. */
  lemma RatioInverse(a: real, b: real)
    ensures b > 0.0 ==> Ratio(a, b) * b == a
    ensures b <= 0.0 ==> Ratio(a, b) == 0.0
  {
  }

  /** `metrics.filter(m => m.platform === platform)` */
  function OfPlatform(rows: seq<CampaignMetric>, platform: string): (r: seq<CampaignMetric>)
    ensures forall m :: m in r <==> m in rows && m.platform == platform
    ensures |r| <= |rows|
  {
    if rows == [] then []
    else
      var last := rows[|rows| - 1];
      OfPlatform(rows[..|rows| - 1], platform) + (if last.platform == platform then [last] else [])
  }

  lemma OfPlatformAppend(xs: seq<CampaignMetric>, m: CampaignMetric, platform: string)
    ensures OfPlatform(xs + [m], platform) == OfPlatform(xs, platform) + (if m.platform == platform then [m] else [])
  {
    assert (xs + [m])[..|xs|] == xs;
  }
}
