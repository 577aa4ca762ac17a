/**
 * The day-by-day timeseries of server/storage.ts (`getPerformanceTimeseries`):
 * one point per day from `start` to `end`, each carrying the requested metric
 * summed over that day's rows, for the requested platform or in total; when
 * no row was selected, the metric's field is overwritten with a random value.
 * `Math.random()` is the parameter `random`, its i-th draw being `random(i)`.
 *
 * A day's bucket is an object with a `total` property and one property per
 * platform; it is modelled as a map from property names to values, so a row
 * whose platform is literally "total" lands in the total twice, as it does in
 * the code. The loops are in `Storage.SupabaseStorage.GetPerformanceTimeseries`,
 * proved against `SeriesOf`.
 */
module Timeseries {
  import opened Wrappers
  import opened Schema
  import opened OAuth

  /** The `switch (metric)` of the aggregation loop: the column a metric name reads; an unknown name adds 0. */
  function MeasureNamed(metric: string): Option<Measure> {
    if metric == "spend" then Some(Spend)
    else if metric == "impressions" then Some(Impressions)
    else if metric == "clicks" then Some(Clicks)
    else if metric == "conversions" then Some(Conversions)
    else if metric == "ctr" then Some(Ctr)
    else if metric == "cpc" then Some(Cpc)
    else if metric == "roas" then Some(Roas)
    else None
  }

  /** The value one row adds for `metric`. */
  function RowValue(m: CampaignMetric, metric: string): real {
    match MeasureNamed(metric)
    case Some(k) => Value(m, k)
    case None => 0.0
  }

  /** A `dateMap` entry: property name to value. */
  type DayEntry = map<string, real>

  /** `entry[key] || 0` */
  function Get(e: DayEntry, key: string): real {
    if key in e then e[key] else 0.0
  }

  /** `{ total: 0 }` */
  const EmptyEntry: DayEntry := map["total" := 0.0]

  /** `entry[platform] = (entry[platform] || 0) + value; entry.total += value` */
  function AddValue(e: DayEntry, platform: string, v: real): DayEntry {
    var withPlatform := e[platform := Get(e, platform) + v];
    withPlatform["total" := Get(withPlatform, "total") + v]
  }

  /** Day `d`'s entry after the aggregation loop has seen `rows`. */
  function EntryFor(rows: seq<CampaignMetric>, metric: string, d: int): DayEntry {
    if rows == [] then EmptyEntry
    else
      var e := EntryFor(rows[..|rows| - 1], metric, d);
      var m := rows[|rows| - 1];
      if m.date == d then AddValue(e, m.platform, RowValue(m, metric)) else e
  }

  /** The days the `while (currentDate <= endDate)` loop visits. */
  function Days(start: int, end: int): (r: seq<int>)
    ensures |r| == if start <= end then end - start + 1 else 0
    ensures forall i :: 0 <= i < |r| ==> r[i] == start + i
  {
    seq(if start <= end then end - start + 1 else 0, i => start + i)
  }

  /** The point of one day: the platform's value when a platform is given, else the total, in the metric's field only. */
  function PointFor(date: int, e: DayEntry, metric: string, platform: Option<string>): PerformancePoint {
    var v := if Present(platform) then Get(e, platform.value) else Get(e, "total");
    PerformancePoint(date,
      if metric == "spend" then Some(v) else None,
      if metric == "roas" then Some(v) else None,
      if metric == "conversions" then Some(v) else None,
      if metric == "ctr" then Some(v) else None)
  }

  /** `getPerformanceTimeseries` over the selected rows, before the random fill. */
  function TimeseriesOf(rows: seq<CampaignMetric>, start: int, end: int, metric: string, platform: Option<string>): seq<PerformancePoint> {
    var days := Days(start, end);
    seq(|days|, i requires 0 <= i < |days| => PointFor(days[i], EntryFor(rows, metric, days[i]), metric, platform))
  }

  /** One point of the fill: `value = Math.random() * ...` for the four charted metrics, nothing for the others. */
  function FillPoint(p: PerformancePoint, metric: string, x: real): PerformancePoint {
    if metric == "spend" then p.(spend := Some(x * 500.0 + 500.0))
    else if metric == "roas" then p.(roas := Some(x * 3.0 + 1.0))
    else if metric == "conversions" then p.(conversions := Some((x * 40.0 + 10.0).Floor as real))
    else if metric == "ctr" then p.(ctr := Some(x * 0.05 + 0.01))
    else p
  }

  /** The points with the `i`-th draw written into the `i`-th point. */
  function Filled(points: seq<PerformancePoint>, metric: string, random: nat -> real): seq<PerformancePoint> {
    seq(|points|, i requires 0 <= i < |points| => FillPoint(points[i], metric, random(i)))
  }

  /** `getPerformanceTimeseries`: the series, filled with random values when no row was selected. */
  function SeriesOf(rows: seq<CampaignMetric>, start: int, end: int, metric: string, platform: Option<string>, random: nat -> real): seq<PerformancePoint> {
    var points := TimeseriesOf(rows, start, end, metric, platform);
    if rows == [] then Filled(points, metric, random) else points
  }

  // ------------------------------------------------------------ reference: plain sums

  /** The sum of `metric` over the rows of day `d`, of one platform when one is given. */
  function DaySum(rows: seq<CampaignMetric>, metric: string, d: int, platform: Option<string>): real {
    if rows == [] then 0.0
    else
      var m := rows[|rows| - 1];
      var counts := m.date == d && (platform.Some? ==> m.platform == platform.value);
      DaySum(rows[..|rows| - 1], metric, d, platform) + (if counts then RowValue(m, metric) else 0.0)
  }

  // ------------------------------------------------------------ properties

  /**
   * A day's entry holds, under each platform other than "total", the sum of
   * the metric over that day's rows of the platform; its total is the sum
   * over all the day's rows, plus once more the rows whose platform is
   * "total".
   */
  lemma {:induction false} EntryMeaning(rows: seq<CampaignMetric>, metric: string, d: int)
    ensures forall p :: p != "total" ==> Get(EntryFor(rows, metric, d), p) == DaySum(rows, metric, d, Some(p))
    ensures Get(EntryFor(rows, metric, d), "total") == DaySum(rows, metric, d, None) + DaySum(rows, metric, d, Some("total"))
  {
    if rows != [] {
      EntryMeaning(rows[..|rows| - 1], metric, d);
    }
  }

  /**
   * One point per day from `start` to `end`, with no gap; only the requested
   * metric's field is set; its value is the day's sum for the given platform
   * or, without a platform, the day's total (so the `ctr` series adds up the
   * rows' own CTRs).
   */
  lemma TimeseriesMeaning(rows: seq<CampaignMetric>, start: int, end: int, metric: string, platform: Option<string>)
    ensures var r := TimeseriesOf(rows, start, end, metric, platform);
      |r| == (if start <= end then end - start + 1 else 0)
      && forall i :: 0 <= i < |r| ==>
        var d := start + i;
        var v := if !Present(platform) || platform.value == "total"
                 then DaySum(rows, metric, d, None) + DaySum(rows, metric, d, Some("total"))
                 else DaySum(rows, metric, d, platform);
        r[i].date == d
        && r[i].spend == (if metric == "spend" then Some(v) else None)
        && r[i].roas == (if metric == "roas" then Some(v) else None)
        && r[i].conversions == (if metric == "conversions" then Some(v) else None)
        && r[i].ctr == (if metric == "ctr" then Some(v) else None)
  {
    forall d
      ensures forall p :: p != "total" ==> Get(EntryFor(rows, metric, d), p) == DaySum(rows, metric, d, Some(p))
      ensures Get(EntryFor(rows, metric, d), "total") == DaySum(rows, metric, d, None) + DaySum(rows, metric, d, Some("total"))
    {
      EntryMeaning(rows, metric, d);
    }
  }

  /** Without rows of the platform "total", a point without a platform is exactly the day's sum. */
  lemma {:induction false} NoTotalPlatform(rows: seq<CampaignMetric>, metric: string, d: int)
    requires forall i :: 0 <= i < |rows| ==> rows[i].platform != "total"
    ensures DaySum(rows, metric, d, Some("total")) == 0.0
  {
    if rows != [] {
      NoTotalPlatform(rows[..|rows| - 1], metric, d);
    }
  }

  /**
   * Without rows, each day still has its point, and a draw in [0, 1) puts
   * the metric's value in the range the code documents: spend in [500, 1000),
   * ROAS in [1, 4), a whole number of conversions in [10, 49], CTR in
   * [0.01, 0.06); any other metric leaves every field unset.
   */
  lemma FillRanges(start: int, end: int, metric: string, platform: Option<string>, random: nat -> real)
    requires forall i: nat :: 0.0 <= random(i) < 1.0
    ensures var r := SeriesOf([], start, end, metric, platform, random);
      |r| == (if start <= end then end - start + 1 else 0)
      && forall i :: 0 <= i < |r| ==>
        r[i].date == start + i
        && (metric == "spend" ==> r[i].spend.Some? && 500.0 <= r[i].spend.value < 1000.0)
        && (metric == "roas" ==> r[i].roas.Some? && 1.0 <= r[i].roas.value < 4.0)
        && (metric == "conversions" ==>
              r[i].conversions.Some? && r[i].conversions.value == r[i].conversions.value.Floor as real
              && 10.0 <= r[i].conversions.value <= 49.0)
        && (metric == "ctr" ==> r[i].ctr.Some? && 0.01 <= r[i].ctr.value < 0.06)
        && (metric !in ["spend", "roas", "conversions", "ctr"] ==>
              r[i].spend.None? && r[i].roas.None? && r[i].conversions.None? && r[i].ctr.None?)
  {
    var r := SeriesOf([], start, end, metric, platform, random);
    forall i | 0 <= i < |r|
      ensures metric == "conversions" ==>
        r[i].conversions.Some? && r[i].conversions.value == r[i].conversions.value.Floor as real
        && 10.0 <= r[i].conversions.value <= 49.0
    {
      if metric == "conversions" {
        var x := random(i);
        var n := (x * 40.0 + 10.0).Floor;
        assert 10 <= n <= 49;
      }
    }
  }
}
