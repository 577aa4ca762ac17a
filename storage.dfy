/**
 * `SupabaseStorage` (server/storage.ts): the two tables the dashboard reads
 * and writes, held in memory, with the connection and metric operations and
 * the five analytics reads. Each analytics method runs the loops of the code
 * and is proved equal to the function that specifies it; the properties of
 * those functions are proved in their own modules.
 *
 * A database error, which the code logs and turns into an empty answer or a
 * rethrow, is not modelled; nor are the row timestamps.
 */
module Storage {
  import opened Wrappers
  import opened Json
  import opened Schema
  import opened Connections
  import opened Summaries
  import opened Performance
  import opened TopCampaigns
  import opened Timeseries
  import opened OAuth

  class SupabaseStorage {
    /** `platform_connections`, in table order. */
    var connections: seq<PlatformConnection>
    /** `campaign_metrics`, in table order. */
    var metrics: seq<CampaignMetric>
    /** The next value of the connections' serial id. */
    var nextConnectionId: int

    ghost predicate Valid()
      reads this
    {
      TableInvariant(connections, nextConnectionId)
    }

    constructor()
      ensures Valid()
      ensures connections == [] && metrics == []
    {
      connections := [];
      metrics := [];
      nextConnectionId := 1;
    }

    /** `getPlatformConnectionsByUserId` */
    function GetPlatformConnectionsByUserId(userId: int): seq<PlatformConnection>
      reads this
    {
      OfUser(connections, userId)
    }

    /** `getPlatformConnection` */
    function GetPlatformConnection(userId: int, platform: string): Option<PlatformConnection>
      reads this
    {
      FindConnection(connections, userId, platform)
    }

    /** `savePlatformConnection`: update the row of (user, platform) by id if there is one, else insert. */
    method SavePlatformConnection(input: ConnectionInput) returns (saved: PlatformConnection)
      requires Valid()
      modifies this
      ensures Valid()
      ensures (connections, saved) == Upsert(old(connections), input, old(nextConnectionId))
      ensures nextConnectionId == NextIdAfter(old(connections), input, old(nextConnectionId))
      ensures metrics == old(metrics)
    {
      UpsertKeepsInvariant(connections, input, nextConnectionId);
      var existing := GetPlatformConnection(input.userId, input.platform);
      if existing.Some? {
        saved := Updated(existing.value, input);
        connections := UpdateById(connections, existing.value, input);
      } else {
        saved := Inserted(input, nextConnectionId);
        connections := connections + [saved];
        nextConnectionId := nextConnectionId + 1;
      }
    }

    /** `deletePlatformConnection` */
    method DeletePlatformConnection(userId: int, platform: string)
      requires Valid()
      modifies this
      ensures Valid()
      ensures connections == Removed(old(connections), userId, platform)
      ensures metrics == old(metrics) && nextConnectionId == old(nextConnectionId)
    {
      DeleteThenFind(connections, nextConnectionId, userId, platform, userId, platform);
      connections := Removed(connections, userId, platform);
    }

    /** `saveCampaignMetrics`: nothing for an empty batch, else the batch appended in order. */
    method SaveCampaignMetrics(batch: seq<CampaignMetric>)
      modifies this
      ensures metrics == old(metrics) + batch
      ensures connections == old(connections) && nextConnectionId == old(nextConnectionId)
    {
      if |batch| == 0 {
        assert metrics + batch == metrics;
        return;
      }
      metrics := metrics + batch;
    }

    /** `getCampaignMetrics` */
    function GetCampaignMetrics(userId: int, start: int, end: int, platform: Option<string>): seq<CampaignMetric>
      reads this
    {
      MetricsIn(metrics, userId, start, end, platform)
    }

    /** `getMetricsSummary` */
    function GetMetricsSummary(userId: int, start: int, end: int, platform: Option<string>): MetricSummary
      reads this
    {
      SummaryOf(GetCampaignMetrics(userId, start, end, platform))
    }

    /** `getPlatformPerformance`: the loop over the rows' platforms, the loop over the connections, then the samples. */
    method GetPlatformPerformance(userId: int, start: int, end: int) returns (result: seq<PlatformPerformance>)
      ensures result == PerformanceOf(GetCampaignMetrics(userId, start, end, None), GetPlatformConnectionsByUserId(userId))
    {
      var conns := GetPlatformConnectionsByUserId(userId);
      var rows := GetCampaignMetrics(userId, start, end, None);
      result := MeasuredPlatforms(PlatformsOf(rows), rows, conns);
      result := ConnectedPlatforms(result, conns);
      if |result| == 0 {
        result := SamplePerformance();
      }
    }

    /** The first loop of `getPlatformPerformance`: one entry per platform that has rows. */
    method MeasuredPlatforms(platforms: seq<string>, rows: seq<CampaignMetric>, conns: seq<PlatformConnection>) returns (result: seq<PlatformPerformance>)
      ensures result == MetricEntries(platforms, rows, conns)
    {
      result := [];
      for i := 0 to |platforms|
        invariant result == MetricEntries(platforms[..i], rows, conns)
      {
        var platform := platforms[i];
        assert platforms[..i + 1][..i] == platforms[..i];
        if |OfPlatform(rows, platform)| > 0 {
          result := result + [Measured(platform, rows, IsConnected(conns, platform))];
        } else {
          assert result == result + [];
        }
      }
      assert platforms[..|platforms|] == platforms;
    }

    /** The second loop of `getPlatformPerformance`: a zero entry for each connected platform not yet listed. */
    method ConnectedPlatforms(measured: seq<PlatformPerformance>, conns: seq<PlatformConnection>) returns (result: seq<PlatformPerformance>)
      ensures result == AddConnected(measured, conns)
    {
      result := measured;
      for i := 0 to |conns|
        invariant AddConnected(result, conns[i..]) == AddConnected(measured, conns)
      {
        var connection := conns[i];
        assert conns[i..][1..] == conns[i + 1..];
        if !Listed(result, connection.platform) {
          result := result + [Unmeasured(connection.platform, true)];
        }
      }
    }

    /** The sample loop of `getPlatformPerformance`, for a user with neither rows nor connections. */
    method SamplePerformance() returns (result: seq<PlatformPerformance>)
      ensures result == SamplePlatforms
    {
      result := [];
      for i := 0 to |SamplePlatforms|
        invariant result == SamplePlatforms[..i]
      {
        result := result + [SamplePlatforms[i]];
      }
    }

    /** `getSpendDistribution` */
    method GetSpendDistribution(userId: int, start: int, end: int) returns (result: seq<SpendDistribution>)
      ensures result == SpendDistributionOf(PerformanceOf(GetCampaignMetrics(userId, start, end, None), GetPlatformConnectionsByUserId(userId)))
    {
      var platforms := GetPlatformPerformance(userId, start, end);
      result := SpendDistributionOf(platforms);
    }

    /** `getTopCampaigns`: the grouping loop, the sort and cut, then the sample loop for a user without rows. */
    method GetTopCampaigns(userId: int, start: int, end: int, limit: Option<int>, platform: Option<string>) returns (campaigns: seq<TopCampaign>)
      ensures campaigns == TopCampaignsOf(GetCampaignMetrics(userId, start, end, platform), limit)
    {
      var rows := GetCampaignMetrics(userId, start, end, platform);
      var groups := GroupCampaigns(rows);
      var sorted := SortByRoas(Campaigns(groups));
      campaigns := sorted[..SliceEnd(|sorted|, limit)];
      if limit.Some? && |campaigns| < limit.value {
        if |campaigns| == 0 {
          campaigns := SampleTop(limit.value);
        }
      }
    }

    /** The `campaignMap` loop of `getTopCampaigns`: one group per key, in order of first appearance. */
    method GroupCampaigns(rows: seq<CampaignMetric>) returns (groups: seq<Group>)
      ensures groups == Grouped(rows)
    {
      groups := [];
      for i := 0 to |rows|
        invariant groups == Grouped(rows[..i])
      {
        var m := rows[i];
        var key := CampaignKey(m);
        var existing := KeyIndex(groups, key);
        if existing.Some? {
          var j := existing.value;
          var c := groups[j].campaign;
          groups := groups[j := Group(key, c.(spend := c.spend + Value(m, Spend), conversions := c.conversions + Value(m, Conversions)))];
        } else {
          groups := groups + [Group(key, FirstCampaign(m))];
        }
        assert rows[..i + 1][..i] == rows[..i];
      }
      assert rows[..|rows|] == rows;
    }

    /** The sample loop of `getTopCampaigns`: the first `limit` samples, at most five. */
    method SampleTop(limit: int) returns (campaigns: seq<TopCampaign>)
      requires limit > 0
      ensures campaigns == SampleCampaigns[..Min(|SampleCampaigns|, limit)]
    {
      campaigns := [];
      for i := 0 to Min(|SampleCampaigns|, limit)
        invariant campaigns == SampleCampaigns[..i]
      {
        campaigns := campaigns + [SampleCampaigns[i]];
      }
    }

    /** `getPerformanceTimeseries`: the day loop, the bucket loop, one point per day, then the random fill when no row was selected. */
    method GetPerformanceTimeseries(userId: int, start: int, end: int, metric: string, platform: Option<string>, random: nat -> real) returns (result: seq<PerformancePoint>)
      ensures result == SeriesOf(GetCampaignMetrics(userId, start, end, platform), start, end, metric, platform, random)
    {
      var rows := GetCampaignMetrics(userId, start, end, platform);
      var dates := DayList(start, end);
      var dateMap := Buckets(dates, rows, metric);
      result := Points(dates, dateMap, rows, metric, platform);
      if |rows| == 0 {
        result := RandomFill(result, metric, random);
      }
    }

    /** The fill loop: the `i`-th point takes a value computed from the `i`-th draw. */
    method RandomFill(points: seq<PerformancePoint>, metric: string, random: nat -> real) returns (result: seq<PerformancePoint>)
      ensures result == Filled(points, metric, random)
    {
      result := points;
      for i := 0 to |result|
        invariant |result| == |points|
        invariant forall k :: 0 <= k < i ==> result[k] == FillPoint(points[k], metric, random(k))
        invariant forall k :: i <= k < |result| ==> result[k] == points[k]
      {
        var value;
        if metric == "spend" {
          value := random(i) * 500.0 + 500.0;
          result := result[i := result[i].(spend := Some(value))];
        } else if metric == "roas" {
          value := random(i) * 3.0 + 1.0;
          result := result[i := result[i].(roas := Some(value))];
        } else if metric == "conversions" {
          value := (random(i) * 40.0 + 10.0).Floor as real;
          result := result[i := result[i].(conversions := Some(value))];
        } else if metric == "ctr" {
          value := random(i) * 0.05 + 0.01;
          result := result[i := result[i].(ctr := Some(value))];
        }
      }
    }

    /** The `while (currentDate <= endDate)` loop: every day from `start` to `end`. */
    method DayList(start: int, end: int) returns (dates: seq<int>)
      ensures dates == Days(start, end)
    {
      dates := [];
      var current := start;
      while current <= end
        invariant start <= current <= (if start <= end then end + 1 else start)
        invariant dates == Days(start, current - 1)
        decreases end - current
      {
        dates := dates + [current];
        current := current + 1;
      }
    }

    /** The bucket initialisation and the aggregation loop: each listed day's entry after all the rows. */
    method Buckets(dates: seq<int>, rows: seq<CampaignMetric>, metric: string) returns (dateMap: map<int, DayEntry>)
      ensures dateMap.Keys == set k | 0 <= k < |dates| :: dates[k]
      ensures forall d :: d in dateMap ==> dateMap[d] == EntryFor(rows, metric, d)
    {
      dateMap := map[];
      for i := 0 to |dates|
        invariant dateMap.Keys == set k | 0 <= k < i :: dates[k]
        invariant forall d :: d in dateMap ==> dateMap[d] == EmptyEntry
      {
        dateMap := dateMap[dates[i] := EmptyEntry];
      }
      for j := 0 to |rows|
        invariant dateMap.Keys == set k | 0 <= k < |dates| :: dates[k]
        invariant forall d :: d in dateMap ==> dateMap[d] == EntryFor(rows[..j], metric, d)
      {
        var m := rows[j];
        assert rows[..j + 1][..j] == rows[..j];
        if m.date in dateMap {
          var entry := dateMap[m.date];
          var value := RowValue(m, metric);
          entry := entry[m.platform := Get(entry, m.platform) + value];
          entry := entry["total" := Get(entry, "total") + value];
          dateMap := dateMap[m.date := entry];
        }
      }
      assert rows[..|rows|] == rows;
    }

    /** The final `map` over the days: one point per day in the metric's field. */
    method Points(dates: seq<int>, dateMap: map<int, DayEntry>, rows: seq<CampaignMetric>, metric: string, platform: Option<string>) returns (result: seq<PerformancePoint>)
      requires forall k :: 0 <= k < |dates| ==> dates[k] in dateMap && dateMap[dates[k]] == EntryFor(rows, metric, dates[k])
      ensures |result| == |dates|
      ensures forall k :: 0 <= k < |dates| ==> result[k] == PointFor(dates[k], EntryFor(rows, metric, dates[k]), metric, platform)
    {
      result := [];
      for i := 0 to |dates|
        invariant |result| == i
        invariant forall k :: 0 <= k < i ==> result[k] == PointFor(dates[k], EntryFor(rows, metric, dates[k]), metric, platform)
      {
        var values := dateMap[dates[i]];
        var v := if Present(platform) then Get(values, platform.value) else Get(values, "total");
        var point := PerformancePoint(dates[i], None, None, None, None);
        if metric == "spend" { point := point.(spend := Some(v)); }
        if metric == "roas" { point := point.(roas := Some(v)); }
        if metric == "conversions" { point := point.(conversions := Some(v)); }
        if metric == "ctr" { point := point.(ctr := Some(v)); }
        result := result + [point];
      }
    }
  }
}
