/**
 * The per-platform view of server/storage.ts (`getPlatformPerformance`) and
 * the spend shares derived from it (`getSpendDistribution`), as functions of
 * the selected metric rows and the user's connections. The loops that build
 * the view are in `Storage.SupabaseStorage.GetPlatformPerformance`, proved
 * against `PerformanceOf`.
 */
module Performance {
  import opened Wrappers
  import opened Schema
  import opened Summaries

  /** `Array.from(new Set(metrics.map(m => m.platform)))`: each platform once, in order of first appearance. */
  function PlatformsOf(rows: seq<CampaignMetric>): (r: seq<string>)
    ensures forall p :: p in r <==> exists m :: m in rows && m.platform == p
    ensures forall i, j :: 0 <= i < j < |r| ==> r[i] != r[j]
  {
    if rows == [] then []
    else
      var ps := PlatformsOf(rows[..|rows| - 1]);
      var p := rows[|rows| - 1].platform;
      assert forall m :: m in rows <==> m in rows[..|rows| - 1] || m == rows[|rows| - 1];
      if p in ps then ps else ps + [p]
  }

  /** `connections.some(c => c.platform === platform)` */
  predicate IsConnected(conns: seq<PlatformConnection>, platform: string) {
    exists i :: 0 <= i < |conns| && conns[i].platform == platform
  }

  /** `result.some(r => r.platform === platform)` */
  predicate Listed(result: seq<PlatformPerformance>, platform: string) {
    exists i :: 0 <= i < |result| && result[i].platform == platform
  }

  predicate DistinctPlatforms(result: seq<PlatformPerformance>) {
    forall i, j :: 0 <= i < j < |result| ==> result[i].platform != result[j].platform
  }

  /** The entry of a platform with rows: its figures are those of the summary of its rows. */
  function Measured(platform: string, rows: seq<CampaignMetric>, connected: bool): PlatformPerformance {
    var s := SummaryOf(OfPlatform(rows, platform));
    PlatformPerformance(platform, s.totalSpend, s.totalImpressions, s.totalClicks, s.totalConversions,
      s.averageCtr, s.averageCpc, s.averageCostPerConversion, s.overallRoas, connected)
  }

  /** An entry with every measure 0. */
  function Unmeasured(platform: string, connected: bool): PlatformPerformance {
    PlatformPerformance(platform, 0.0, 0.0, 0.0, 0.0, 0.0, 0.0, 0.0, 0.0, connected)
  }

  /** What the first loop pushes for `platforms`: an entry for each platform that has rows. */
  function MetricEntries(platforms: seq<string>, rows: seq<CampaignMetric>, conns: seq<PlatformConnection>): seq<PlatformPerformance> {
    if platforms == [] then []
    else
      var p := platforms[|platforms| - 1];
      MetricEntries(platforms[..|platforms| - 1], rows, conns)
      + (if |OfPlatform(rows, p)| > 0 then [Measured(p, rows, IsConnected(conns, p))] else [])
  }

  /** One step of the second loop: a connection whose platform is not yet listed adds a zero entry. */
  function AddConnection(result: seq<PlatformPerformance>, c: PlatformConnection): seq<PlatformPerformance> {
    if Listed(result, c.platform) then result else result + [Unmeasured(c.platform, true)]
  }

  /** The second loop over `conns`, starting from `result`. */
  function AddConnected(result: seq<PlatformPerformance>, conns: seq<PlatformConnection>): seq<PlatformPerformance>
    decreases |conns|
  {
    if conns == [] then result else AddConnected(AddConnection(result, conns[0]), conns[1..])
  }

  /** The three unconnected zero entries a user with no rows and no connections sees. */
  const SamplePlatforms: seq<PlatformPerformance> :=
    [Unmeasured("google_ads", false), Unmeasured("facebook_ads", false), Unmeasured("tiktok_ads", false)]

  /** `getPlatformPerformance` over the selected rows and the user's connections. */
  function PerformanceOf(rows: seq<CampaignMetric>, conns: seq<PlatformConnection>): seq<PlatformPerformance> {
    var result := AddConnected(MetricEntries(PlatformsOf(rows), rows, conns), conns);
    if |result| == 0 then SamplePlatforms else result
  }

  // ------------------------------------------------------------ spend shares

  /** `platforms.reduce((sum, p) => sum + p.spend, 0)` */
  function SumSpend(perf: seq<PlatformPerformance>): real {
    if perf == [] then 0.0 else SumSpend(perf[..|perf| - 1]) + perf[|perf| - 1].spend
  }

  /** The share entries for a given total. */
  function SharesOf(perf: seq<PlatformPerformance>, total: real): (r: seq<SpendDistribution>)
    ensures |r| == |perf|
  {
    seq(|perf|, i requires 0 <= i < |perf| =>
      SpendDistribution(perf[i].platform, if total > 0.0 then perf[i].spend / total * 100.0 else 0.0, perf[i].isConnected))
  }

  /** `getSpendDistribution` over the per-platform view. */
  function SpendDistributionOf(perf: seq<PlatformPerformance>): seq<SpendDistribution> {
    SharesOf(perf, SumSpend(perf))
  }

  function SumPercent(ds: seq<SpendDistribution>): real {
    if ds == [] then 0.0 else SumPercent(ds[..|ds| - 1]) + ds[|ds| - 1].percentage
  }

  // ------------------------------------------------------------ properties

  /** The platforms of the first k rows come first: the list is in order of first appearance. */
  lemma {:induction false} PlatformsOfPrefix(rows: seq<CampaignMetric>, k: nat)
    requires k <= |rows|
    ensures PlatformsOf(rows[..k]) <= PlatformsOf(rows)
    decreases |rows|
  {
    if k < |rows| {
      var init := rows[..|rows| - 1];
      assert init[..k] == rows[..k];
      PlatformsOfPrefix(init, k);
    } else {
      assert rows[..k] == rows;
    }
  }

  lemma {:induction false} MetricEntriesAll(platforms: seq<string>, rows: seq<CampaignMetric>, conns: seq<PlatformConnection>)
    requires forall p :: p in platforms ==> exists m :: m in rows && m.platform == p
    ensures |MetricEntries(platforms, rows, conns)| == |platforms|
    ensures forall i :: 0 <= i < |platforms| ==>
      MetricEntries(platforms, rows, conns)[i] == Measured(platforms[i], rows, IsConnected(conns, platforms[i]))
  {
    if platforms != [] {
      var init := platforms[..|platforms| - 1];
      var p := platforms[|platforms| - 1];
      assert forall q :: q in init ==> q in platforms;
      MetricEntriesAll(init, rows, conns);
      assert p in platforms;
      var m :| m in rows && m.platform == p;
      assert m in OfPlatform(rows, p);
      var e := MetricEntries(platforms, rows, conns);
      var ei := MetricEntries(init, rows, conns);
      assert e == ei + [Measured(p, rows, IsConnected(conns, p))];
      forall i | 0 <= i < |platforms|
        ensures e[i] == Measured(platforms[i], rows, IsConnected(conns, platforms[i]))
      {
        if i < |init| {
          assert e[i] == ei[i] && platforms[i] == init[i];
        }
      }
    }
  }

  /** What the second loop does: it keeps what it is given, and appends a zero entry, marked connected, for each connected platform not yet listed. */
  lemma {:induction false} AddConnectedShape(result: seq<PlatformPerformance>, conns: seq<PlatformConnection>)
    requires DistinctPlatforms(result)
    ensures var r := AddConnected(result, conns);
      result <= r
      && DistinctPlatforms(r)
      && (forall p :: Listed(r, p) <==> Listed(result, p) || IsConnected(conns, p))
      && (forall i :: |result| <= i < |r| ==> r[i] == Unmeasured(r[i].platform, true) && IsConnected(conns, r[i].platform))
    decreases |conns|
  {
    if conns != [] {
      var next := AddConnection(result, conns[0]);
      AddConnectedShape(next, conns[1..]);
      var r := AddConnected(result, conns);
      ConnectedCons(conns);
      AddConnectionListed(result, conns[0]);
      forall i | |result| <= i < |r| ensures r[i] == Unmeasured(r[i].platform, true) && IsConnected(conns, r[i].platform) {
        if i >= |next| {
        } else {
          assert next[i] == Unmeasured(conns[0].platform, true);
          assert r[i] == next[i];
        }
      }
    }
  }

  lemma ConnectedCons(conns: seq<PlatformConnection>)
    requires conns != []
    ensures forall p :: IsConnected(conns, p) <==> conns[0].platform == p || IsConnected(conns[1..], p)
  {
    forall p ensures IsConnected(conns, p) <==> conns[0].platform == p || IsConnected(conns[1..], p) {
      if IsConnected(conns, p) && conns[0].platform != p {
        var i :| 0 <= i < |conns| && conns[i].platform == p;
        assert conns[1..][i - 1].platform == p;
      }
      if IsConnected(conns[1..], p) {
        var i :| 0 <= i < |conns[1..]| && conns[1..][i].platform == p;
        assert conns[i + 1].platform == p;
      }
    }
  }

  lemma AddConnectionListed(result: seq<PlatformPerformance>, c: PlatformConnection)
    ensures forall p :: Listed(AddConnection(result, c), p) <==> Listed(result, p) || c.platform == p
  {
    var next := AddConnection(result, c);
    forall p ensures Listed(next, p) <==> Listed(result, p) || c.platform == p {
      if Listed(next, p) && !Listed(result, p) {
        var i :| 0 <= i < |next| && next[i].platform == p;
        assert i == |result|;
      }
      if Listed(result, p) {
        var i :| 0 <= i < |result| && result[i].platform == p;
        assert next[i].platform == p;
      }
      if c.platform == p && !Listed(result, p) {
        assert next[|result|].platform == p;
      }
    }
  }

  /** What the first loop produces: one entry per platform with rows, in the order of `PlatformsOf`. */
  lemma FirstLoop(rows: seq<CampaignMetric>, conns: seq<PlatformConnection>)
    ensures var first := MetricEntries(PlatformsOf(rows), rows, conns);
      var ps := PlatformsOf(rows);
      |first| == |ps|
      && DistinctPlatforms(first)
      && (forall i :: 0 <= i < |ps| ==> first[i] == Measured(ps[i], rows, IsConnected(conns, ps[i])))
      && (forall p :: Listed(first, p) <==> exists m :: m in rows && m.platform == p)
  {
    var ps := PlatformsOf(rows);
    MetricEntriesAll(ps, rows, conns);
    var first := MetricEntries(ps, rows, conns);
    assert forall i :: 0 <= i < |ps| ==> first[i].platform == ps[i];
    forall p ensures Listed(first, p) <==> p in ps {
      if p in ps {
        var i :| 0 <= i < |ps| && ps[i] == p;
        assert first[i].platform == p;
      }
    }
  }

  /** With any row or any connection the two loops list something, so no sample is added. */
  lemma NoSamples(rows: seq<CampaignMetric>, conns: seq<PlatformConnection>)
    requires rows != [] || conns != []
    ensures PerformanceOf(rows, conns) == AddConnected(MetricEntries(PlatformsOf(rows), rows, conns), conns)
  {
    var first := MetricEntries(PlatformsOf(rows), rows, conns);
    FirstLoop(rows, conns);
    AddConnectedShape(first, conns);
    var all := AddConnected(first, conns);
    if rows != [] {
      assert rows[0] in rows;
      assert Listed(all, rows[0].platform);
    } else {
      assert IsConnected(conns, conns[0].platform);
      assert Listed(all, conns[0].platform);
    }
  }

  /**
   * With no rows and no connections the view is the three sample entries.
   * Otherwise: no platform appears twice; the listed platforms are exactly
   * those with rows and those connected; the platforms with rows come first,
   * in order of first appearance, each with the figures of its rows; the rest
   * are zero entries for connected platforms without rows.
   */
  lemma PerformanceEntries(rows: seq<CampaignMetric>, conns: seq<PlatformConnection>)
    ensures rows == [] && conns == [] ==> PerformanceOf(rows, conns) == SamplePlatforms
    ensures DistinctPlatforms(PerformanceOf(rows, conns))
    ensures rows != [] || conns != [] ==>
      var r := PerformanceOf(rows, conns);
      var ps := PlatformsOf(rows);
      (forall p :: Listed(r, p) <==> (exists m :: m in rows && m.platform == p) || IsConnected(conns, p))
      && |ps| <= |r|
      && (forall i :: 0 <= i < |ps| ==> r[i] == Measured(ps[i], rows, IsConnected(conns, ps[i])))
      && (forall i :: |ps| <= i < |r| ==>
            r[i] == Unmeasured(r[i].platform, true) && !(exists m :: m in rows && m.platform == r[i].platform))
  {
    if rows != [] || conns != [] {
      NoSamples(rows, conns);
      LoopsEntries(rows, conns);
    }
  }

  /** What the two loops produce, before the sample check. */
  lemma LoopsEntries(rows: seq<CampaignMetric>, conns: seq<PlatformConnection>)
    ensures var r := AddConnected(MetricEntries(PlatformsOf(rows), rows, conns), conns);
      var ps := PlatformsOf(rows);
      DistinctPlatforms(r)
      && (forall p :: Listed(r, p) <==> (exists m :: m in rows && m.platform == p) || IsConnected(conns, p))
      && |ps| <= |r|
      && (forall i :: 0 <= i < |ps| ==> r[i] == Measured(ps[i], rows, IsConnected(conns, ps[i])))
      && (forall i :: |ps| <= i < |r| ==>
            r[i] == Unmeasured(r[i].platform, true) && !(exists m :: m in rows && m.platform == r[i].platform))
  {
    var ps := PlatformsOf(rows);
    var first := MetricEntries(ps, rows, conns);
    FirstLoop(rows, conns);
    AddConnectedShape(first, conns);
    var all := AddConnected(first, conns);
    forall i | |ps| <= i < |all| ensures !Listed(first, all[i].platform) {
      forall j | 0 <= j < |first| ensures first[j].platform != all[i].platform {
        assert all[j] == first[j];
      }
    }
  }

  /** Each entry's `isConnected` says whether the user has a connection for its platform (the samples: none). */
  lemma PerformanceFlags(rows: seq<CampaignMetric>, conns: seq<PlatformConnection>)
    ensures var r := PerformanceOf(rows, conns);
      forall i :: 0 <= i < |r| ==> (r[i].isConnected <==> IsConnected(conns, r[i].platform))
  {
    PerformanceEntries(rows, conns);
  }

  lemma {:induction false} SharesSum(perf: seq<PlatformPerformance>, total: real)
    requires total > 0.0
    ensures SumPercent(SharesOf(perf, total)) == SumSpend(perf) / total * 100.0
  {
    if perf != [] {
      var n := |perf| - 1;
      var init := perf[..n];
      assert SharesOf(perf, total)[..n] == SharesOf(init, total);
      SharesSum(init, total);
      assert SumSpend(perf) / total * 100.0 == SumSpend(init) / total * 100.0 + perf[n].spend / total * 100.0;
    }
  }

  /**
   * The spend shares keep the view's platforms, order and `isConnected`
   * flags; each share is spend/total x 100 (0 when the total is not
   * positive), so with a positive total the shares add up to 100.
   */
  lemma SpendDistributionMeaning(perf: seq<PlatformPerformance>)
    ensures var d := SpendDistributionOf(perf);
      var total := SumSpend(perf);
      |d| == |perf|
      && (forall i :: 0 <= i < |d| ==> d[i].platform == perf[i].platform && d[i].isConnected == perf[i].isConnected)
      && (total > 0.0 ==> forall i :: 0 <= i < |d| ==> d[i].percentage * total == perf[i].spend * 100.0)
      && (total <= 0.0 ==> forall i :: 0 <= i < |d| ==> d[i].percentage == 0.0)
      && (total > 0.0 ==> SumPercent(d) == 100.0)
  {
    var total := SumSpend(perf);
    if total > 0.0 {
      SharesSum(perf, total);
      WholeShare(total);
    }
  }

  lemma WholeShare(total: real)
    requires total > 0.0
    ensures total / total * 100.0 == 100.0
  {
  }
}
