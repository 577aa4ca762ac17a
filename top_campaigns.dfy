/**
 * The top-campaigns view of server/storage.ts (`getTopCampaigns`): rows are
 * grouped under the key `campaignId:platform`, a group's spend and
 * conversions accumulate over its rows while its ROAS is the one of its first
 * row, the groups are stably sorted by ROAS, highest first, and cut to
 * `limit`; a user without rows gets fixed sample campaigns instead.
 *
 * The grouping loop and the sample loop are in
 * `Storage.SupabaseStorage.GetTopCampaigns`, proved against `Grouped` and
 * `TopCampaignsOf`.
 */
module TopCampaigns {
  import opened Wrappers
  import opened Schema

  /** `${metric.campaignId}:${metric.platform}` */
  function CampaignKey(m: CampaignMetric): string {
    m.campaignId + ":" + m.platform
  }

  /** An entry of `campaignMap`: its key and its value. */
  datatype Group = Group(key: string, campaign: TopCampaign)

  /** `campaignMap.get(key)`, as the position of the entry. */
  function KeyIndex(groups: seq<Group>, key: string): (r: Option<nat>)
    ensures r.Some? ==> r.value < |groups| && groups[r.value].key == key
    ensures r.None? ==> forall i :: 0 <= i < |groups| ==> groups[i].key != key
  {
    if groups == [] then None
    else if groups[0].key == key then Some(0)
    else match KeyIndex(groups[1..], key)
      case Some(i) => Some(i + 1)
      case None => None
  }

  /** The value a row's campaign starts with: its own spend and conversions, and ROAS conversions x 100 / spend (0 without spend). */
  function FirstCampaign(m: CampaignMetric): TopCampaign {
    TopCampaign(m.campaignName, m.platform, Value(m, Spend), Value(m, Conversions),
      Ratio(Value(m, Conversions) * 100.0, Value(m, Spend)))
  }

  /** A later row of the same campaign adds its spend and conversions and nothing else. */
  function Accumulate(c: TopCampaign, m: CampaignMetric): TopCampaign {
    c.(spend := c.spend + Value(m, Spend), conversions := c.conversions + Value(m, Conversions))
  }

  /** One pass of the grouping loop. */
  function AddRow(groups: seq<Group>, m: CampaignMetric): seq<Group> {
    var k := CampaignKey(m);
    match KeyIndex(groups, k)
    case Some(i) => groups[i := Group(k, Accumulate(groups[i].campaign, m))]
    case None => groups + [Group(k, FirstCampaign(m))]
  }

  /** `campaignMap` after the grouping loop over `rows`, in insertion order. */
  function Grouped(rows: seq<CampaignMetric>): seq<Group> {
    if rows == [] then [] else AddRow(Grouped(rows[..|rows| - 1]), rows[|rows| - 1])
  }

  /** `Array.from(campaignMap.values())` */
  function Campaigns(groups: seq<Group>): (r: seq<TopCampaign>)
    ensures |r| == |groups|
  {
    seq(|groups|, i requires 0 <= i < |groups| => groups[i].campaign)
  }

  // ------------------------------------------------------------ reference: per-key figures

  predicate HasKey(rows: seq<CampaignMetric>, k: string) {
    exists i :: 0 <= i < |rows| && CampaignKey(rows[i]) == k
  }

  /** The rows of one key, in order. */
  function WithKey(rows: seq<CampaignMetric>, k: string): seq<CampaignMetric> {
    if rows == [] then []
    else
      var last := rows[|rows| - 1];
      WithKey(rows[..|rows| - 1], k) + (if CampaignKey(last) == k then [last] else [])
  }

  /** The first row of one key. */
  function FirstWithKey(rows: seq<CampaignMetric>, k: string): CampaignMetric
    requires HasKey(rows, k)
  {
    var init := rows[..|rows| - 1];
    if HasKey(init, k) then FirstWithKey(init, k)
    else rows[|rows| - 1]
  }

  /** The position of the first row of one key. */
  function FirstIndex(rows: seq<CampaignMetric>, k: string): (r: nat)
    requires HasKey(rows, k)
    ensures r < |rows| && CampaignKey(rows[r]) == k
    ensures forall i :: 0 <= i < r ==> CampaignKey(rows[i]) != k
  {
    var init := rows[..|rows| - 1];
    if HasKey(init, k) then FirstIndex(init, k)
    else
      assert forall i :: 0 <= i < |init| ==> rows[i] == init[i];
      |rows| - 1
  }

  /** What a key's group holds: the first row's name, platform and ROAS, and the spend and conversions of all its rows. */
  function GroupFigures(rows: seq<CampaignMetric>, k: string): TopCampaign
    requires HasKey(rows, k)
  {
    var f := FirstWithKey(rows, k);
    var ks := WithKey(rows, k);
    TopCampaign(f.campaignName, f.platform, Total(ks, Spend), Total(ks, Conversions), FirstCampaign(f).roas)
  }

  // ------------------------------------------------------------ sorting and cutting

  predicate ByRoas(cs: seq<TopCampaign>) {
    forall i, j :: 0 <= i < j < |cs| ==> cs[i].roas >= cs[j].roas
  }

  /** Inserts `c` before the first entry whose ROAS is not higher. */
  function Insert(c: TopCampaign, sorted: seq<TopCampaign>): seq<TopCampaign> {
    if sorted == [] || sorted[0].roas <= c.roas then [c] + sorted
    else [sorted[0]] + Insert(c, sorted[1..])
  }

  /** `.sort((a, b) => b.roas - a.roas)`, which is stable. */
  function SortByRoas(cs: seq<TopCampaign>): seq<TopCampaign> {
    if cs == [] then [] else Insert(cs[0], SortByRoas(cs[1..]))
  }

  /** The entries with ROAS `v`, in order. */
  function WithRoas(cs: seq<TopCampaign>, v: real): seq<TopCampaign> {
    if cs == [] then [] else (if cs[0].roas == v then [cs[0]] else []) + WithRoas(cs[1..], v)
  }

  /** The end index `slice(0, limit)` uses: a negative limit counts from the back, and `NaN` (`None`) is 0. */
  function SliceEnd(len: nat, limit: Option<int>): (r: nat)
    ensures r <= len
  {
    match limit
    case None => 0
    case Some(l) =>
      if l < 0 then (if len + l < 0 then 0 else len + l)
      else if l > len then len else l
  }

  function Min(a: int, b: int): int {
    if a < b then a else b
  }

  const SampleCampaigns: seq<TopCampaign> := [
    TopCampaign("Summer Collection 2025", "google_ads", 4321.56, 325.0, 4.2),
    TopCampaign("New Product Launch", "facebook_ads", 3785.23, 289.0, 3.8),
    TopCampaign("Seasonal Promotion", "instagram_ads", 2543.78, 198.0, 3.5),
    TopCampaign("Holiday Special", "google_ads", 1987.45, 146.0, 2.8),
    TopCampaign("Brand Awareness", "facebook_ads", 1453.21, 92.0, 1.9)
  ]

  /** How many samples a user without rows gets for `limit`: `min(5, limit)`, none for a non-positive or `NaN` limit. */
  function SampleCount(limit: Option<int>): (r: nat)
    ensures r <= |SampleCampaigns|
  {
    if limit.Some? && limit.value > 0 then Min(|SampleCampaigns|, limit.value) else 0
  }

  /** `getTopCampaigns` over the selected rows; `limit` is `None` for `NaN`. */
  function TopCampaignsOf(rows: seq<CampaignMetric>, limit: Option<int>): seq<TopCampaign> {
    var sorted := SortByRoas(Campaigns(Grouped(rows)));
    var top := sorted[..SliceEnd(|sorted|, limit)];
    if limit.Some? && |top| < limit.value && |top| == 0 then SampleCampaigns[..SampleCount(limit)] else top
  }

  // ------------------------------------------------------------ properties

  lemma {:induction false} InsertPermutes(c: TopCampaign, s: seq<TopCampaign>)
    ensures multiset(Insert(c, s)) == multiset{c} + multiset(s)
    ensures |Insert(c, s)| == |s| + 1
  {
    if s != [] && s[0].roas > c.roas {
      InsertPermutes(c, s[1..]);
      assert s == [s[0]] + s[1..];
    }
  }

  lemma {:induction false} InsertSorted(c: TopCampaign, s: seq<TopCampaign>)
    requires ByRoas(s)
    ensures ByRoas(Insert(c, s))
  {
    if s != [] && s[0].roas > c.roas {
      InsertSorted(c, s[1..]);
      InsertPermutes(c, s[1..]);
      var r := Insert(c, s);
      assert r == [s[0]] + Insert(c, s[1..]);
      forall j | 0 < j < |r| ensures r[0].roas >= r[j].roas {
        assert r[j] in multiset(Insert(c, s[1..]));
        if r[j] != c {
          assert r[j] in s[1..];
        }
      }
    }
  }

  lemma {:induction false} InsertStable(c: TopCampaign, s: seq<TopCampaign>, v: real)
    ensures WithRoas(Insert(c, s), v) == (if c.roas == v then [c] else []) + WithRoas(s, v)
  {
    if s == [] || s[0].roas <= c.roas {
      assert ([c] + s)[1..] == s;
    } else {
      InsertStable(c, s[1..], v);
      InsertStableStep(c, s, v);
    }
  }

  /** Passing over a first entry of higher ROAS keeps the entries of ROAS `v` in order. */
  lemma InsertStableStep(c: TopCampaign, s: seq<TopCampaign>, v: real)
    requires s != [] && s[0].roas > c.roas
    requires WithRoas(Insert(c, s[1..]), v) == (if c.roas == v then [c] else []) + WithRoas(s[1..], v)
    ensures WithRoas(Insert(c, s), v) == (if c.roas == v then [c] else []) + WithRoas(s, v)
  {
    var rest := Insert(c, s[1..]);
    var head := if s[0].roas == v then [s[0]] else [];
    assert Insert(c, s) == [s[0]] + rest;
    WithRoasCons(s[0], rest, v);
    WithRoasCons(s[0], s[1..], v);
    assert [s[0]] + s[1..] == s;
    if c.roas == v {
      assert head == [];
      calc {
        WithRoas(Insert(c, s), v);
        head + WithRoas(rest, v);
        { assert head + WithRoas(rest, v) == WithRoas(rest, v); }
        [c] + WithRoas(s[1..], v);
        { assert WithRoas(s, v) == WithRoas(s[1..], v); }
        [c] + WithRoas(s, v);
      }
    } else {
      calc {
        WithRoas(Insert(c, s), v);
        head + WithRoas(rest, v);
        { assert WithRoas(rest, v) == [] + WithRoas(s[1..], v) == WithRoas(s[1..], v); }
        head + WithRoas(s[1..], v);
        WithRoas(s, v);
        { assert [] + WithRoas(s, v) == WithRoas(s, v); }
        [] + WithRoas(s, v);
      }
    }
  }

  lemma WithRoasCons(x: TopCampaign, t: seq<TopCampaign>, v: real)
    ensures WithRoas([x] + t, v) == (if x.roas == v then [x] else []) + WithRoas(t, v)
  {
    assert ([x] + t)[0] == x;
    assert ([x] + t)[1..] == t;
  }

  /**
   * The sort is a permutation, its result is non-increasing in ROAS, and it
   * is stable: the entries of any one ROAS keep their input order.
   */
  lemma {:induction false} SortByRoasFacts(cs: seq<TopCampaign>)
    ensures multiset(SortByRoas(cs)) == multiset(cs)
    ensures |SortByRoas(cs)| == |cs|
    ensures ByRoas(SortByRoas(cs))
    ensures forall v :: WithRoas(SortByRoas(cs), v) == WithRoas(cs, v)
  {
    if cs != [] {
      SortByRoasFacts(cs[1..]);
      InsertPermutes(cs[0], SortByRoas(cs[1..]));
      InsertSorted(cs[0], SortByRoas(cs[1..]));
      forall v ensures WithRoas(SortByRoas(cs), v) == WithRoas(cs, v) {
        InsertStable(cs[0], SortByRoas(cs[1..]), v);
      }
      assert cs == [cs[0]] + cs[1..];
    }
  }

  /** The samples are already in ROAS order. */
  lemma SamplesByRoas()
    ensures ByRoas(SampleCampaigns)
  {
  }

  /**
   * The view is non-increasing in ROAS. Its length is at most a non-negative
   * `limit` (nothing at all for `NaN`). With rows it is the first entries of
   * the sorted groups, `min(limit, groups)` of them for a non-negative limit
   * and all but the last `-limit` for a negative one; without rows it is the
   * first `min(5, limit)` samples.
   */
  lemma TopCampaignsShape(rows: seq<CampaignMetric>, limit: Option<int>)
    ensures ByRoas(TopCampaignsOf(rows, limit))
    ensures limit.Some? && limit.value >= 0 ==> |TopCampaignsOf(rows, limit)| <= limit.value
    ensures limit.None? ==> TopCampaignsOf(rows, limit) == []
    ensures rows != [] ==> TopCampaignsOf(rows, limit) <= SortByRoas(Campaigns(Grouped(rows)))
    ensures rows != [] && limit.Some? && limit.value >= 0 ==>
      |TopCampaignsOf(rows, limit)| == Min(limit.value, |Grouped(rows)|)
    ensures rows != [] && limit.Some? && limit.value < 0 ==>
      |TopCampaignsOf(rows, limit)| == (if |Grouped(rows)| + limit.value < 0 then 0 else |Grouped(rows)| + limit.value)
    ensures rows == [] ==> TopCampaignsOf(rows, limit) == SampleCampaigns[..SampleCount(limit)]
  {
    var sorted := SortByRoas(Campaigns(Grouped(rows)));
    SortByRoasFacts(Campaigns(Grouped(rows)));
    SamplesByRoas();
    if rows != [] {
      var last := rows[|rows| - 1];
      assert KeyIndex(Grouped(rows[..|rows| - 1]), CampaignKey(last)).Some? ==> |Grouped(rows)| > 0;
      assert |Grouped(rows)| > 0;
    }
  }

  lemma {:induction false} WithKeyNone(rows: seq<CampaignMetric>, k: string)
    requires !HasKey(rows, k)
    ensures WithKey(rows, k) == []
  {
    if rows != [] {
      WithKeyNone(rows[..|rows| - 1], k);
    }
  }

  /** `g` holds exactly one group per key of `rows`, with that key's figures. */
  ghost predicate GroupsExact(rows: seq<CampaignMetric>, g: seq<Group>) {
    (forall i, j :: 0 <= i < j < |g| ==> g[i].key != g[j].key)
    && (forall k :: HasKey(rows, k) <==> KeyIndex(g, k).Some?)
    && (forall i :: 0 <= i < |g| ==> HasKey(rows, g[i].key) && g[i].campaign == GroupFigures(rows, g[i].key))
  }

  lemma HasKeySnoc(init: seq<CampaignMetric>, m: CampaignMetric)
    ensures forall x :: HasKey(init + [m], x) <==> HasKey(init, x) || x == CampaignKey(m)
  {
    var rows := init + [m];
    forall x ensures HasKey(rows, x) <==> HasKey(init, x) || x == CampaignKey(m) {
      if HasKey(init, x) {
        var i :| 0 <= i < |init| && CampaignKey(init[i]) == x;
        assert rows[i] == init[i];
      }
      if HasKey(rows, x) && x != CampaignKey(m) {
        var i :| 0 <= i < |rows| && CampaignKey(rows[i]) == x;
        assert init[i] == rows[i];
      }
      assert rows[|init|] == m;
    }
  }

  /** Groups other than the new row's keep their figures. */
  lemma FiguresSnoc(init: seq<CampaignMetric>, m: CampaignMetric, x: string)
    requires HasKey(init, x) && x != CampaignKey(m)
    ensures HasKey(init + [m], x) && GroupFigures(init + [m], x) == GroupFigures(init, x)
  {
    HasKeySnoc(init, m);
    var rows := init + [m];
    assert rows[..|rows| - 1] == init;
    assert FirstWithKey(rows, x) == FirstWithKey(init, x);
    assert WithKey(rows, x) == WithKey(init, x) + [];
    assert WithKey(rows, x) == WithKey(init, x);
  }

  /** A row of a key already seen adds to that group's spend and conversions and keeps its first row. */
  lemma FiguresExisting(init: seq<CampaignMetric>, m: CampaignMetric)
    requires HasKey(init, CampaignKey(m))
    ensures HasKey(init + [m], CampaignKey(m))
    ensures GroupFigures(init + [m], CampaignKey(m)) == Accumulate(GroupFigures(init, CampaignKey(m)), m)
  {
    var k := CampaignKey(m);
    HasKeySnoc(init, m);
    assert (init + [m])[..|init|] == init;
    assert WithKey(init + [m], k) == WithKey(init, k) + [m];
    TotalAppend(WithKey(init, k), [m], Spend);
    TotalAppend(WithKey(init, k), [m], Conversions);
    TotalSingle(m, Spend);
    TotalSingle(m, Conversions);
  }

  /** A row of a new key starts a group with its own figures. */
  lemma FiguresNew(init: seq<CampaignMetric>, m: CampaignMetric)
    requires !HasKey(init, CampaignKey(m))
    ensures HasKey(init + [m], CampaignKey(m))
    ensures GroupFigures(init + [m], CampaignKey(m)) == FirstCampaign(m)
  {
    var k := CampaignKey(m);
    HasKeySnoc(init, m);
    assert (init + [m])[..|init|] == init;
    WithKeyNone(init, k);
    assert WithKey(init + [m], k) == [m];
    TotalSingle(m, Spend);
    TotalSingle(m, Conversions);
  }

  lemma GroupedStep(init: seq<CampaignMetric>, m: CampaignMetric, g: seq<Group>)
    requires GroupsExact(init, g)
    ensures GroupsExact(init + [m], AddRow(g, m))
  {
    HasKeySnoc(init, m);
    if KeyIndex(g, CampaignKey(m)).Some? {
      GroupedStepExisting(init, m, g);
    } else {
      GroupedStepNew(init, m, g);
    }
  }

  /** A row of a key already in the map updates that entry in place. */
  lemma GroupedStepExisting(init: seq<CampaignMetric>, m: CampaignMetric, g: seq<Group>)
    requires GroupsExact(init, g)
    requires KeyIndex(g, CampaignKey(m)).Some?
    ensures GroupsExact(init + [m], AddRow(g, m))
  {
    var k := CampaignKey(m);
    var rows := init + [m];
    var g' := AddRow(g, m);
    var idx := KeyIndex(g, k).value;
    HasKeySnoc(init, m);
    FiguresExisting(init, m);
    assert g' == g[idx := Group(k, Accumulate(g[idx].campaign, m))];
    assert g[idx].key == k;
    forall i | 0 <= i < |g'| ensures g'[i].key == g[i].key {
      if i == idx {
        assert g'[i] == Group(k, Accumulate(g[idx].campaign, m));
      }
    }
    forall i | 0 <= i < |g'| ensures HasKey(rows, g'[i].key) && g'[i].campaign == GroupFigures(rows, g'[i].key) {
      if i != idx {
        FiguresSnoc(init, m, g[i].key);
      }
    }
    forall x ensures HasKey(rows, x) <==> KeyIndex(g', x).Some? {
      if HasKey(rows, x) {
        var j := KeyIndex(g, x).value;
        assert g'[j].key == x;
      }
    }
  }

  /** A row of a new key appends an entry. */
  lemma GroupedStepNew(init: seq<CampaignMetric>, m: CampaignMetric, g: seq<Group>)
    requires GroupsExact(init, g)
    requires KeyIndex(g, CampaignKey(m)).None?
    ensures GroupsExact(init + [m], AddRow(g, m))
  {
    var k := CampaignKey(m);
    var rows := init + [m];
    var g' := AddRow(g, m);
    HasKeySnoc(init, m);
    FiguresNew(init, m);
    assert g' == g + [Group(k, FirstCampaign(m))];
    forall i, j | 0 <= i < j < |g'| ensures g'[i].key != g'[j].key {
      if j == |g| {
        assert g'[i] == g[i];
      }
    }
    forall i | 0 <= i < |g| ensures HasKey(rows, g'[i].key) && g'[i].campaign == GroupFigures(rows, g'[i].key) {
      FiguresSnoc(init, m, g[i].key);
    }
    forall x ensures HasKey(rows, x) <==> KeyIndex(g', x).Some? {
      if HasKey(rows, x) && x != k {
        var j := KeyIndex(g, x).value;
        assert g'[j].key == x;
      }
      if x == k {
        assert g'[|g|].key == x;
      }
    }
  }

  /**
   * The grouping is exact: there is one group per distinct key of the rows,
   * and each group holds its first row's name, platform and ROAS together
   * with the spend and conversions summed over all of its rows. In
   * particular rows after the first never change a group's ROAS.
   */
  lemma {:induction false} GroupedMeaning(rows: seq<CampaignMetric>)
    ensures var g := Grouped(rows);
      (forall i, j :: 0 <= i < j < |g| ==> g[i].key != g[j].key)
      && (forall k :: HasKey(rows, k) <==> KeyIndex(g, k).Some?)
      && (forall i :: 0 <= i < |g| ==> HasKey(rows, g[i].key) && g[i].campaign == GroupFigures(rows, g[i].key))
  {
    if rows != [] {
      var init := rows[..|rows| - 1];
      GroupedMeaning(init);
      GroupedStep(init, rows[|rows| - 1], Grouped(init));
      assert init + [rows[|rows| - 1]] == rows;
    }
  }

  /** Each group comes before every group whose key first appears later among the rows. */
  ghost predicate FirstOrdered(rows: seq<CampaignMetric>, g: seq<Group>) {
    forall i, j :: 0 <= i < j < |g| ==>
      HasKey(rows, g[i].key) && HasKey(rows, g[j].key)
      && FirstIndex(rows, g[i].key) < FirstIndex(rows, g[j].key)
  }

  /** A key already seen keeps its first position when a row is appended. */
  lemma FirstIndexSnoc(init: seq<CampaignMetric>, m: CampaignMetric, x: string)
    requires HasKey(init, x)
    ensures HasKey(init + [m], x) && FirstIndex(init + [m], x) == FirstIndex(init, x) < |init|
  {
    HasKeySnoc(init, m);
    assert (init + [m])[..|init|] == init;
  }

  /** Keys already grouped keep their first positions, all before the appended row. */
  lemma FirstIndicesSnoc(init: seq<CampaignMetric>, m: CampaignMetric, g: seq<Group>)
    requires forall k :: HasKey(init, k) <==> KeyIndex(g, k).Some?
    ensures forall i :: 0 <= i < |g| ==>
      HasKey(init, g[i].key) && HasKey(init + [m], g[i].key)
      && FirstIndex(init + [m], g[i].key) == FirstIndex(init, g[i].key) < |init|
  {
    forall i | 0 <= i < |g|
      ensures HasKey(init, g[i].key) && HasKey(init + [m], g[i].key)
      && FirstIndex(init + [m], g[i].key) == FirstIndex(init, g[i].key) < |init|
    {
      assert KeyIndex(g, g[i].key).Some?;
      FirstIndexSnoc(init, m, g[i].key);
    }
  }

  /** A row of a key already in the map leaves the keys' order as it was. */
  lemma GroupedOrderExisting(init: seq<CampaignMetric>, m: CampaignMetric, g: seq<Group>)
    requires FirstOrdered(init, g)
    requires forall k :: HasKey(init, k) <==> KeyIndex(g, k).Some?
    requires KeyIndex(g, CampaignKey(m)).Some?
    ensures FirstOrdered(init + [m], AddRow(g, m))
  {
    FirstIndicesSnoc(init, m, g);
    var g' := AddRow(g, m);
    assert |g'| == |g| && forall i :: 0 <= i < |g'| ==> g'[i].key == g[i].key;
  }

  /** A row of a new key appends a group whose key first appears last. */
  lemma GroupedOrderNew(init: seq<CampaignMetric>, m: CampaignMetric, g: seq<Group>)
    requires FirstOrdered(init, g)
    requires forall k :: HasKey(init, k) <==> KeyIndex(g, k).Some?
    requires KeyIndex(g, CampaignKey(m)).None?
    ensures FirstOrdered(init + [m], AddRow(g, m))
  {
    var rows := init + [m];
    FirstIndicesSnoc(init, m, g);
    HasKeySnoc(init, m);
    assert rows[..|rows| - 1] == init;
    assert FirstIndex(rows, CampaignKey(m)) == |init|;
    var g' := AddRow(g, m);
    assert g' == g + [Group(CampaignKey(m), FirstCampaign(m))];
    forall i, j | 0 <= i < j < |g'|
      ensures HasKey(rows, g'[i].key) && HasKey(rows, g'[j].key) && FirstIndex(rows, g'[i].key) < FirstIndex(rows, g'[j].key)
    {
      assert g'[i] == g[i];
      if j < |g| {
        assert g'[j] == g[j];
      }
    }
  }

  /**
   * The map keeps insertion order: groups come in the order in which their
   * keys first appear among the rows, which decides the order of groups of
   * equal ROAS after the stable sort.
   */
  lemma {:induction false} GroupedOrder(rows: seq<CampaignMetric>)
    ensures FirstOrdered(rows, Grouped(rows))
  {
    if rows != [] {
      var init := rows[..|rows| - 1];
      var m := rows[|rows| - 1];
      assert init + [m] == rows;
      GroupedOrder(init);
      GroupedMeaning(init);
      if KeyIndex(Grouped(init), CampaignKey(m)).Some? {
        GroupedOrderExisting(init, m, Grouped(init));
      } else {
        GroupedOrderNew(init, m, Grouped(init));
      }
      assert Grouped(rows) == AddRow(Grouped(init), m);
    }
  }

  /** Campaign keys are not injective: a colon inside a campaign id can make two (campaign, platform) pairs share a group. */
  lemma KeyCollision(m1: CampaignMetric, m2: CampaignMetric)
    requires m1.campaignId == "a:b" && m1.platform == "c"
    requires m2.campaignId == "a" && m2.platform == "b:c"
    ensures CampaignKey(m1) == CampaignKey(m2)
  {
  }
}
