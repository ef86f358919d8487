/** The admin dashboard handlers: each reads its view through the cache under a
    fixed key and, on a miss, computes it from its queries' results and stores
    it with the default time-to-live. Every view answers with status 200. */
module Dashboard {
  import opened Domain
  import opened Analytics
  import opened Caching
  import opened Views

  const StatsKey := "admin-stats"
  const PieKey := "admin-pie-charts"
  const BarKey := "admin-bar-charts"
  const LineKey := "admin-line-charts"

  /** The running `total` accumulator of a `forEach` over orders. */
  method SumTotals(docs: seq<OrderDoc>) returns (sum: int)
    ensures sum == TotalOf(docs)
  {
    sum := 0;
    var k := 0;
    while k < |docs|
      invariant 0 <= k <= |docs|
      invariant sum == TotalOf(docs[..k])
    {
      assert docs[..k + 1][..k] == docs[..k];
      sum := sum + docs[k].order.total;
      k := k + 1;
    }
    assert docs[..|docs|] == docs;
  }

  /** The six-month order histogram, filled in place: each order less than six
      months back adds one to its bucket's count and its total to its bucket's
      revenue. */
  method MonthlyOrderChart(docs: seq<OrderDoc>, today: Month) returns (counts: seq<int>, revenue: seq<int>)
    ensures |counts| == 6 && |revenue| == 6
    ensures forall i :: 0 <= i < 6 ==>
              counts[i] == BucketCount(docs, today, i) && revenue[i] == BucketRevenue(docs, today, i)
  {
    var orderMonthCounts := new int[6](_ => 0);
    var orderMonthlyRevenue := new int[6](_ => 0);
    var k := 0;
    while k < |docs|
      invariant 0 <= k <= |docs|
      invariant forall i :: 0 <= i < 6 ==>
                  orderMonthCounts[i] == BucketCount(docs[..k], today, i)
                  && orderMonthlyRevenue[i] == BucketRevenue(docs[..k], today, i)
    {
      assert docs[..k + 1][..k] == docs[..k];
      var monthDiff := (today - docs[k].month + 12) % 12;
      if monthDiff < 6 {
        orderMonthCounts[5 - monthDiff] := orderMonthCounts[5 - monthDiff] + 1;
        orderMonthlyRevenue[5 - monthDiff] := orderMonthlyRevenue[5 - monthDiff] + docs[k].order.total;
      }
      k := k + 1;
    }
    assert docs[..|docs|] == docs;
    counts, revenue := orderMonthCounts[..], orderMonthlyRevenue[..];
  }

  /** One share per category, pushed in the categories' order. */
  method CategoryPercentages(categories: seq<string>, products: seq<Product>,
                             percent: (int, int) -> real) returns (shares: seq<CategoryShare>)
    ensures shares == CategoryShares(categories, products, percent)
  {
    shares := [];
    var i := 0;
    while i < |categories|
      invariant 0 <= i <= |categories|
      invariant shares == CategoryShares(categories[..i], products, percent)
    {
      shares := shares + [CategoryShare(categories[i], percent(CategoryCount(products, categories[i]), |products|))];
      i := i + 1;
    }
    assert categories[..|categories|] == categories;
  }

  /** The stats view computed on a miss. */
  method ComputeStats(q: StatsQueries, percent: (int, int) -> real) returns (s: DashboardStats)
    ensures s == StatsOf(q, percent)
  {
    var thisMonthRevenue := SumTotals(q.thisMonthOrders);
    var lastMonthRevenue := SumTotals(q.lastMonthOrders);
    var changePercent := ChangePercent(percent(thisMonthRevenue, lastMonthRevenue),
                                       percent(q.thisMonthProducts, q.lastMonthProducts),
                                       percent(q.thisMonthUsers, q.lastMonthUsers),
                                       percent(|q.thisMonthOrders|, |q.lastMonthOrders|));
    var revenue := SumTotals(q.allOrders);
    var count := Counts(revenue, |q.users|, |q.products|, |q.allOrders|);
    var orderMonthCounts, orderMonthlyRevenue := MonthlyOrderChart(q.lastSixMonthOrders, q.today);
    var categoryCount := CategoryPercentages(q.categories, q.products, percent);
    s := DashboardStats(changePercent, count, orderMonthCounts, orderMonthlyRevenue, categoryCount,
                        Count(q.users, IsMale), Count(q.users, IsFemale),
                        LatestTransactions(q.allOrders));
    assert orderMonthCounts == seq(6, i => BucketCount(q.lastSixMonthOrders, q.today, i));
    assert orderMonthlyRevenue == seq(6, i => BucketRevenue(q.lastSixMonthOrders, q.today, i));
  }

  method GetDashboardStats(cache: Cache<Payload>, q: StatsQueries, percent: (int, int) -> real)
    returns (stats: Payload)
    modifies cache`entries
    ensures (stats, cache.entries)
            == ReadThrough(old(cache.entries), cache.now, StatsKey, StatsKey, cache.defaultTtl,
                           StatsView(StatsOf(q, percent)))
  {
    var cached := cache.Get(StatsKey);
    if cached.Some? {
      stats := cached.value;
    } else {
      var s := ComputeStats(q, percent);
      stats := StatsView(s);
      cache.SetEx(StatsKey, cache.defaultTtl, stats);
    }
  }

  method GetPieCharts(cache: Cache<Payload>, q: PieQueries, ageOf: User -> int) returns (charts: Payload)
    modifies cache`entries
    ensures (charts, cache.entries)
            == ReadThrough(old(cache.entries), cache.now, PieKey, PieKey, cache.defaultTtl,
                           PieView(PieOf(q, ageOf)))
  {
    var cached := cache.Get(PieKey);
    if cached.Some? {
      charts := cached.value;
    } else {
      charts := PieView(PieOf(q, ageOf));
      cache.SetEx(PieKey, cache.defaultTtl, charts);
    }
  }

  method GetBarCharts(cache: Cache<Payload>, q: ChartQueries, chartData: ChartRequest -> seq<int>)
    returns (charts: Payload)
    modifies cache`entries
    ensures (charts, cache.entries)
            == ReadThrough(old(cache.entries), cache.now, BarKey, BarKey, cache.defaultTtl,
                           BarView(BarOf(q, chartData)))
  {
    var cached := cache.Get(BarKey);
    if cached.Some? {
      charts := cached.value;
    } else {
      charts := BarView(BarOf(q, chartData));
      cache.SetEx(BarKey, cache.defaultTtl, charts);
    }
  }

  method GetLineCharts(cache: Cache<Payload>, q: ChartQueries, chartData: ChartRequest -> seq<int>)
    returns (charts: Payload)
    modifies cache`entries
    ensures (charts, cache.entries)
            == ReadThrough(old(cache.entries), cache.now, LineKey, LineKey, cache.defaultTtl,
                           LineView(LineOf(q, chartData)))
  {
    var cached := cache.Get(LineKey);
    if cached.Some? {
      charts := cached.value;
    } else {
      charts := LineView(LineOf(q, chartData));
      cache.SetEx(LineKey, cache.defaultTtl, charts);
    }
  }
}
