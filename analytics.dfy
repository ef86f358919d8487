/** The admin dashboard's computations over the results of its store queries:
    the six-month order histogram, revenue sums, the revenue breakdown, the
    stock, age, status and role counts, and the latest-transaction projection. */
module Analytics {
  import opened Domain

  /** A month index as `Date.getMonth()` returns it. */
  type Month = m: int | 0 <= m < 12

  /** An order as the dashboard's queries return it: its id, the month of its
      creation date, and the record. */
  datatype OrderDoc = OrderDoc(id: Id, month: Month, order: Order)

  // ---------------------------------------------------------------------------
  // Month buckets of the last six months

  /** How many months lie between an order's month and today's, wrapping at
      the year boundary. */
  function MonthDiff(today: Month, month: Month): (d: int)
    ensures 0 <= d < 12
    ensures month == today ==> d == 0
  {
    (today - month + 12) % 12
  }

  /** The histogram bucket of an order made `MonthDiff` months ago: the
      current month is the last of the six buckets. */
  function BucketIndex(today: Month, month: Month): (i: int)
    requires MonthDiff(today, month) < 6
    ensures 0 <= i < 6
    ensures month == today ==> i == 5
  {
    5 - MonthDiff(today, month)
  }

  predicate InBucket(today: Month, month: Month, i: int)
  {
    MonthDiff(today, month) < 6 && BucketIndex(today, month) == i
  }

  /** How many of `docs` the histogram counts in bucket `i`. */
  function BucketCount(docs: seq<OrderDoc>, today: Month, i: int): nat
  {
    if docs == [] then 0
    else BucketCount(docs[..|docs| - 1], today, i)
         + (if InBucket(today, docs[|docs| - 1].month, i) then 1 else 0)
  }

  /** The sum of the totals of the orders counted in bucket `i`. */
  function BucketRevenue(docs: seq<OrderDoc>, today: Month, i: int): int
  {
    if docs == [] then 0
    else BucketRevenue(docs[..|docs| - 1], today, i)
         + (if InBucket(today, docs[|docs| - 1].month, i) then docs[|docs| - 1].order.total else 0)
  }

  /** How many of `docs` lie less than six months back. */
  function RetainedCount(docs: seq<OrderDoc>, today: Month): nat
  {
    if docs == [] then 0
    else RetainedCount(docs[..|docs| - 1], today)
         + (if MonthDiff(today, docs[|docs| - 1].month) < 6 then 1 else 0)
  }

  /** The sum of the totals of the orders less than six months back. */
  function RetainedRevenue(docs: seq<OrderDoc>, today: Month): int
  {
    if docs == [] then 0
    else RetainedRevenue(docs[..|docs| - 1], today)
         + (if MonthDiff(today, docs[|docs| - 1].month) < 6 then docs[|docs| - 1].order.total else 0)
  }

  /** Every retained order is counted in exactly one bucket: the counts add up
      to the number of retained orders. */
  lemma {:induction false} BucketCountsSum(docs: seq<OrderDoc>, today: Month)
    ensures BucketCount(docs, today, 0) + BucketCount(docs, today, 1) + BucketCount(docs, today, 2)
            + BucketCount(docs, today, 3) + BucketCount(docs, today, 4) + BucketCount(docs, today, 5)
            == RetainedCount(docs, today)
  {
    if docs != [] {
      BucketCountsSum(docs[..|docs| - 1], today);
    }
  }

  /** The revenue buckets add up to the revenue of the retained orders. */
  lemma {:induction false} BucketRevenueSum(docs: seq<OrderDoc>, today: Month)
    ensures BucketRevenue(docs, today, 0) + BucketRevenue(docs, today, 1) + BucketRevenue(docs, today, 2)
            + BucketRevenue(docs, today, 3) + BucketRevenue(docs, today, 4) + BucketRevenue(docs, today, 5)
            == RetainedRevenue(docs, today)
  {
    if docs != [] {
      BucketRevenueSum(docs[..|docs| - 1], today);
    }
  }

  /** An order six or more months back (by month number) changes no bucket. */
  lemma OldOrderIsDropped(docs: seq<OrderDoc>, d: OrderDoc, today: Month, i: int)
    requires MonthDiff(today, d.month) >= 6
    ensures BucketCount(docs + [d], today, i) == BucketCount(docs, today, i)
    ensures BucketRevenue(docs + [d], today, i) == BucketRevenue(docs, today, i)
  {
  }

  /** An order of the current month adds one to the last bucket and its total
      to the last revenue bucket. */
  lemma CurrentOrderLandsLast(docs: seq<OrderDoc>, d: OrderDoc, today: Month)
    requires d.month == today
    ensures BucketCount(docs + [d], today, 5) == BucketCount(docs, today, 5) + 1
    ensures BucketRevenue(docs + [d], today, 5) == BucketRevenue(docs, today, 5) + d.order.total
  {
  }

  // ---------------------------------------------------------------------------
  // Sums and counts

  /** The sum of `total` over orders, accumulated front to back. */
  function TotalOf(docs: seq<OrderDoc>): int
  {
    if docs == [] then 0 else TotalOf(docs[..|docs| - 1]) + docs[|docs| - 1].order.total
  }

  /** How many elements of `s` satisfy `p` (a `filter(...).length`). */
  function Count<T>(s: seq<T>, p: T -> bool): (n: nat)
    ensures n <= |s|
  {
    if s == [] then 0 else (if p(s[0]) then 1 else 0) + Count(s[1..], p)
  }

  /** Two complementary filters split a collection. */
  lemma {:induction false} CountComplement<T>(s: seq<T>, p: T -> bool, q: T -> bool)
    requires forall x :: q(x) == !p(x)
    ensures Count(s, p) + Count(s, q) == |s|
  {
    if s != [] {
      CountComplement(s[1..], p, q);
    }
  }

  /** Three mutually exclusive, exhaustive filters split a collection. */
  lemma {:induction false} CountPartition3<T>(s: seq<T>, p: T -> bool, q: T -> bool, r: T -> bool)
    requires forall x :: (p(x) || q(x) || r(x)) && !(p(x) && q(x)) && !(p(x) && r(x)) && !(q(x) && r(x))
    ensures Count(s, p) + Count(s, q) + Count(s, r) == |s|
  {
    if s != [] {
      CountPartition3(s[1..], p, q, r);
    }
  }

  /** `countDocuments({ category })` over a product snapshot. */
  function CategoryCount(products: seq<Product>, category: string): (n: nat)
    ensures n <= |products|
  {
    if products == [] then 0
    else (if products[0].category == category then 1 else 0) + CategoryCount(products[1..], category)
  }

  // ---------------------------------------------------------------------------
  // getDashboardStats

  datatype ChangePercent = ChangePercent(revenue: real, product: real, user: real, order: real)

  datatype Counts = Counts(revenue: int, user: nat, product: nat, order: nat)

  datatype CategoryShare = CategoryShare(category: string, percent: real)

  datatype Transaction = Transaction(id: Id, discount: Option<int>, amount: int, quantity: nat,
                                     status: Status)

  datatype DashboardStats = DashboardStats(changePercent: ChangePercent, count: Counts,
                                           orderChart: seq<int>, revenueChart: seq<int>,
                                           categoryCount: seq<CategoryShare>,
                                           male: nat, female: nat,
                                           latestTransaction: seq<Transaction>)

  /** What the stats view's queries return. The month windows are date-range
      queries whose bounds are not modelled, so their results are given. */
  datatype StatsQueries = StatsQueries(
    today: Month,
    thisMonthProducts: nat, lastMonthProducts: nat,
    thisMonthUsers: nat, lastMonthUsers: nat,
    thisMonthOrders: seq<OrderDoc>, lastMonthOrders: seq<OrderDoc>,
    products: seq<Product>, categories: seq<string>, users: seq<User>,
    allOrders: seq<OrderDoc>, lastSixMonthOrders: seq<OrderDoc>)

  predicate IsMale(u: User) { u.gender == "Male" }

  predicate IsFemale(u: User) { u.gender == "Female" }

  /** The `select` and `map` of a transaction row. */
  function Project(d: OrderDoc): Transaction
  {
    Transaction(d.id, d.order.discount, d.order.total, |d.order.items|, d.order.status)
  }

  /** The latest transactions: the first four orders of the collection, each
      reduced to its amount and item count. */
  function LatestTransactions(docs: seq<OrderDoc>): (r: seq<Transaction>)
    ensures |r| <= 4 && (|docs| >= 4 ==> |r| == 4) && (|docs| < 4 ==> |r| == |docs|)
    ensures forall i :: 0 <= i < |r| ==>
              r[i].id == docs[i].id && r[i].amount == docs[i].order.total
              && r[i].quantity == |docs[i].order.items|
  {
    var n := if |docs| < 4 then |docs| else 4;
    seq(n, i requires 0 <= i < n => Project(docs[i]))
  }

  /** The share of each category among all products, as `calculatePercentage`
      (a helper not part of this model, hence the parameter) reports it. */
  function CategoryShares(categories: seq<string>, products: seq<Product>,
                          percent: (int, int) -> real): (r: seq<CategoryShare>)
    ensures |r| == |categories|
    ensures forall i :: 0 <= i < |r| ==> r[i].category == categories[i]
    ensures forall i :: 0 <= i < |r| ==>
              r[i].percent == percent(CategoryCount(products, categories[i]), |products|)
  {
    seq(|categories|, i requires 0 <= i < |categories| =>
      CategoryShare(categories[i], percent(CategoryCount(products, categories[i]), |products|)))
  }

  /** The product counts of a list of categories, added up. */
  function CountsOf(categories: seq<string>, products: seq<Product>): nat
  {
    if categories == [] then 0
    else CategoryCount(products, categories[0]) + CountsOf(categories[1..], products)
  }

  /** How many entries of `categories` are `c`. */
  function Occurrences(categories: seq<string>, c: string): nat
  {
    if categories == [] then 0
    else (if categories[0] == c then 1 else 0) + Occurrences(categories[1..], c)
  }

  /** When the categories are the distinct categories of the products (as
      `Product.distinct("category")` returns them), the per-category counts the
      shares are taken of add up to the number of products: every product is
      counted in exactly one share. */
  lemma {:induction false} CategoryCountsCoverProducts(categories: seq<string>, products: seq<Product>)
    requires forall i, j :: 0 <= i < j < |categories| ==> categories[i] != categories[j]
    requires forall k :: 0 <= k < |products| ==> products[k].category in categories
    ensures CountsOf(categories, products) == |products|
  {
    if products == [] {
      NoProductsNoCounts(categories);
    } else {
      CountsOfFirst(categories, products);
      OccursOnce(categories, products[0].category);
      CategoryCountsCoverProducts(categories, products[1..]);
    }
  }

  lemma {:induction false} NoProductsNoCounts(categories: seq<string>)
    ensures CountsOf(categories, []) == 0
  {
    if categories != [] {
      NoProductsNoCounts(categories[1..]);
    }
  }

  /** The first product adds one to the count of each entry naming its category. */
  lemma {:induction false} CountsOfFirst(categories: seq<string>, products: seq<Product>)
    requires products != []
    ensures CountsOf(categories, products)
            == Occurrences(categories, products[0].category) + CountsOf(categories, products[1..])
  {
    if categories != [] {
      CountsOfFirst(categories[1..], products);
    }
  }

  /** A category listed once among distinct categories occurs exactly once. */
  lemma {:induction false} OccursOnce(categories: seq<string>, c: string)
    requires forall i, j :: 0 <= i < j < |categories| ==> categories[i] != categories[j]
    ensures c in categories ==> Occurrences(categories, c) == 1
    ensures c !in categories ==> Occurrences(categories, c) == 0
  {
    if categories != [] {
      OccursOnce(categories[1..], c);
      assert c in categories[1..] <==> c in categories && c != categories[0] by {
        if c in categories[1..] {
          var k :| 0 <= k < |categories[1..]| && categories[1..][k] == c;
          assert categories[k + 1] == c;
        }
      }
    }
  }

  /** The stats view, as the handler computes it on a miss. */
  function StatsOf(q: StatsQueries, percent: (int, int) -> real): (s: DashboardStats)
    ensures s.count.revenue == TotalOf(q.allOrders) && s.count.order == |q.allOrders|
    ensures |s.orderChart| == 6 && |s.revenueChart| == 6
    ensures forall i :: 0 <= i < 6 ==>
              s.orderChart[i] == BucketCount(q.lastSixMonthOrders, q.today, i)
              && s.revenueChart[i] == BucketRevenue(q.lastSixMonthOrders, q.today, i)
    ensures |s.latestTransaction| <= 4
  {
    DashboardStats(
      ChangePercent(percent(TotalOf(q.thisMonthOrders), TotalOf(q.lastMonthOrders)),
                    percent(q.thisMonthProducts, q.lastMonthProducts),
                    percent(q.thisMonthUsers, q.lastMonthUsers),
                    percent(|q.thisMonthOrders|, |q.lastMonthOrders|)),
      Counts(TotalOf(q.allOrders), |q.users|, |q.products|, |q.allOrders|),
      seq(6, i => BucketCount(q.lastSixMonthOrders, q.today, i)),
      seq(6, i => BucketRevenue(q.lastSixMonthOrders, q.today, i)),
      CategoryShares(q.categories, q.products, percent),
      Count(q.users, IsMale), Count(q.users, IsFemale),
      LatestTransactions(q.allOrders))
  }

  /** The histogram counts every retained order once: over the stats view, the
      six order buckets add up to the number of orders less than six months back. */
  lemma StatsChartCountsRetained(q: StatsQueries, percent: (int, int) -> real)
    ensures var s := StatsOf(q, percent);
            s.orderChart[0] + s.orderChart[1] + s.orderChart[2] + s.orderChart[3]
            + s.orderChart[4] + s.orderChart[5] == RetainedCount(q.lastSixMonthOrders, q.today)
  {
    BucketCountsSum(q.lastSixMonthOrders, q.today);
  }

  // ---------------------------------------------------------------------------
  // getPieCharts

  datatype Fulfillment = Fulfillment(processing: nat, shipped: nat, delivered: nat)

  datatype StockAvailability = StockAvailability(inStock: int, outOfStock: nat)

  datatype RevenueDistribution = RevenueDistribution(netMargin: int, grossIncome: int, discount: int,
                                                     productionCost: int, burnt: int)

  /** `senior` is the source's `old` group, a reserved word here. */
  datatype AgeGroups = AgeGroups(teen: nat, adult: nat, senior: nat)

  datatype PieCharts = PieCharts(orderFullfillment: Fulfillment,
                                 productCategories: seq<CategoryShare>,
                                 stockAvailability: StockAvailability,
                                 revenueDistribution: RevenueDistribution,
                                 usersAgeGroup: AgeGroups, admin: nat, customer: nat)

  /** What the pie view's queries return: snapshots of the three collections,
      and the category shares the `getInventories` helper reports. */
  datatype PieQueries = PieQueries(orders: seq<Order>, products: seq<Product>,
                                   users: seq<User>, productCategories: seq<CategoryShare>)

  /** The `age` each user document reports, one per user in order. The user
      schema derives it from the date of birth, which is not modelled, so
      `ageOf` is a parameter. */
  function Ages(users: seq<User>, ageOf: User -> int): (ages: seq<int>)
    ensures |ages| == |users|
    ensures forall i :: 0 <= i < |users| ==> ages[i] == ageOf(users[i])
  {
    seq(|users|, i requires 0 <= i < |users| => ageOf(users[i]))
  }

  /** `reduce((prev, order) => prev + f(order), 0)`. */
  function SumOf(orders: seq<Order>, f: Order -> int): int
  {
    if orders == [] then 0 else f(orders[0]) + SumOf(orders[1..], f)
  }

  function Gross(o: Order): int { o.total }

  function DiscountOf(o: Order): int { OrZero(o.discount) }

  function ShippingOf(o: Order): int { OrZero(o.shippingCharges) }

  function TaxOf(o: Order): int { o.tax }

  /** What one order contributes to the net margin. */
  function Margin(o: Order): int { Gross(o) - DiscountOf(o) - ShippingOf(o) - TaxOf(o) }

  lemma {:induction false} SumOfMargins(orders: seq<Order>)
    ensures SumOf(orders, Gross) - SumOf(orders, DiscountOf) - SumOf(orders, ShippingOf)
            - SumOf(orders, TaxOf) == SumOf(orders, Margin)
  {
    if orders != [] {
      SumOfMargins(orders[1..]);
    }
  }

  /** The revenue breakdown: the net margin is the gross income less the
      discounts, shipping charges (the production cost) and tax (burnt), a
      missing field counting as 0, and equals the sum of every order's margin. */
  function RevenueOf(orders: seq<Order>): (r: RevenueDistribution)
    ensures r.netMargin == r.grossIncome - r.discount - r.productionCost - r.burnt
    ensures r.netMargin == SumOf(orders, Margin)
    ensures r.grossIncome == SumOf(orders, Gross) && r.discount == SumOf(orders, DiscountOf)
    ensures r.productionCost == SumOf(orders, ShippingOf) && r.burnt == SumOf(orders, TaxOf)
  {
    SumOfMargins(orders);
    var gross, discount := SumOf(orders, Gross), SumOf(orders, DiscountOf);
    var cost, burnt := SumOf(orders, ShippingOf), SumOf(orders, TaxOf);
    RevenueDistribution(gross - discount - cost - burnt, gross, discount, cost, burnt)
  }

  predicate OutOfStock(p: Product) { p.stock == 0 }

  predicate InStock(p: Product) { p.stock != 0 }

  /** In stock is every product minus those whose stock is 0: the two figures
      partition the products, and the first counts exactly the stocked ones. */
  function StockOf(products: seq<Product>): (r: StockAvailability)
    ensures r.inStock + r.outOfStock == |products|
    ensures r.inStock == Count(products, InStock)
  {
    CountComplement(products, OutOfStock, InStock);
    StockAvailability(|products| - Count(products, OutOfStock), Count(products, OutOfStock))
  }

  predicate IsTeen(age: int) { age < 20 }

  predicate IsAdult(age: int) { age >= 20 && age <= 40 }

  predicate IsOld(age: int) { age > 40 }

  /** The age groups partition the users. */
  function AgeGroupsOf(ages: seq<int>): (r: AgeGroups)
    ensures r.teen + r.adult + r.senior == |ages|
  {
    CountPartition3(ages, IsTeen, IsAdult, IsOld);
    AgeGroups(Count(ages, IsTeen), Count(ages, IsAdult), Count(ages, IsOld))
  }

  predicate IsProcessing(o: Order) { o.status == Processing }

  predicate IsShipped(o: Order) { o.status == Shipped }

  predicate IsDelivered(o: Order) { o.status == Delivered }

  /** The status counts partition the orders. */
  function FulfillmentOf(orders: seq<Order>): (r: Fulfillment)
    ensures r.processing + r.shipped + r.delivered == |orders|
  {
    CountPartition3(orders, IsProcessing, IsShipped, IsDelivered);
    Fulfillment(Count(orders, IsProcessing), Count(orders, IsShipped), Count(orders, IsDelivered))
  }

  predicate IsAdminUser(u: User) { u.role == Some("admin") }

  predicate IsCustomer(u: User) { u.role == Some("user") }

  /** No user is counted both as an administrator and as a customer. */
  lemma AdminsAndCustomers(users: seq<User>)
    ensures Count(users, IsAdminUser) + Count(users, IsCustomer) <= |users|
  {
    CountComplement(users, IsAdminUser, NotAdmin);
    CountAtMost(users, IsCustomer, NotAdmin);
  }

  predicate NotAdmin(u: User) { !IsAdminUser(u) }

  /** A predicate implied by another counts at most as many elements. */
  lemma {:induction false} CountAtMost<T>(s: seq<T>, p: T -> bool, q: T -> bool)
    requires forall x :: p(x) ==> q(x)
    ensures Count(s, p) <= Count(s, q)
  {
    if s != [] {
      CountAtMost(s[1..], p, q);
    }
  }

  /** The pie view, as the handler computes it on a miss. */
  function PieOf(q: PieQueries, ageOf: User -> int): (pie: PieCharts)
    ensures pie.orderFullfillment.processing + pie.orderFullfillment.shipped
            + pie.orderFullfillment.delivered == |q.orders|
    ensures pie.stockAvailability.inStock + pie.stockAvailability.outOfStock == |q.products|
    ensures pie.revenueDistribution.netMargin
            == pie.revenueDistribution.grossIncome - pie.revenueDistribution.discount
               - pie.revenueDistribution.productionCost - pie.revenueDistribution.burnt
    ensures pie.usersAgeGroup.teen + pie.usersAgeGroup.adult + pie.usersAgeGroup.senior == |q.users|
    ensures pie.admin + pie.customer <= |q.users|
    ensures pie.productCategories == q.productCategories
  {
    AdminsAndCustomers(q.users);
    PieCharts(FulfillmentOf(q.orders), q.productCategories, StockOf(q.products),
              RevenueOf(q.orders), AgeGroupsOf(Ages(q.users, ageOf)),
              Count(q.users, IsAdminUser), Count(q.users, IsCustomer))
  }

  // ---------------------------------------------------------------------------
  // getBarCharts and getLineCharts

  datatype Field = DiscountField | TotalField

  /** A document of a month window, with the numeric fields a chart may sum. */
  datatype Doc = Doc(month: Month, discount: Option<int>, total: Option<int>)

  /** The arguments of the `getChartData` helper, which is not part of this model. */
  datatype ChartRequest = ChartRequest(length: nat, today: Month, docs: seq<Doc>,
                                       property: Option<Field>)

  /** What a chart view's month-window queries return. */
  datatype ChartQueries = ChartQueries(today: Month, products: seq<Doc>, users: seq<Doc>,
                                       orders: seq<Doc>)

  datatype BarCharts = BarCharts(users: seq<int>, products: seq<int>, orders: seq<int>)

  datatype LineCharts = LineCharts(users: seq<int>, products: seq<int>, discount: seq<int>,
                                   revenue: seq<int>)

  /** Six-month product and user counts, twelve-month order counts. */
  function BarOf(q: ChartQueries, chartData: ChartRequest -> seq<int>): (bar: BarCharts)
    ensures (forall req :: |chartData(req)| == req.length) ==>
              |bar.users| == 6 && |bar.products| == 6 && |bar.orders| == 12
  {
    BarCharts(chartData(ChartRequest(6, q.today, q.users, None)),
              chartData(ChartRequest(6, q.today, q.products, None)),
              chartData(ChartRequest(12, q.today, q.orders, None)))
  }

  /** Twelve-month counts, and twelve-month sums of discount and of total. */
  function LineOf(q: ChartQueries, chartData: ChartRequest -> seq<int>): (line: LineCharts)
    ensures (forall req :: |chartData(req)| == req.length) ==>
              |line.users| == 12 && |line.products| == 12 && |line.discount| == 12 && |line.revenue| == 12
  {
    LineCharts(chartData(ChartRequest(12, q.today, q.users, None)),
               chartData(ChartRequest(12, q.today, q.products, None)),
               chartData(ChartRequest(12, q.today, q.orders, Some(DiscountField))),
               chartData(ChartRequest(12, q.today, q.orders, Some(TotalField))))
  }
}
