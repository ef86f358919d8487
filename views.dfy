/** The values the handlers store in the cache and send back. The source
    stores them as JSON text; serialising and parsing are taken as the
    identity, so a cached value is the typed value itself. */
module Views {
  import opened Domain
  import opened Analytics

  datatype Payload =
    | StatsView(stats: DashboardStats)
    | PieView(pie: PieCharts)
    | BarView(bar: BarCharts)
    | LineView(line: LineCharts)
    | ProductList(products: seq<Product>)
    | ProductMap(productsById: map<Id, Product>)
    | CategorySet(categories: set<string>)
    | ProductView(product: Product)
    | Listing(page: seq<Product>, totalPage: int)
    | ReviewMap(reviews: map<Id, Review>)
    | OrderMap(orders: map<Id, Order>)
    | OrderView(order: Order)
}
