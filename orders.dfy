/** The order handlers: placing an order, advancing its status, deleting it,
    and the cached order reads. */
module Orders {
  import opened Domain
  import opened Caching
  import opened Views

  const AllOrdersKey := "all-orders"

  function MyOrdersKey(user: Id): string { "my-orders-" + user }

  function OrderKey(id: Id): string { "order-" + id }

  // ---------------------------------------------------------------------------
  // The status machine of `processOrder`

  /** Processing becomes Shipped; anything else becomes Delivered. */
  function NextStatus(s: Status): (next: Status)
    ensures s == Processing ==> next == Shipped
    ensures s != Processing ==> next == Delivered
  {
    match s
    case Processing => Shipped
    case Shipped => Delivered
    case Delivered => Delivered
  }

  /** How far an order has progressed. */
  function Rank(s: Status): nat
  {
    match s
    case Processing => 0
    case Shipped => 1
    case Delivered => 2
  }

  /** Processing never moves an order backwards; it moves it forwards unless
      it is already delivered. */
  lemma NextStatusAdvances(s: Status)
    ensures Rank(NextStatus(s)) >= Rank(s)
    ensures Rank(NextStatus(s)) == Rank(s) <==> s == Delivered
  {
  }

  /** Any order is delivered after at most two processing steps, and stays so. */
  lemma TwoStepsDeliver(s: Status)
    ensures NextStatus(NextStatus(s)) == Delivered
    ensures NextStatus(Delivered) == Delivered
  {
  }

  // ---------------------------------------------------------------------------
  // Placing, processing and deleting orders

  /** The body of a new-order request; absent fields are None. */
  datatype OrderRequest = OrderRequest(shippingInfo: Option<ShippingInfo>, orderItems: Option<seq<OrderItem>>,
                                       user: Option<Id>, subtotal: Option<int>, tax: Option<int>,
                                       shippingCharges: Option<int>, discount: Option<int>,
                                       total: Option<int>)

  /** The truthiness test of `newOrder`: objects and arrays are truthy when
      present, even empty; shipping charges and discount are not required. */
  predicate Complete(body: OrderRequest)
  {
    body.shippingInfo.Some? && body.orderItems.Some? && GivenText(body.user)
    && GivenNumber(body.subtotal) && GivenNumber(body.tax) && GivenNumber(body.total)
  }

  function PlacedOrder(body: OrderRequest): Order
    requires Complete(body)
  {
    Order(body.user.value, body.shippingInfo.value, body.orderItems.value, body.subtotal.value,
          body.tax.value, body.shippingCharges, body.discount, body.total.value, Processing)
  }

  /** The product ids of an order's items, in order. */
  function ProductIdsOf(items: seq<OrderItem>): (ids: seq<Id>)
    ensures |ids| == |items|
    ensures forall i :: 0 <= i < |items| ==> ids[i] == items[i].productId
  {
    if items == [] then [] else [items[0].productId] + ProductIdsOf(items[1..])
  }

  /** `newOrder`: an incomplete body is refused with 400; a complete one is
      stored as a Processing order and the invalidation names its user and
      every product it contains. */
  method NewOrder(db: Store, cache: Cache<Payload>, body: OrderRequest) returns (r: Response)
    requires db.Valid()
    modifies db`orders, db`issued, cache`entries, cache`invalidations
    ensures db.Valid()
    ensures !Complete(body) ==> r == Fail(400, "All feilds are not Provided") && unchanged(db) && unchanged(cache)
    ensures Complete(body) ==>
              var req := Invalidation(product := true, order := true, admin := true, userId := body.user,
                                      productIds := ProductIdsOf(body.orderItems.value));
              && r == Ok(201)
              && Mint(old(db.issued)) !in old(db.orders)
              && db.orders == old(db.orders)[Mint(old(db.issued)) := PlacedOrder(body)]
              && db.orders[Mint(old(db.issued))].status == Processing
              && cache.invalidations == old(cache.invalidations) + [req]
              && cache.entries == Evict(old(cache.entries), req, cache.evicts)
  {
    if !Complete(body) {
      return Fail(400, "All feilds are not Provided");
    }
    var id := db.NewId();
    var order := PlacedOrder(body);
    db.orders := db.orders[id := order];
    cache.Invalidate(Invalidation(product := true, order := true, admin := true, userId := body.user,
                                  productIds := ProductIdsOf(order.items)));
    r := Ok(201);
  }

  /** `processOrder`: the order moves one step along the status machine and
      nothing else about it, or about any other order, changes. */
  method ProcessOrder(db: Store, cache: Cache<Payload>, id: Id) returns (r: Response)
    requires db.Valid()
    modifies db`orders, cache`entries, cache`invalidations
    ensures db.Valid()
    ensures id !in old(db.orders) ==> r == Fail(404, "Order Not Found") && unchanged(db) && unchanged(cache)
    ensures id in old(db.orders) ==>
              var was := old(db.orders)[id];
              var req := Invalidation(order := true, admin := true, userId := Some(was.user), orderId := Some(id));
              && r == Ok(200)
              && db.orders == old(db.orders)[id := was.(status := NextStatus(was.status))]
              && Rank(db.orders[id].status) >= Rank(was.status)
              && cache.invalidations == old(cache.invalidations) + [req]
              && cache.entries == Evict(old(cache.entries), req, cache.evicts)
  {
    if id !in db.orders {
      return Fail(404, "Order Not Found");
    }
    var order := db.orders[id];
    match order.status {
      case Processing => order := order.(status := Shipped);
      case Shipped => order := order.(status := Delivered);
      case Delivered => order := order.(status := Delivered);
    }
    db.orders := db.orders[id := order];
    cache.Invalidate(Invalidation(order := true, admin := true, userId := Some(order.user), orderId := Some(id)));
    r := Ok(200);
  }

  method DeleteOrder(db: Store, cache: Cache<Payload>, id: Id) returns (r: Response)
    requires db.Valid()
    modifies db`orders, cache`entries, cache`invalidations
    ensures db.Valid()
    ensures id !in old(db.orders) ==> r == Fail(404, "Order Not Found") && unchanged(db) && unchanged(cache)
    ensures id in old(db.orders) ==>
              var req := Invalidation(order := true, admin := true, userId := Some(old(db.orders)[id].user),
                                      orderId := Some(id));
              && r == Ok(200)
              && db.orders == old(db.orders) - {id}
              && cache.invalidations == old(cache.invalidations) + [req]
              && cache.entries == Evict(old(cache.entries), req, cache.evicts)
  {
    if id !in db.orders {
      return Fail(404, "Order Not Found");
    }
    var order := db.orders[id];
    db.orders := db.orders - {id};
    cache.Invalidate(Invalidation(order := true, admin := true, userId := Some(order.user), orderId := Some(id)));
    r := Ok(200);
  }

  // ---------------------------------------------------------------------------
  // Cached order reads

  /** `Order.find({ user })`. */
  function OrdersOf(orders: map<Id, Order>, user: Id): (mine: map<Id, Order>)
    ensures forall oid :: oid in mine <==> oid in orders && orders[oid].user == user
    ensures forall oid :: oid in mine ==> mine[oid] == orders[oid]
  {
    map oid | oid in orders && orders[oid].user == user :: orders[oid]
  }

  /** Every order belongs to exactly one user's list. */
  lemma OrdersOfPartition(orders: map<Id, Order>, a: Id, b: Id)
    requires a != b
    ensures OrdersOf(orders, a).Keys !! OrdersOf(orders, b).Keys
    ensures forall oid :: oid in orders ==> oid in OrdersOf(orders, orders[oid].user)
  {
  }

  method MyOrders(db: Store, cache: Cache<Payload>, user: Id) returns (orders: Payload)
    modifies cache`entries
    ensures (orders, cache.entries)
            == ReadThrough(old(cache.entries), cache.now, MyOrdersKey(user), MyOrdersKey(user),
                           cache.defaultTtl, OrderMap(OrdersOf(db.orders, user)))
  {
    var key := MyOrdersKey(user);
    var cached := cache.Get(key);
    if cached.Some? {
      orders := cached.value;
    } else {
      orders := OrderMap(OrdersOf(db.orders, user));
      cache.SetEx(key, cache.defaultTtl, orders);
    }
  }

  method AllOrders(db: Store, cache: Cache<Payload>) returns (orders: Payload)
    modifies cache`entries
    ensures (orders, cache.entries)
            == ReadThrough(old(cache.entries), cache.now, AllOrdersKey, AllOrdersKey, cache.defaultTtl,
                           OrderMap(db.orders))
  {
    var cached := cache.Get(AllOrdersKey);
    if cached.Some? {
      orders := cached.value;
    } else {
      orders := OrderMap(db.orders);
      cache.SetEx(AllOrdersKey, cache.defaultTtl, orders);
    }
  }

  /** A hit answers from the cache; a miss on a missing order answers 404 and
      caches nothing; a miss on a present order caches it. */
  method GetSingleOrder(db: Store, cache: Cache<Payload>, id: Id) returns (r: Response, order: Option<Payload>)
    modifies cache`entries
    ensures Lookup(old(cache.entries), cache.now, OrderKey(id)).Some? ==>
              r == Ok(200) && order == Lookup(old(cache.entries), cache.now, OrderKey(id))
              && cache.entries == old(cache.entries)
    ensures Lookup(old(cache.entries), cache.now, OrderKey(id)).None? && id !in db.orders ==>
              r == Fail(404, "Order Not Found") && order.None? && cache.entries == old(cache.entries)
    ensures Lookup(old(cache.entries), cache.now, OrderKey(id)).None? && id in db.orders ==>
              r == Ok(200) && order == Some(OrderView(db.orders[id]))
              && cache.entries == Put(old(cache.entries), cache.now, OrderKey(id),
                                      OrderView(db.orders[id]), cache.defaultTtl)
  {
    var key := OrderKey(id);
    var cached := cache.Get(key);
    if cached.Some? {
      return Ok(200), cached;
    }
    if id !in db.orders {
      return Fail(404, "Order Not Found"), None;
    }
    var found := OrderView(db.orders[id]);
    cache.SetEx(key, cache.defaultTtl, found);
    r, order := Ok(200), Some(found);
  }
}
