/** The records of the store of record (users, products, orders, reviews and
    coupons), the store itself, and the request and response vocabulary the
    handlers share. */
module Domain {

  datatype Option<T> = None | Some(value: T)

  /** Document identifiers: Mongo ObjectIds, and the client-chosen user ids. */
  type Id = string

  /** A text field of a request body or query string, read with JavaScript
      truthiness: absent and "" are both falsy. */
  predicate GivenText(o: Option<string>)
  {
    o.Some? && o.value != ""
  }

  /** A numeric field of a request, read with JavaScript truthiness: absent
      (or NaN) and 0 are both falsy. */
  predicate GivenNumber(o: Option<int>)
  {
    o.Some? && o.value != 0
  }

  /** `x || 0` on an optional numeric field. */
  function OrZero(o: Option<int>): int
  {
    if o.Some? then o.value else 0
  }

  /** What a handler answers. `Fail` is `next(new ErrorHandler(message, status))`;
      `Thrown` is an exception that the TryCatch wrapper passes to the error
      middleware, whose status is not part of this model. */
  datatype Response =
    | Ok(status: int)
    | Fail(status: int, message: string)
    | Thrown(reason: string)

  datatype Photo = Photo(publicId: string, url: string)

  datatype User = User(name: string, email: string, photo: string, role: Option<string>,
                       gender: string, dob: string)

  datatype Product = Product(name: string, price: int, stock: int, category: string,
                             description: string, photos: seq<Photo>,
                             ratings: real, numOfReviews: nat)

  datatype Status = Processing | Shipped | Delivered

  datatype OrderItem = OrderItem(productId: Id, quantity: int)

  /** The shipping address is carried along without being inspected. */
  datatype ShippingInfo = ShippingInfo(details: string)

  datatype Order = Order(user: Id, shippingInfo: ShippingInfo, items: seq<OrderItem>,
                         subtotal: int, tax: int, shippingCharges: Option<int>,
                         discount: Option<int>, total: int, status: Status)

  datatype Review = Review(user: Id, product: Id, comment: string, rating: int,
                           verifiedPurchase: bool)

  datatype Coupon = Coupon(code: string, amount: int)

  /** The flag record a mutation passes to `invalidateCache`; a flag left out
      of the source's object literal is false, and a single product id is a
      one-element list. */
  datatype Invalidation = Invalidation(product: bool := false, order: bool := false,
                                       admin: bool := false, review: bool := false,
                                       userId: Option<Id> := None, productIds: seq<Id> := [],
                                       orderId: Option<Id> := None)

  /** The identifier the store assigns to its n-th created document. */
  function Mint(n: nat): (id: Id)
    ensures |id| == n
  {
    seq(n, _ => '#')
  }

  /** At most one review per user and product. */
  ghost predicate OneReviewPerUserAndProduct(reviews: map<Id, Review>)
  {
    forall a, b ::
      (a in reviews && b in reviews && reviews[a].user == reviews[b].user
       && reviews[a].product == reviews[b].product) ==> a == b
  }

  /** The coupon schema's unique index on the code. */
  ghost predicate UniqueCouponCodes(coupons: map<Id, Coupon>)
  {
    forall a, b :: a in coupons && b in coupons && coupons[a].code == coupons[b].code ==> a == b
  }

  /** The store of record: one map per collection. */
  class Store {
    var users: map<Id, User>
    var products: map<Id, Product>
    var orders: map<Id, Order>
    var reviews: map<Id, Review>
    var coupons: map<Id, Coupon>
    /** How many identifiers the store has generated. */
    var issued: nat

    ghost predicate Valid()
      reads this
    {
      && (forall id :: id in products ==> |id| < issued)
      && (forall id :: id in orders ==> |id| < issued)
      && (forall id :: id in reviews ==> |id| < issued)
      && (forall id :: id in coupons ==> |id| < issued)
      && OneReviewPerUserAndProduct(reviews)
      && UniqueCouponCodes(coupons)
    }

    constructor ()
      ensures Valid()
      ensures users == map[] && products == map[] && orders == map[]
      ensures reviews == map[] && coupons == map[]
    {
      users, products, orders, reviews, coupons := map[], map[], map[], map[], map[];
      issued := 0;
    }

    /** A new document identifier, used by no generated collection. */
    method NewId() returns (id: Id)
      requires Valid()
      modifies this`issued
      ensures Valid()
      ensures id == Mint(old(issued)) && issued == old(issued) + 1
      ensures id !in products && id !in orders && id !in reviews && id !in coupons
    {
      id := Mint(issued);
      issued := issued + 1;
    }
  }
}
