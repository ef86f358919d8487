/** The payment handlers: the guard and amount conversion in front of the
    payment provider, and the coupon collection with its unique codes. */
module Payments {
  import opened Domain

  /** What `createPaymentIntent` answers: a falsy amount is refused with 400,
      any other is charged in minor units (paise), a hundred per rupee, and
      answered with 201. */
  datatype Charge = Refused(response: Response) | Charged(response: Response, minorUnits: int)

  function PaymentIntent(amount: Option<int>): (c: Charge)
    ensures c.Refused? <==> !GivenNumber(amount)
    ensures c.Refused? ==> c.response == Fail(400, "Please enter amount")
    ensures c.Charged? ==> c.response == Ok(201)
    ensures c.Charged? ==> c.minorUnits % 100 == 0 && c.minorUnits / 100 == amount.value
    ensures c.Charged? ==> (c.minorUnits > 0 <==> amount.value > 0)
  {
    if !GivenNumber(amount) then Refused(Fail(400, "Please enter amount"))
    else Charged(Ok(201), amount.value * 100)
  }

  /** Some coupon other than `self` already carries the code. */
  predicate CodeTaken(coupons: map<Id, Coupon>, code: string, self: Option<Id>)
  {
    exists id :: id in coupons && coupons[id].code == code && Some(id) != self
  }

  /** `newCoupon`: both fields must be truthy; a code already in use violates
      the unique index and the store throws; otherwise the coupon is created. */
  method NewCoupon(db: Store, code: Option<string>, amount: Option<int>) returns (r: Response)
    requires db.Valid()
    modifies db`coupons, db`issued
    ensures db.Valid()
    ensures !GivenText(code) || !GivenNumber(amount) ==> r == Fail(400, "Please enter both the feilds!")
    ensures GivenText(code) && GivenNumber(amount) && CodeTaken(old(db.coupons), code.value, None) ==>
              r.Thrown?
    ensures !r.Ok? ==> unchanged(db)
    ensures GivenText(code) && GivenNumber(amount) && !CodeTaken(old(db.coupons), code.value, None) ==>
              && r == Ok(201)
              && Mint(old(db.issued)) !in old(db.coupons)
              && db.coupons == old(db.coupons)[Mint(old(db.issued)) := Coupon(code.value, amount.value)]
  {
    if !GivenText(code) || !GivenNumber(amount) {
      return Fail(400, "Please enter both the feilds!");
    }
    if exists id :: id in db.coupons && db.coupons[id].code == code.value {
      return Thrown("duplicate coupon code");
    }
    var id := db.NewId();
    db.coupons := db.coupons[id := Coupon(code.value, amount.value)];
    r := Ok(201);
  }

  method CouponDetail(db: Store, id: Id) returns (r: Response, coupon: Option<Coupon>)
    ensures id !in db.coupons ==> r == Fail(400, "Invalid Code!") && coupon.None?
    ensures id in db.coupons ==> r == Ok(200) && coupon == Some(db.coupons[id])
  {
    if id !in db.coupons {
      return Fail(400, "Invalid Code!"), None;
    }
    r, coupon := Ok(200), Some(db.coupons[id]);
  }

  /** `applyDiscount`: the amount of the coupon with the given code. Because
      codes are unique, the answer does not depend on which matching document
      the store returns first. */
  method ApplyDiscount(db: Store, code: string) returns (r: Response, discount: Option<int>)
    requires db.Valid()
    ensures !CodeTaken(db.coupons, code, None) ==> r == Fail(400, "Invalid Code!") && discount.None?
    ensures CodeTaken(db.coupons, code, None) ==>
              && r == Ok(200) && discount.Some?
              && forall id :: id in db.coupons && db.coupons[id].code == code ==> discount.value == db.coupons[id].amount
  {
    if !exists id :: id in db.coupons && db.coupons[id].code == code {
      return Fail(400, "Invalid Code!"), None;
    }
    var found :| found in db.coupons && db.coupons[found].code == code;
    r, discount := Ok(200), Some(db.coupons[found].amount);
  }

  method DeleteCoupon(db: Store, id: Id) returns (r: Response)
    requires db.Valid()
    modifies db`coupons
    ensures db.Valid()
    ensures id !in old(db.coupons) ==> r == Fail(400, "Coupon doesn't exisit") && unchanged(db)
    ensures id in old(db.coupons) ==> r == Ok(200) && db.coupons == old(db.coupons) - {id}
  {
    if id !in db.coupons {
      return Fail(400, "Coupon doesn't exisit");
    }
    db.coupons := db.coupons - {id};
    r := Ok(200);
  }

  /** The coupon after `updateCoupon`'s truthy-field overwrite. */
  function Patched(c: Coupon, amount: Option<int>, code: Option<string>): (p: Coupon)
    ensures p.amount == (if GivenNumber(amount) then amount.value else c.amount)
    ensures p.code == (if GivenText(code) then code.value else c.code)
  {
    var c := if GivenNumber(amount) then c.(amount := amount.value) else c;
    if GivenText(code) then c.(code := code.value) else c
  }

  /** `updateCoupon`: a code another coupon carries violates the unique index
      and the save throws, leaving the store as it was. */
  method UpdateCoupon(db: Store, id: Id, amount: Option<int>, code: Option<string>) returns (r: Response)
    requires db.Valid()
    modifies db`coupons
    ensures db.Valid()
    ensures id !in old(db.coupons) ==> r == Fail(400, "Coupon doesn't exisit")
    ensures id in old(db.coupons) && CodeTaken(old(db.coupons), Patched(old(db.coupons)[id], amount, code).code, Some(id))
            ==> r.Thrown?
    ensures !r.Ok? ==> unchanged(db)
    ensures id in old(db.coupons) && !CodeTaken(old(db.coupons), Patched(old(db.coupons)[id], amount, code).code, Some(id))
            ==> r == Ok(200) && db.coupons == old(db.coupons)[id := Patched(old(db.coupons)[id], amount, code)]
  {
    if id !in db.coupons {
      return Fail(400, "Coupon doesn't exisit");
    }
    var checkCoupon := db.coupons[id];
    if GivenNumber(amount) { checkCoupon := checkCoupon.(amount := amount.value); }
    if GivenText(code) { checkCoupon := checkCoupon.(code := code.value); }
    if exists other :: other in db.coupons && db.coupons[other].code == checkCoupon.code && other != id {
      return Thrown("duplicate coupon code");
    }
    db.coupons := db.coupons[id := checkCoupon];
    r := Ok(200);
  }
}
