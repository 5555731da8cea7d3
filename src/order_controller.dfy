/** `/api/orders`: the caller's orders, placing an order and tracking one. */
module OrderController {
  import opened Wrappers
  import opened Tables
  import opened Entities
  import opened Store
  import OrderService

  /** The payment method `place` passes on: the body's "paymentMethod" value
      when the key is there (null included), "COD" when the body or the key
      is absent. */
  function PaymentMethodOf(body: Option<map<string, Option<string>>>): (m: Option<string>)
    ensures body.None? ==> m == Some("COD")
    ensures body.Some? && "paymentMethod" !in body.value ==> m == Some("COD")
    ensures body.Some? && "paymentMethod" in body.value ==> m == body.value["paymentMethod"]
  {
    if body.Some? && "paymentMethod" in body.value then body.value["paymentMethod"] else Some("COD")
  }

  /** An order is placed for online payment exactly when the body asks for
      "RAZORPAY"; anything else, a missing body or key and null included,
      ends up cash on delivery. */
  lemma PlaceDefaultsToCod(body: Option<map<string, Option<string>>>)
    ensures OrderService.NormalizePaymentMethod(PaymentMethodOf(body)) == "RAZORPAY" <==>
      body.Some? && "paymentMethod" in body.value && body.value["paymentMethod"] == Some("RAZORPAY")
    ensures OrderService.NormalizePaymentMethod(PaymentMethodOf(body)) != "RAZORPAY" ==>
      OrderService.NormalizePaymentMethod(PaymentMethodOf(body)) == "COD"
  {
  }

  /** `place`: the service's placement with the payment method the body
      asks for, COD by default. */
  method Place(db: Db, email: string, body: Option<map<string, Option<string>>>, now: int)
    returns (r: Result<Order>)
    requires db.Valid()
    modifies db
    ensures db.Valid()
    ensures db.users == old(db.users) && db.products == old(db.products)
    ensures UserByEmail(db.users, email).None? ==> r == Failure(OrderService.UserNotFound) && unchanged(db)
    ensures UserByEmail(db.users, email).Some? ==>
      var userId := db.users[UserByEmail(db.users, email).value].id;
      var lines := CartOf(old(db.cartItems), userId);
      (lines == [] ==> r == Failure(OrderService.CartIsEmpty) && unchanged(db)) &&
      (lines != [] && !OrderService.AllPriced(lines, db.products) ==>
        r == Failure(OrderService.NullPointer) && db.orders == old(db.orders) && db.cartItems == old(db.cartItems)) &&
      (lines != [] && OrderService.AllPriced(lines, db.products) ==>
        r == Success(OrderService.PlacedOrder(old(db.nextOrderId), userId, PaymentMethodOf(body),
                                              lines, db.products, now)) &&
        db.orders == old(db.orders) + [r.value] &&
        db.cartItems == WithoutUser(old(db.cartItems), userId)) &&
      (lines != [] ==> db.nextOrderId == old(db.nextOrderId) + 1)
    ensures CountersKeptBut(db, {OrderKeys})
    ensures r.Success? ==>
      r.value.paymentMethod == OrderService.NormalizePaymentMethod(PaymentMethodOf(body))
  {
    r := OrderService.PlaceOrder(db, email, PaymentMethodOf(body), now);
  }

  /** `trackOrder`: any order by id, whoever placed it. */
  method TrackOrder(db: Db, id: int) returns (r: Result<Order>)
    ensures r.Success? <==> HasKey(db.orders, OrderKey, id)
    ensures r.Success? ==> r.value in db.orders && r.value.id == id
    ensures r.Failure? ==> r.error == OrderService.OrderNotFound
  {
    r := OrderService.FindById(db, id);
  }

  /** `myOrders`: only the caller's orders, newest first. */
  method MyOrders(db: Db, email: string) returns (r: Result<seq<Order>>)
    ensures UserByEmail(db.users, email).None? ==> r == Failure(NoValuePresent)
    ensures UserByEmail(db.users, email).Some? ==>
      r == Success(OrderService.OrdersOf(db.orders, db.users[UserByEmail(db.users, email).value].id))
    ensures r.Success? ==>
      UserByEmail(db.users, email).Some? &&
      var userId := db.users[UserByEmail(db.users, email).value].id;
      multiset(r.value) == multiset(Filter(db.orders, (o: Order) => o.userId == userId)) &&
      (forall i :: 0 <= i < |r.value| ==> r.value[i] in db.orders && r.value[i].userId == userId) &&
      (forall i :: 0 <= i < |db.orders| && db.orders[i].userId == userId ==> db.orders[i] in r.value) &&
      (forall i, j :: 0 <= i < j < |r.value| ==> r.value[i].createdAt >= r.value[j].createdAt)
  {
    r := OrderService.ListMyOrders(db, email);
    if r.Success? {
      OrderService.OrdersOfFacts(db.orders, db.users[UserByEmail(db.users, email).value].id);
    }
  }
}
