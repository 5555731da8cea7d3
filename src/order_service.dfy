/** Orders: placing one from the cart, listing a user's orders, lookups. */
module OrderService {
  import opened Wrappers
  import opened Tables
  import opened Entities
  import opened Store
  import Numbers
  import Sorting
  import CartService

  const UserNotFound := "User not found"
  const CartIsEmpty := "Cart is empty"
  const OrderNotFound := "Order not found"
  /** The exception thrown when a cart product has no price. */
  const NullPointer := "NullPointerException"

  /** Message of the NumberFormatException of `Long.parseLong(s)`. */
  function ForInputString(s: string): string {
    "For input string: \"" + s + "\""
  }

  /** A missing method, or one other than "COD" and "RAZORPAY", becomes "COD". */
  function NormalizePaymentMethod(m: Option<string>): (r: string)
    ensures r == "COD" || r == "RAZORPAY"
    ensures r == "RAZORPAY" <==> m == Some("RAZORPAY")
  {
    if m.None? || (m.value != "COD" && m.value != "RAZORPAY") then "COD" else m.value
  }

  /** The initial order status for a payment method: cash on delivery is
      placed at once, an online payment waits for it. */
  function InitialStatus(m: string): string {
    if m == "COD" then "PLACED"
    else if m == "RAZORPAY" then "PENDING"
    else "PENDING"
  }

  /** Of the three status branches, only the first two can be taken: every
      normalised method is COD or RAZORPAY, and COD alone is placed at once. */
  lemma InitialStatusOfNormalized(m: Option<string>)
    ensures InitialStatus(NormalizePaymentMethod(m)) == "PLACED" <==> NormalizePaymentMethod(m) == "COD"
    ensures InitialStatus(NormalizePaymentMethod(m)) == "PENDING" <==> m == Some("RAZORPAY")
  {
  }

  /** The current price of a product; None when it has none. */
  function PriceOf(products: seq<ProductRow>, productId: int): Option<real> {
    match ProductById(products, productId)
    case Some(i) => products[i].price
    case None => None
  }

  predicate AllPriced(lines: seq<CartItem>, products: seq<ProductRow>) {
    forall i :: 0 <= i < |lines| ==> PriceOf(products, lines[i].productId).Some?
  }

  /** One order item per cart line: same product and quantity, current price. */
  function ItemsFor(lines: seq<CartItem>, products: seq<ProductRow>): (r: seq<OrderItem>)
    requires AllPriced(lines, products)
  {
    seq(|lines|, i requires 0 <= i < |lines| =>
      OrderItem(lines[i].productId, lines[i].quantity, PriceOf(products, lines[i].productId).value))
  }

  function ItemValue(it: OrderItem): real { it.priceAtPurchase * it.quantity as real }

  /** What an order's items are worth. */
  function ItemsValue(items: seq<OrderItem>): real { SumOf(items, ItemValue) }

  /** What the cart lines are worth at current prices. */
  function CartValue(lines: seq<CartItem>, products: seq<ProductRow>): real {
    SumOf(lines, (c: CartItem) => PriceOf(products, c.productId).GetOr(0.0) * c.quantity as real)
  }

  /** Items taken from the lines are worth what the lines are worth. */
  lemma {:induction false} ItemsValueOfCart(lines: seq<CartItem>, products: seq<ProductRow>)
    requires AllPriced(lines, products)
    ensures ItemsValue(ItemsFor(lines, products)) == CartValue(lines, products)
  {
    if lines != [] {
      var init := lines[..|lines| - 1];
      assert AllPriced(init, products);
      ItemsValueOfCart(init, products);
      assert ItemsFor(lines, products)[..|lines| - 1] == ItemsFor(init, products);
    }
  }

  /** The order `placeOrder` creates from the user's lines. */
  function PlacedOrder(id: int, userId: int, m: Option<string>, lines: seq<CartItem>,
                       products: seq<ProductRow>, now: int): Order
    requires AllPriced(lines, products)
  {
    var pm := NormalizePaymentMethod(m);
    Order(id, userId, Some(InitialStatus(pm)), pm, "PENDING",
          CartValue(lines, products), ItemsFor(lines, products), now, None, None, None)
  }

  /** A placed order has one item per cart line, with its product, quantity
      and current price; its total is what its items are worth; its payment
      is pending; and it is placed at once iff it is cash on delivery. */
  lemma PlacedOrderFacts(id: int, userId: int, m: Option<string>, lines: seq<CartItem>,
                         products: seq<ProductRow>, now: int)
    requires AllPriced(lines, products)
    ensures var o := PlacedOrder(id, userId, m, lines, products, now);
      |o.items| == |lines| &&
      (forall i :: 0 <= i < |lines| ==>
        o.items[i].productId == lines[i].productId && o.items[i].quantity == lines[i].quantity &&
        Some(o.items[i].priceAtPurchase) == PriceOf(products, lines[i].productId)) &&
      o.totalAmount == ItemsValue(o.items) &&
      o.paymentStatus == "PENDING" &&
      (o.status == Some("PLACED") <==> o.paymentMethod == "COD")
  {
    ItemsValueOfCart(lines, products);
  }

  /** The loop of `placeOrder`: an item per line and the running total.
      None is the NullPointerException on the first line without a price. */
  method CollectItems(lines: seq<CartItem>, products: seq<ProductRow>) returns (r: Option<(seq<OrderItem>, real)>)
    ensures r.Some? <==> AllPriced(lines, products)
    ensures r.Some? ==> r.value.0 == ItemsFor(lines, products) && r.value.1 == CartValue(lines, products)
  {
    var items: seq<OrderItem> := [];
    var total := 0.0;
    for i := 0 to |lines|
      invariant AllPriced(lines[..i], products)
      invariant items == ItemsFor(lines[..i], products)
      invariant total == CartValue(lines[..i], products)
    {
      var price := PriceOf(products, lines[i].productId);
      if price.None? {
        return None;
      }
      items := items + [OrderItem(lines[i].productId, lines[i].quantity, price.value)];
      total := total + price.value * lines[i].quantity as real;
      assert lines[..i + 1][..i] == lines[..i];
    }
    assert lines[..|lines|] == lines;
    return Some((items, total));
  }

  /** `placeOrder`: checks the user and the cart, saves the new order, fills
      in its items and total, saves it again and empties the cart. The steps
      run in one transaction, so a failure part-way leaves the tables as they
      were; only the key counter, as with database identity columns, has
      moved on. */
  method PlaceOrder(db: Db, email: string, paymentMethod: Option<string>, now: int) returns (r: Result<Order>)
    requires db.Valid()
    modifies db
    ensures db.Valid()
    ensures db.users == old(db.users) && db.products == old(db.products)
    ensures UserByEmail(db.users, email).None? ==> r == Failure(UserNotFound) && unchanged(db)
    ensures UserByEmail(db.users, email).Some? ==>
      var userId := db.users[UserByEmail(db.users, email).value].id;
      var lines := CartOf(old(db.cartItems), userId);
      (lines == [] ==> r == Failure(CartIsEmpty) && unchanged(db)) &&
      (lines != [] && !AllPriced(lines, db.products) ==>
        r == Failure(NullPointer) && db.orders == old(db.orders) && db.cartItems == old(db.cartItems)) &&
      (lines != [] && AllPriced(lines, db.products) ==>
        r == Success(PlacedOrder(old(db.nextOrderId), userId, paymentMethod, lines, db.products, now)) &&
        db.orders == old(db.orders) + [r.value] &&
        db.cartItems == WithoutUser(old(db.cartItems), userId)) &&
      (lines != [] ==> db.nextOrderId == old(db.nextOrderId) + 1)
    ensures CountersKeptBut(db, {OrderKeys})
  {
    var ui := UserByEmail(db.users, email);
    if ui.None? {
      return Failure(UserNotFound);
    }
    var user := db.users[ui.value];
    var lines := CartOf(db.cartItems, user.id);
    if lines == [] {
      return Failure(CartIsEmpty);
    }
    RowHasKey(db.users, UserKey, ui.value);
    r := PlaceFromCart(db, user.id, lines, paymentMethod, now);
  }

  /** The part of `placeOrder` after the checks: build, save and fill in
      the order, then clear the cart. */
  method PlaceFromCart(db: Db, userId: int, lines: seq<CartItem>, paymentMethod: Option<string>, now: int)
    returns (r: Result<Order>)
    requires db.Valid() && HasKey(db.users, UserKey, userId) && lines == CartOf(db.cartItems, userId)
    modifies db
    ensures db.Valid()
    ensures db.users == old(db.users) && db.products == old(db.products)
    ensures !AllPriced(lines, db.products) ==>
      r == Failure(NullPointer) && db.orders == old(db.orders) && db.cartItems == old(db.cartItems)
    ensures AllPriced(lines, db.products) ==>
      r == Success(PlacedOrder(old(db.nextOrderId), userId, paymentMethod, lines, db.products, now)) &&
      db.orders == old(db.orders) + [r.value] &&
      db.cartItems == WithoutUser(old(db.cartItems), userId)
    ensures db.nextOrderId == old(db.nextOrderId) + 1 && CountersKeptBut(db, {OrderKeys})
  {
    var pm := NormalizePaymentMethod(paymentMethod);
    var order := Order(0, userId, Some(InitialStatus(pm)), pm, "PENDING", 0.0, [], now, None, None, None);
    var before := db.orders;
    order := InsertOrder(db, order);
    var collected := CollectItems(lines, db.products);
    if collected.None? {
      RestoreOrders(db, before);
      return Failure(NullPointer);
    }
    order := order.(items := collected.value.0, totalAmount := collected.value.1);
    LinesLinked(db.cartItems, userId, db.users, db.products);
    order := CompleteOrder(db, before, order, userId);
    return Success(order);
  }

  /** The second save and the emptied cart: the order just inserted is
      replaced by its filled-in version and the user's lines are deleted. */
  method CompleteOrder(db: Db, before: seq<Order>, order: Order, userId: int) returns (saved: Order)
    requires db.Valid() && OrderLinked(order, db.users, db.products)
    requires |db.orders| > 0 && db.orders[..|db.orders| - 1] == before
    requires db.orders[|db.orders| - 1].id == order.id
    modifies db
    ensures db.Valid()
    ensures saved == order
    ensures db.orders == before + [order]
    ensures db.users == old(db.users) && db.products == old(db.products)
    ensures db.cartItems == WithoutUser(old(db.cartItems), userId)
    ensures CountersKept(db)
  {
    RowHasKey(db.orders, OrderKey, |db.orders| - 1);
    saved := SaveOrder(db, order);
    assert db.orders == before + [order];
    CartService.DeleteByUser(db, userId);
  }

  /** The first `save` of a new order: it is stored under the next key. */
  method InsertOrder(db: Db, order: Order) returns (saved: Order)
    requires db.Valid() && OrderLinked(order, db.users, db.products)
    modifies db
    ensures db.Valid()
    ensures saved == order.(id := old(db.nextOrderId))
    ensures db.orders == old(db.orders) + [saved] && db.nextOrderId == old(db.nextOrderId) + 1
    ensures db.users == old(db.users) && db.products == old(db.products) && db.cartItems == old(db.cartItems)
    ensures CountersKeptBut(db, {OrderKeys})
  {
    saved := order.(id := db.nextOrderId);
    AppendKeysAscend(db.orders, OrderKey, db.nextOrderId, saved);
    db.orders := db.orders + [saved];
    db.nextOrderId := db.nextOrderId + 1;
  }

  /** A rolled-back transaction: the order table returns to an earlier
      content, while the key counter keeps its value. */
  method RestoreOrders(db: Db, before: seq<Order>)
    requires db.Valid() && OrdersValid(before, db.users, db.products, db.nextOrderId)
    modifies db
    ensures db.Valid()
    ensures db.orders == before && CountersKept(db)
    ensures db.users == old(db.users) && db.products == old(db.products) && db.cartItems == old(db.cartItems)
  {
    db.orders := before;
  }

  /** Every product in a user's cart exists, so an order built from it is linked. */
  lemma LinesLinked(items: seq<CartItem>, userId: int, users: seq<User>, products: seq<ProductRow>)
    requires forall i :: 0 <= i < |items| ==> CartItemLinked(items[i], users, products)
    requires AllPriced(CartOf(items, userId), products)
    ensures forall k :: 0 <= k < |CartOf(items, userId)| ==>
      HasKey(products, ProductKey, ItemsFor(CartOf(items, userId), products)[k].productId)
  {
    var lines := CartOf(items, userId);
    forall k | 0 <= k < |lines| ensures HasKey(products, ProductKey, lines[k].productId) {
      assert lines[k] in items;
    }
  }

  /** Newer orders first. */
  predicate NewestFirst(a: Order, b: Order) { a.createdAt >= b.createdAt }

  lemma NewestFirstIsPreorder()
    ensures Sorting.TotalPreorder(NewestFirst)
  {
  }

  /** `findByUserOrderByCreatedAtDesc`: the user's orders, newest first. */
  function OrdersOf(orders: seq<Order>, userId: int): seq<Order> {
    Sorting.SortBy(Filter(orders, (o: Order) => o.userId == userId), NewestFirst)
  }

  /** The listing holds exactly the user's orders, newest first. */
  lemma OrdersOfFacts(orders: seq<Order>, userId: int)
    ensures var r := OrdersOf(orders, userId);
      (forall i, j :: 0 <= i < j < |r| ==> r[i].createdAt >= r[j].createdAt) &&
      multiset(r) == multiset(Filter(orders, (o: Order) => o.userId == userId)) &&
      (forall i :: 0 <= i < |r| ==> r[i].userId == userId && r[i] in orders) &&
      (forall i :: 0 <= i < |orders| && orders[i].userId == userId ==> orders[i] in r)
  {
    var f := Filter(orders, (o: Order) => o.userId == userId);
    var r := OrdersOf(orders, userId);
    NewestFirstIsPreorder();
    Sorting.SortBySorted(f, NewestFirst);
    forall i | 0 <= i < |r| ensures r[i].userId == userId && r[i] in orders {
      assert r[i] in multiset(f);
    }
    forall i | 0 <= i < |orders| && orders[i].userId == userId ensures orders[i] in r {
      assert orders[i] in multiset(f);
    }
  }

  /** `listMyOrders`. */
  method ListMyOrders(db: Db, email: string) returns (r: Result<seq<Order>>)
    ensures UserByEmail(db.users, email).None? ==> r == Failure(NoValuePresent)
    ensures UserByEmail(db.users, email).Some? ==>
      r == Success(OrdersOf(db.orders, db.users[UserByEmail(db.users, email).value].id))
  {
    var ui := UserByEmail(db.users, email);
    if ui.None? {
      return Failure(NoValuePresent);
    }
    return Success(OrdersOf(db.orders, db.users[ui.value].id));
  }

  /** `findById`. */
  method FindById(db: Db, id: int) returns (r: Result<Order>)
    ensures r.Success? <==> HasKey(db.orders, OrderKey, id)
    ensures r.Success? ==> r.value in db.orders && r.value.id == id
    ensures r.Success? ==> OrderById(db.orders, id).Some? && r.value == db.orders[OrderById(db.orders, id).value]
    ensures r.Failure? ==> r.error == OrderNotFound
  {
    var k := OrderById(db.orders, id);
    HasKeyIff(db.orders, OrderKey, id);
    if k.None? {
      return Failure(OrderNotFound);
    }
    return Success(db.orders[k.value]);
  }

  /** `findByTrackingId`: the text must parse as a long; a missing order is
      None rather than an error. */
  method FindByTrackingId(db: Db, trackingId: string) returns (r: Result<Option<Order>>)
    ensures Numbers.ParseLong(trackingId).None? ==> r == Failure(ForInputString(trackingId))
    ensures Numbers.ParseLong(trackingId).Some? ==>
      r.Success? &&
      (r.value.Some? <==> HasKey(db.orders, OrderKey, Numbers.ParseLong(trackingId).value)) &&
      (r.value.Some? ==> r.value.value in db.orders && r.value.value.id == Numbers.ParseLong(trackingId).value)
  {
    var id := Numbers.ParseLong(trackingId);
    if id.None? {
      return Failure(ForInputString(trackingId));
    }
    HasKeyIff(db.orders, OrderKey, id.value);
    var k := OrderById(db.orders, id.value);
    if k.None? {
      return Success(None);
    }
    return Success(Some(db.orders[k.value]));
  }

  /** `saveOrder` for an order already stored: its row is replaced. */
  method SaveOrder(db: Db, order: Order) returns (saved: Order)
    requires db.Valid() && HasKey(db.orders, OrderKey, order.id)
    requires OrderLinked(order, db.users, db.products)
    modifies db
    ensures db.Valid()
    ensures saved == order
    ensures db.users == old(db.users) && db.products == old(db.products) && db.cartItems == old(db.cartItems)
    ensures CountersKept(db)
    ensures db.orders == old(db.orders)[OrderById(old(db.orders), order.id).value := order]
  {
    HasKeyIff(db.orders, OrderKey, order.id);
    var k := OrderById(db.orders, order.id).value;
    ReplaceKeysAscend(db.orders, OrderKey, db.nextOrderId, k, order);
    db.orders := db.orders[k := order];
    return order;
  }
}
