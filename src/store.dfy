/** The database behind the repositories: one table per entity, each with
    the counter that hands out its keys. */
module Store {
  import opened Wrappers
  import opened Tables
  import opened Entities

  class Db {
    var users: seq<User>
    var products: seq<ProductRow>
    var cartItems: seq<CartItem>
    var orders: seq<Order>
    var nextUserId: int
    var nextProductId: int
    var nextCartItemId: int
    var nextOrderId: int

    /** An empty database. */
    constructor()
      ensures Valid()
      ensures users == [] && products == [] && cartItems == [] && orders == []
    {
      users, products, cartItems, orders := [], [], [], [];
      nextUserId, nextProductId, nextCartItemId, nextOrderId := 1, 1, 1, 1;
    }

    /** The integrity the schema keeps: unique keys, unique emails, one cart
        line per user and product, references to existing rows, and the
        constraints declared on Product. */
    ghost predicate Valid()
      reads this
    {
      UsersValid(users, nextUserId) &&
      ProductsValid(products, nextProductId) &&
      CartValid(cartItems, users, products, nextCartItemId) &&
      OrdersValid(orders, users, products, nextOrderId)
    }
  }

  /** The four key counters of the database. */
  datatype Counter = UserKeys | ProductKeys | CartItemKeys | OrderKeys

  /** Every key counter outside `moved` is as it was. */
  twostate predicate CountersKeptBut(db: Db, moved: set<Counter>)
    reads db
  {
    (UserKeys !in moved ==> db.nextUserId == old(db.nextUserId)) &&
    (ProductKeys !in moved ==> db.nextProductId == old(db.nextProductId)) &&
    (CartItemKeys !in moved ==> db.nextCartItemId == old(db.nextCartItemId)) &&
    (OrderKeys !in moved ==> db.nextOrderId == old(db.nextOrderId))
  }

  /** No key counter has moved. */
  twostate predicate CountersKept(db: Db)
    reads db
  {
    CountersKeptBut(db, {})
  }

  predicate UsersValid(users: seq<User>, next: int) {
    KeysAscend(users, UserKey, next) && EmailsUnique(users)
  }

  predicate ProductsValid(products: seq<ProductRow>, next: int) {
    KeysAscend(products, ProductKey, next) &&
    forall i :: 0 <= i < |products| ==> RowMeetsConstraints(products[i])
  }

  predicate CartValid(items: seq<CartItem>, users: seq<User>, products: seq<ProductRow>, next: int) {
    KeysAscend(items, CartItemKey, next) && LinesUnique(items) &&
    forall i :: 0 <= i < |items| ==> CartItemLinked(items[i], users, products)
  }

  predicate OrdersValid(orders: seq<Order>, users: seq<User>, products: seq<ProductRow>, next: int) {
    KeysAscend(orders, OrderKey, next) &&
    forall i :: 0 <= i < |orders| ==> OrderLinked(orders[i], users, products)
  }

  predicate EmailsUnique(users: seq<User>) {
    forall i, j :: 0 <= i < j < |users| ==> users[i].email != users[j].email
  }

  /** No two lines of the same user hold the same product. */
  predicate LinesUnique(items: seq<CartItem>) {
    forall i, j :: 0 <= i < j < |items| ==>
      !(items[i].userId == items[j].userId && items[i].productId == items[j].productId)
  }

  predicate CartItemLinked(c: CartItem, users: seq<User>, products: seq<ProductRow>) {
    HasKey(users, UserKey, c.userId) && HasKey(products, ProductKey, c.productId) &&
    IsInt32(c.quantity)
  }

  predicate OrderLinked(o: Order, users: seq<User>, products: seq<ProductRow>) {
    HasKey(users, UserKey, o.userId) &&
    forall k :: 0 <= k < |o.items| ==> HasKey(products, ProductKey, o.items[k].productId)
  }

  /** `findByEmail`. */
  function UserByEmail(users: seq<User>, email: string): (r: Option<nat>)
    ensures r.Some? ==> r.value < |users| && users[r.value].email == email
    ensures r.None? ==> forall i :: 0 <= i < |users| ==> users[i].email != email
  {
    IndexWhere(users, (u: User) => u.email == email)
  }

  /** `existsByEmail`. */
  predicate EmailTaken(users: seq<User>, email: string) {
    UserByEmail(users, email).Some?
  }

  function UserById(users: seq<User>, id: int): Option<nat> { IndexOfKey(users, UserKey, id) }
  function ProductById(products: seq<ProductRow>, id: int): Option<nat> { IndexOfKey(products, ProductKey, id) }
  function OrderById(orders: seq<Order>, id: int): Option<nat> { IndexOfKey(orders, OrderKey, id) }

  /** `findByUser` on the cart: the user's lines in key order. */
  function CartOf(items: seq<CartItem>, userId: int): seq<CartItem> {
    Filter(items, (c: CartItem) => c.userId == userId)
  }

  /** Everything but the user's lines: the table after `deleteByUser`. */
  function WithoutUser(items: seq<CartItem>, userId: int): seq<CartItem> {
    Filter(items, (c: CartItem) => c.userId != userId)
  }

  /** `findByUserIdAndProductId`. */
  function LineOf(items: seq<CartItem>, userId: int, productId: int): (r: Option<nat>)
    ensures r.Some? ==> r.value < |items| && items[r.value].userId == userId &&
                        items[r.value].productId == productId &&
                        forall k :: 0 <= k < r.value ==>
                          !(items[k].userId == userId && items[k].productId == productId)
    ensures r.None? ==> forall i :: 0 <= i < |items| ==>
                          !(items[i].userId == userId && items[i].productId == productId)
  {
    IndexWhere(items, (c: CartItem) => c.userId == userId && c.productId == productId)
  }

  /** Replacing a row by one with the same key keeps the key list. */
  lemma KeysAfterReplace<T>(s: seq<T>, key: T -> int, i: nat, x: T)
    requires i < |s| && key(x) == key(s[i])
    ensures KeysOf(s[i := x], key) == KeysOf(s, key)
  {
  }

  lemma KeysAfterAppend<T>(s: seq<T>, key: T -> int, x: T)
    ensures KeysOf(s + [x], key) == KeysOf(s, key) + [key(x)]
  {
  }

  lemma RowHasKey<T>(s: seq<T>, key: T -> int, i: nat)
    requires i < |s|
    ensures HasKey(s, key, key(s[i]))
  {
    assert KeysOf(s, key)[i] == key(s[i]);
  }

  /** With one line per user and product, any matching line is the one found. */
  lemma LineOfUnique(items: seq<CartItem>, userId: int, productId: int, i: nat)
    requires LinesUnique(items) && i < |items|
    requires items[i].userId == userId && items[i].productId == productId
    ensures LineOf(items, userId, productId) == Some(i)
  {
  }

  /** `userRepository.save` of a new user: it is stored under the next key. */
  method SaveNewUser(db: Db, user: User) returns (saved: User)
    requires db.Valid() && !EmailTaken(db.users, user.email)
    modifies db
    ensures db.Valid()
    ensures saved == user.(id := old(db.nextUserId))
    ensures db.users == old(db.users) + [saved] && db.nextUserId == old(db.nextUserId) + 1
    ensures db.products == old(db.products) && db.cartItems == old(db.cartItems) && db.orders == old(db.orders)
    ensures CountersKeptBut(db, {UserKeys})
  {
    saved := user.(id := db.nextUserId);
    AppendKeysAscend(db.users, UserKey, db.nextUserId, saved);
    KeysAfterAppend(db.users, UserKey, saved);
    db.users := db.users + [saved];
    db.nextUserId := db.nextUserId + 1;
    assert forall k :: HasKey(old(db.users), UserKey, k) ==> HasKey(db.users, UserKey, k);
  }
}
