/** The cart: one line per product a user has added, with its quantity. */
module CartService {
  import opened Wrappers
  import opened Tables
  import opened Entities
  import opened Store
  import Numbers

  /** Quantity of the product in the user's cart; 0 when there is no line. */
  function QuantityIn(items: seq<CartItem>, userId: int, productId: int): int {
    match LineOf(items, userId, productId)
    case Some(i) => items[i].quantity
    case None => 0
  }

  /** The table after adding `q` of a product: the user's existing line for it
      gains `q` (in Java int arithmetic), or a new line with quantity `q` is
      appended under the next key. */
  function AddLine(items: seq<CartItem>, userId: int, productId: int, q: int, nextId: int): seq<CartItem> {
    match LineOf(items, userId, productId)
    case Some(i) => items[i := items[i].(quantity := Numbers.ToInt32(items[i].quantity + q))]
    case None => items + [CartItem(nextId, userId, productId, Numbers.ToInt32(0 + q))]
  }

  /** The table after removing the user's line for a product, if there is one. */
  function RemoveLine(items: seq<CartItem>, userId: int, productId: int): seq<CartItem> {
    match LineOf(items, userId, productId)
    case Some(i) => items[..i] + items[i + 1..]
    case None => items
  }

  /** After adding, the line's quantity is the old quantity plus `q`, wrapped
      to 32 bits; `q` itself is not range-checked, so zero or a negative
      amount is added as it is. */
  lemma AddLineQuantity(items: seq<CartItem>, userId: int, productId: int, q: int, nextId: int)
    requires LinesUnique(items)
    ensures QuantityIn(AddLine(items, userId, productId, q, nextId), userId, productId)
            == Numbers.ToInt32(QuantityIn(items, userId, productId) + q)
  {
    var r := AddLine(items, userId, productId, q, nextId);
    AddLineKeepsUnique(items, userId, productId, q, nextId);
    match LineOf(items, userId, productId)
    case Some(i) =>
      LineOfUnique(r, userId, productId, i);
    case None =>
      LineOfUnique(r, userId, productId, |items|);
  }

  /** Adding never creates a second line for the same user and product. */
  lemma AddLineKeepsUnique(items: seq<CartItem>, userId: int, productId: int, q: int, nextId: int)
    requires LinesUnique(items)
    ensures LinesUnique(AddLine(items, userId, productId, q, nextId))
  {
  }

  /** Adding changes no line of another product or another user. */
  lemma AddLineOthers(items: seq<CartItem>, userId: int, productId: int, q: int, nextId: int, u: int, p: int)
    requires LinesUnique(items)
    requires u != userId || p != productId
    ensures LineOf(AddLine(items, userId, productId, q, nextId), u, p) == LineOf(items, u, p)
  {
    var r := AddLine(items, userId, productId, q, nextId);
    AddLineKeepsUnique(items, userId, productId, q, nextId);
    match LineOf(items, u, p)
    case Some(i) =>
      LineOfUnique(r, u, p, i);
    case None =>
      assert forall k :: 0 <= k < |r| ==> !(r[k].userId == u && r[k].productId == p) by {
        assert forall k :: 0 <= k < |items| ==> r[k].userId == items[k].userId && r[k].productId == items[k].productId;
      }
  }

  /** After removal the user has no line for the product. */
  lemma RemoveLineRemoves(items: seq<CartItem>, userId: int, productId: int)
    requires LinesUnique(items)
    ensures LineOf(RemoveLine(items, userId, productId), userId, productId).None?
  {
    match LineOf(items, userId, productId)
    case Some(i) =>
      var r := items[..i] + items[i + 1..];
      forall k | 0 <= k < |r| ensures !(r[k].userId == userId && r[k].productId == productId) {
        if k >= i { assert r[k] == items[k + 1]; }
      }
    case None =>
  }

  /** Removal keeps every other line, in order. */
  lemma RemoveLineOthers(items: seq<CartItem>, userId: int, productId: int)
    ensures Filter(RemoveLine(items, userId, productId), (c: CartItem) => Other(c, userId, productId))
         == Filter(items, (c: CartItem) => Other(c, userId, productId))
  {
    var p := (c: CartItem) => Other(c, userId, productId);
    match LineOf(items, userId, productId)
    case Some(i) =>
      var a, b := items[..i], items[i + 1..];
      assert items == a + ([items[i]] + b);
      FilterConcat(a, [items[i]] + b, p);
      assert Filter([items[i]] + b, p) == Filter(b, p) by {
        assert ([items[i]] + b)[1..] == b;
      }
      FilterConcat(a, b, p);
    case None =>
  }

  predicate Other(c: CartItem, userId: int, productId: int) {
    !(c.userId == userId && c.productId == productId)
  }

  /** Clearing empties the user's cart and leaves every other user's cart as it was. */
  lemma {:induction false} ClearLeavesOthers(items: seq<CartItem>, userId: int, other: int)
    ensures CartOf(WithoutUser(items, userId), userId) == []
    ensures other != userId ==> CartOf(WithoutUser(items, userId), other) == CartOf(items, other)
  {
    if items != [] {
      ClearLeavesOthers(items[1..], userId, other);
      var c := items[0];
      var rest := WithoutUser(items[1..], userId);
      if c.userId != userId {
        assert WithoutUser(items, userId) == [c] + rest;
        assert ([c] + rest)[1..] == rest;
      } else {
        assert WithoutUser(items, userId) == rest;
      }
    }
  }

  /** `getCart`: the caller's lines. */
  method GetCart(db: Db, email: string) returns (r: Result<seq<CartItem>>)
    ensures UserByEmail(db.users, email).None? ==> r == Failure(NoValuePresent)
    ensures UserByEmail(db.users, email).Some? ==>
      r == Success(CartOf(db.cartItems, db.users[UserByEmail(db.users, email).value].id))
  {
    var ui := UserByEmail(db.users, email);
    if ui.None? {
      return Failure(NoValuePresent);
    }
    var user := db.users[ui.value];
    return Success(CartOf(db.cartItems, user.id));
  }

  /** The key counter after adding: it advances only when a line is created. */
  function NextAfterAdd(items: seq<CartItem>, userId: int, productId: int, nextId: int): int {
    if LineOf(items, userId, productId).Some? then nextId else nextId + 1
  }

  lemma AddLineValid(items: seq<CartItem>, users: seq<User>, products: seq<ProductRow>, nextId: int,
                     userId: int, productId: int, q: int)
    requires CartValid(items, users, products, nextId)
    requires HasKey(users, UserKey, userId) && HasKey(products, ProductKey, productId)
    ensures CartValid(AddLine(items, userId, productId, q, nextId), users, products,
                      NextAfterAdd(items, userId, productId, nextId))
  {
    AddLineKeepsUnique(items, userId, productId, q, nextId);
    var r := AddLine(items, userId, productId, q, nextId);
    match LineOf(items, userId, productId)
    case Some(i) =>
      ReplaceKeysAscend(items, CartItemKey, nextId, i, r[i]);
    case None =>
      AppendKeysAscend(items, CartItemKey, nextId, r[|items|]);
  }

  /** `addToCart`: find or start the line for the product, add the quantity
      to it and save it. An unknown user or product fails first. */
  method AddToCart(db: Db, email: string, productId: int, quantity: int) returns (r: Result<CartItem>)
    requires db.Valid()
    modifies db
    ensures db.Valid()
    ensures db.users == old(db.users) && db.products == old(db.products) && db.orders == old(db.orders)
    ensures UserByEmail(db.users, email).None? ==> r == Failure(NoValuePresent) && unchanged(db)
    ensures UserByEmail(db.users, email).Some? && ProductById(db.products, productId).None? ==>
      r == Failure(NoValuePresent) && unchanged(db)
    ensures UserByEmail(db.users, email).Some? && ProductById(db.products, productId).Some? ==>
      var userId := db.users[UserByEmail(db.users, email).value].id;
      r.Success? && r.value.userId == userId && r.value.productId == productId &&
      r.value.quantity == Numbers.ToInt32(QuantityIn(old(db.cartItems), userId, productId) + quantity) &&
      db.cartItems == AddLine(old(db.cartItems), userId, productId, quantity, old(db.nextCartItemId)) &&
      db.nextCartItemId == NextAfterAdd(old(db.cartItems), userId, productId, old(db.nextCartItemId))
    ensures CountersKeptBut(db, {CartItemKeys})
  {
    var ui := UserByEmail(db.users, email);
    if ui.None? {
      return Failure(NoValuePresent);
    }
    var user := db.users[ui.value];
    if ProductById(db.products, productId).None? {
      return Failure(NoValuePresent);
    }
    RowHasKey(db.users, UserKey, ui.value);
    RowHasKey(db.products, ProductKey, ProductById(db.products, productId).value);
    var item := MergeLine(db, user.id, productId, quantity);
    return Success(item);
  }

  /** The find-or-create and save steps of `addToCart` for a known user and product. */
  method MergeLine(db: Db, userId: int, productId: int, quantity: int) returns (item: CartItem)
    requires db.Valid()
    requires HasKey(db.users, UserKey, userId) && HasKey(db.products, ProductKey, productId)
    modifies db
    ensures db.Valid()
    ensures db.users == old(db.users) && db.products == old(db.products) && db.orders == old(db.orders)
    ensures item.userId == userId && item.productId == productId
    ensures item.quantity == Numbers.ToInt32(QuantityIn(old(db.cartItems), userId, productId) + quantity)
    ensures db.cartItems == AddLine(old(db.cartItems), userId, productId, quantity, old(db.nextCartItemId))
    ensures db.nextCartItemId == NextAfterAdd(old(db.cartItems), userId, productId, old(db.nextCartItemId))
    ensures CountersKeptBut(db, {CartItemKeys})
  {
    var li := LineOf(db.cartItems, userId, productId);
    if li.Some? {
      item := db.cartItems[li.value];
    } else {
      item := CartItem(0, userId, productId, 0);
    }
    item := item.(quantity := Numbers.ToInt32(item.quantity + quantity));
    AddLineValid(db.cartItems, db.users, db.products, db.nextCartItemId, userId, productId, quantity);
    if li.Some? {
      db.cartItems := db.cartItems[li.value := item];
    } else {
      item := item.(id := db.nextCartItemId);
      db.cartItems := db.cartItems + [item];
      db.nextCartItemId := db.nextCartItemId + 1;
    }
  }

  /** `removeFromCart`: deletes the line for the product if there is one. */
  method RemoveFromCart(db: Db, email: string, productId: int) returns (r: Result<()>)
    requires db.Valid()
    modifies db
    ensures db.Valid()
    ensures db.users == old(db.users) && db.products == old(db.products) && db.orders == old(db.orders)
    ensures CountersKept(db)
    ensures UserByEmail(db.users, email).None? ==> r == Failure(NoValuePresent) && unchanged(db)
    ensures UserByEmail(db.users, email).Some? ==>
      r == Success(()) &&
      db.cartItems == RemoveLine(old(db.cartItems), db.users[UserByEmail(db.users, email).value].id, productId)
  {
    var ui := UserByEmail(db.users, email);
    if ui.None? {
      return Failure(NoValuePresent);
    }
    var user := db.users[ui.value];
    var li := LineOf(db.cartItems, user.id, productId);
    if li.Some? {
      RemoveKeysAscend(db.cartItems, CartItemKey, db.nextCartItemId, li.value);
      db.cartItems := db.cartItems[..li.value] + db.cartItems[li.value + 1..];
    }
    return Success(());
  }

  /** `clearCart`: deletes all of the user's lines. */
  method ClearCart(db: Db, email: string) returns (r: Result<()>)
    requires db.Valid()
    modifies db
    ensures db.Valid()
    ensures db.users == old(db.users) && db.products == old(db.products) && db.orders == old(db.orders)
    ensures CountersKept(db)
    ensures UserByEmail(db.users, email).None? ==> r == Failure(NoValuePresent) && unchanged(db)
    ensures UserByEmail(db.users, email).Some? ==>
      r == Success(()) &&
      db.cartItems == WithoutUser(old(db.cartItems), db.users[UserByEmail(db.users, email).value].id)
  {
    var ui := UserByEmail(db.users, email);
    if ui.None? {
      return Failure(NoValuePresent);
    }
    DeleteByUser(db, db.users[ui.value].id);
    return Success(());
  }

  /** `deleteByUser` on the cart table. */
  method DeleteByUser(db: Db, userId: int)
    requires db.Valid()
    modifies db
    ensures db.Valid()
    ensures db.users == old(db.users) && db.products == old(db.products) && db.orders == old(db.orders)
    ensures CountersKept(db)
    ensures db.cartItems == WithoutUser(old(db.cartItems), userId)
  {
    var p := (c: CartItem) => c.userId != userId;
    FilterKeysAscend(db.cartItems, CartItemKey, db.nextCartItemId, p);
    FilterKeepsUnique(db.cartItems, p);
    db.cartItems := WithoutUser(db.cartItems, userId);
  }

  lemma {:induction false} FilterKeepsUnique(items: seq<CartItem>, p: CartItem -> bool)
    requires LinesUnique(items)
    ensures LinesUnique(Filter(items, p))
  {
    if items != [] {
      FilterKeepsUnique(items[1..], p);
      var r := Filter(items, p);
      var t := Filter(items[1..], p);
      if p(items[0]) {
        assert r == [items[0]] + t;
        forall j | 0 < j < |r| ensures !(r[0].userId == r[j].userId && r[0].productId == r[j].productId) {
          assert r[j] in items[1..];
        }
      }
    }
  }
}
