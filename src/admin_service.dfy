/** The administrator's edits: user roles, order statuses and products. */
module AdminService {
  import opened Wrappers
  import opened Tables
  import opened Entities
  import opened Store
  import OrderService
  import ProductService

  const UserNotFound := "User not found"
  const OrderNotFound := "Order not found"
  const ProductNotFound := "Product not found"

  /** `updateUserRole`: the role is stored as given, null included. */
  method UpdateUserRole(db: Db, userId: int, role: Option<string>) returns (r: Result<User>)
    requires db.Valid()
    modifies db
    ensures db.Valid()
    ensures db.products == old(db.products) && db.cartItems == old(db.cartItems) && db.orders == old(db.orders)
    ensures UserById(old(db.users), userId).None? ==> r == Failure(UserNotFound) && unchanged(db)
    ensures UserById(old(db.users), userId).Some? ==>
      var i := UserById(old(db.users), userId).value;
      r == Success(old(db.users[i]).(role := role)) && db.users == old(db.users)[i := r.value]
    ensures CountersKept(db)
  {
    var k := UserById(db.users, userId);
    if k.None? {
      return Failure(UserNotFound);
    }
    var user := db.users[k.value].(role := role);
    ReplaceKeysAscend(db.users, UserKey, db.nextUserId, k.value, user);
    KeysAfterReplace(db.users, UserKey, k.value, user);
    db.users := db.users[k.value := user];
    return Success(user);
  }

  /** `updateOrderStatus`: the status is stored as given, null included. */
  method UpdateOrderStatus(db: Db, orderId: int, status: Option<string>) returns (r: Result<Order>)
    requires db.Valid()
    modifies db
    ensures db.Valid()
    ensures db.users == old(db.users) && db.products == old(db.products) && db.cartItems == old(db.cartItems)
    ensures OrderById(old(db.orders), orderId).None? ==> r == Failure(OrderNotFound) && unchanged(db)
    ensures OrderById(old(db.orders), orderId).Some? ==>
      var i := OrderById(old(db.orders), orderId).value;
      r == Success(old(db.orders[i]).(status := status)) && db.orders == old(db.orders)[i := r.value]
    ensures CountersKept(db)
  {
    var k := OrderById(db.orders, orderId);
    if k.None? {
      return Failure(OrderNotFound);
    }
    var order := db.orders[k.value].(status := status);
    RowHasKey(db.orders, OrderKey, k.value);
    var saved := OrderService.SaveOrder(db, order);
    return Success(saved);
  }

  /** `createProduct`. */
  method CreateProduct(db: Db, f: ProductFields, now: int) returns (r: Result<ProductRow>)
    requires db.Valid()
    modifies db
    ensures db.Valid()
    ensures db.users == old(db.users) && db.cartItems == old(db.cartItems) && db.orders == old(db.orders)
    ensures !ProductConstraints(f.name, f.price, f.stock) ==> r == Failure(ProductService.ValidationFailed) && unchanged(db)
    ensures ProductConstraints(f.name, f.price, f.stock) && !FitsColumns(f.description) ==>
      r == Failure(ProductService.ValueTooLong) && unchanged(db)
    ensures ProductConstraints(f.name, f.price, f.stock) && FitsColumns(f.description) ==>
      r == Success(ProductService.NewRow(old(db.nextProductId), f, now)) &&
      db.products == old(db.products) + [r.value] && db.nextProductId == old(db.nextProductId) + 1
    ensures CountersKeptBut(db, {ProductKeys})
  {
    r := ProductService.Create(db, f, now);
  }

  /** `updateProduct`: like the catalogue's update, with its own error. */
  method UpdateProduct(db: Db, productId: int, f: ProductFields) returns (r: Result<ProductRow>)
    requires db.Valid()
    modifies db
    ensures db.Valid()
    ensures db.users == old(db.users) && db.cartItems == old(db.cartItems) && db.orders == old(db.orders)
    ensures ProductById(old(db.products), productId).None? ==> r == Failure(ProductNotFound) && unchanged(db)
    ensures ProductById(old(db.products), productId).Some? ==>
      var i := ProductById(old(db.products), productId).value;
      (!ProductConstraints(f.name, f.price, f.stock) ==> r == Failure(ProductService.ValidationFailed) && unchanged(db)) &&
      (ProductConstraints(f.name, f.price, f.stock) && !FitsColumns(f.description) ==>
        r == Failure(ProductService.ValueTooLong) && unchanged(db)) &&
      (ProductConstraints(f.name, f.price, f.stock) && FitsColumns(f.description) ==>
        r == Success(EditedRow(old(db.products[i]), f)) && db.products == old(db.products)[i := r.value] &&
        r.value.id == productId && r.value.createdAt == old(db.products[i]).createdAt)
    ensures CountersKept(db)
  {
    var k := ProductById(db.products, productId);
    if k.None? {
      return Failure(ProductNotFound);
    }
    r := ProductService.EditAt(db, k.value, f);
  }

  /** `deleteProduct`: checks existence first, unlike the catalogue's delete. */
  method DeleteProduct(db: Db, productId: int) returns (r: Result<()>)
    requires db.Valid()
    modifies db
    ensures db.Valid()
    ensures db.users == old(db.users) && db.cartItems == old(db.cartItems) && db.orders == old(db.orders)
    ensures !HasKey(old(db.products), ProductKey, productId) ==> r == Failure(ProductNotFound) && unchanged(db)
    ensures HasKey(old(db.products), ProductKey, productId) && ProductService.InUse(db.cartItems, db.orders, productId) ==>
      r == Failure(ProductService.StillReferenced) && unchanged(db)
    ensures HasKey(old(db.products), ProductKey, productId) && !ProductService.InUse(db.cartItems, db.orders, productId) ==>
      var i := ProductById(old(db.products), productId).value;
      r == Success(()) && db.products == old(db.products)[..i] + old(db.products)[i + 1..] &&
      !HasKey(db.products, ProductKey, productId) &&
      (forall p :: p in old(db.products) && p.id != productId ==> p in db.products)
    ensures CountersKept(db)
  {
    HasKeyIff(db.products, ProductKey, productId);
    if !HasKey(db.products, ProductKey, productId) {
      return Failure(ProductNotFound);
    }
    ghost var before := db.products;
    ghost var i := ProductById(db.products, productId).value;
    RemoveAt(before, ProductKey, db.nextProductId, i);
    r := ProductService.Delete(db, productId);
    if r.Success? {
      forall p | p in before && p.id != productId ensures p in db.products {
        var j :| 0 <= j < |before| && before[j] == p;
      }
    }
  }
}
