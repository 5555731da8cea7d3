/** `/api/admin`: the administrator's endpoints, all behind the ADMIN role. */
module AdminController {
  import opened Wrappers
  import opened Tables
  import opened Entities
  import opened Store
  import opened Http
  import Analytics
  import AdminService
  import ProductService

  /** The ADMIN authority check on the caller's role. */
  predicate IsAdmin(callerRole: Option<string>) { callerRole == Some("ROLE_ADMIN") }

  /** A body field: None when the key is absent or its value is null. */
  function Lookup(body: map<string, Option<string>>, key: string): Option<string> {
    if key in body then body[key] else None
  }

  /** The requested role, ROLE_USER by default; the default applies only when
      the key is absent; an explicit null is passed on. */
  function RoleOf(body: map<string, Option<string>>): (role: Option<string>)
    ensures "role" !in body ==> role == Some("ROLE_USER")
    ensures "role" in body ==> role == body["role"]
  {
    if "role" in body then body["role"] else Some("ROLE_USER")
  }

  /** The service's failure as the controller lets it escape: a 500 with
      the exception's message. */
  function Escaped<T>(r: Result<T>): (reply: Reply<T>)
    ensures r.Success? <==> reply.Ok?
    ensures r.Success? ==> reply == Ok(r.value)
    ensures r.Failure? ==> reply == ServerError(r.error)
  {
    match r
    case Success(v) => Ok(v)
    case Failure(e) => ServerError(e)
  }

  /** `getAnalytics`. */
  method GetAnalytics(db: Db, callerRole: Option<string>, today: int, dateOf: int -> int)
    returns (r: Reply<Analytics.Report>)
    ensures !IsAdmin(callerRole) ==> r == Forbidden
    ensures IsAdmin(callerRole) && !Analytics.AllHaveStatus(db.orders) ==> r == ServerError(Analytics.NullKey)
    ensures IsAdmin(callerRole) && Analytics.AllHaveStatus(db.orders) ==> r.Ok?
    ensures r.Ok? ==>
      IsAdmin(callerRole) &&
      r.value.totalUsers == |db.users| && r.value.totalProducts == |db.products| &&
      r.value.totalOrders == |db.orders| && r.value.totalRevenue == Analytics.Revenue(db.orders) &&
      r.value.pendingOrders == CountOf(db.orders, Analytics.IsPending) &&
      r.value.completedOrders == CountOf(db.orders, Analytics.IsCompleted) &&
      r.value.statusDistribution == Analytics.StatusDistribution(db.orders) &&
      r.value.paymentDistribution == Analytics.PaymentDistribution(db.orders) &&
      r.value.topSelling == Analytics.TopSelling(Analytics.AllItems(db.orders), db.products)
  {
    if !IsAdmin(callerRole) {
      return Forbidden;
    }
    var a := Analytics.GetAnalytics(db, today, dateOf);
    return Escaped(a);
  }

  /** `getAllUsers`, `getAllOrders` and `getAllProducts`. */
  method GetAll(db: Db, callerRole: Option<string>) returns (r: Reply<(seq<User>, seq<Order>, seq<ProductRow>)>)
    ensures !IsAdmin(callerRole) ==> r == Forbidden
    ensures IsAdmin(callerRole) ==> r == Ok((db.users, db.orders, db.products))
  {
    if !IsAdmin(callerRole) {
      return Forbidden;
    }
    return Ok((db.users, db.orders, db.products));
  }

  /** `updateUserRole`. */
  method UpdateUserRole(db: Db, callerRole: Option<string>, id: int, body: map<string, Option<string>>)
    returns (r: Reply<User>)
    requires db.Valid()
    modifies db
    ensures db.Valid()
    ensures !IsAdmin(callerRole) ==> r == Forbidden && unchanged(db)
    ensures IsAdmin(callerRole) && UserById(old(db.users), id).None? ==>
      r == ServerError(AdminService.UserNotFound) && unchanged(db)
    ensures IsAdmin(callerRole) && UserById(old(db.users), id).Some? ==>
      var i := UserById(old(db.users), id).value;
      r == Ok(old(db.users[i]).(role := RoleOf(body))) && db.users == old(db.users)[i := r.value]
    ensures db.products == old(db.products) && db.cartItems == old(db.cartItems) && db.orders == old(db.orders)
    ensures CountersKept(db)
  {
    if !IsAdmin(callerRole) {
      return Forbidden;
    }
    var u := AdminService.UpdateUserRole(db, id, RoleOf(body));
    return Escaped(u);
  }

  /** `updateOrderStatus`: the body's "status" goes through unchecked, null
      or any text. */
  method UpdateOrderStatus(db: Db, callerRole: Option<string>, id: int, body: map<string, Option<string>>)
    returns (r: Reply<Order>)
    requires db.Valid()
    modifies db
    ensures db.Valid()
    ensures !IsAdmin(callerRole) ==> r == Forbidden && unchanged(db)
    ensures IsAdmin(callerRole) && OrderById(old(db.orders), id).None? ==>
      r == ServerError(AdminService.OrderNotFound) && unchanged(db)
    ensures IsAdmin(callerRole) && OrderById(old(db.orders), id).Some? ==>
      var i := OrderById(old(db.orders), id).value;
      r == Ok(old(db.orders[i]).(status := Lookup(body, "status"))) && db.orders == old(db.orders)[i := r.value]
    ensures db.users == old(db.users) && db.products == old(db.products) && db.cartItems == old(db.cartItems)
    ensures CountersKept(db)
  {
    if !IsAdmin(callerRole) {
      return Forbidden;
    }
    var o := AdminService.UpdateOrderStatus(db, id, Lookup(body, "status"));
    return Escaped(o);
  }

  /** `createProduct`. */
  method CreateProduct(db: Db, callerRole: Option<string>, f: ProductFields, now: int) returns (r: Reply<ProductRow>)
    requires db.Valid()
    modifies db
    ensures db.Valid()
    ensures !IsAdmin(callerRole) ==> r == Forbidden && unchanged(db)
    ensures IsAdmin(callerRole) && !ProductConstraints(f.name, f.price, f.stock) ==>
      r == ServerError(ProductService.ValidationFailed) && unchanged(db)
    ensures IsAdmin(callerRole) && ProductConstraints(f.name, f.price, f.stock) && !FitsColumns(f.description) ==>
      r == ServerError(ProductService.ValueTooLong) && unchanged(db)
    ensures IsAdmin(callerRole) && ProductConstraints(f.name, f.price, f.stock) && FitsColumns(f.description) ==>
      r == Ok(ProductService.NewRow(old(db.nextProductId), f, now)) && db.products == old(db.products) + [r.value] &&
      db.nextProductId == old(db.nextProductId) + 1
    ensures r.Ok? ==> RowMeetsConstraints(r.value)
    ensures db.users == old(db.users) && db.cartItems == old(db.cartItems) && db.orders == old(db.orders)
    ensures CountersKeptBut(db, {ProductKeys})
  {
    if !IsAdmin(callerRole) {
      return Forbidden;
    }
    var p := AdminService.CreateProduct(db, f, now);
    return Escaped(p);
  }

  /** `updateProduct`. */
  method UpdateProduct(db: Db, callerRole: Option<string>, id: int, f: ProductFields) returns (r: Reply<ProductRow>)
    requires db.Valid()
    modifies db
    ensures db.Valid()
    ensures !IsAdmin(callerRole) ==> r == Forbidden && unchanged(db)
    ensures IsAdmin(callerRole) && !HasKey(old(db.products), ProductKey, id) ==>
      r == ServerError(AdminService.ProductNotFound) && unchanged(db)
    ensures IsAdmin(callerRole) && HasKey(old(db.products), ProductKey, id) &&
            !ProductConstraints(f.name, f.price, f.stock) ==>
      r == ServerError(ProductService.ValidationFailed) && unchanged(db)
    ensures IsAdmin(callerRole) && HasKey(old(db.products), ProductKey, id) &&
            ProductConstraints(f.name, f.price, f.stock) && !FitsColumns(f.description) ==>
      r == ServerError(ProductService.ValueTooLong) && unchanged(db)
    ensures IsAdmin(callerRole) && HasKey(old(db.products), ProductKey, id) &&
            ProductConstraints(f.name, f.price, f.stock) && FitsColumns(f.description) ==>
      var i := ProductById(old(db.products), id).value;
      r == Ok(EditedRow(old(db.products[i]), f)) && db.products == old(db.products)[i := r.value]
    ensures r.Ok? ==>
      IsAdmin(callerRole) && ProductById(old(db.products), id).Some? &&
      var i := ProductById(old(db.products), id).value;
      r.value == EditedRow(old(db.products[i]), f) && r.value.id == id &&
      db.products == old(db.products)[i := r.value]
    ensures db.users == old(db.users) && db.cartItems == old(db.cartItems) && db.orders == old(db.orders)
    ensures CountersKept(db)
  {
    if !IsAdmin(callerRole) {
      return Forbidden;
    }
    HasKeyIff(db.products, ProductKey, id);
    var p := AdminService.UpdateProduct(db, id, f);
    return Escaped(p);
  }

  /** `deleteProduct`: 200 with no body, or 400 with the message of whatever
      the service threw. */
  method DeleteProduct(db: Db, callerRole: Option<string>, id: int) returns (r: Reply<()>)
    requires db.Valid()
    modifies db
    ensures db.Valid()
    ensures !IsAdmin(callerRole) ==> r == Forbidden && unchanged(db)
    ensures IsAdmin(callerRole) && !HasKey(old(db.products), ProductKey, id) ==>
      r == BadRequest(ErrorBody(AdminService.ProductNotFound)) && unchanged(db)
    ensures IsAdmin(callerRole) && HasKey(old(db.products), ProductKey, id) &&
            ProductService.InUse(old(db.cartItems), old(db.orders), id) ==>
      r == BadRequest(ErrorBody(ProductService.StillReferenced)) && unchanged(db)
    ensures IsAdmin(callerRole) && HasKey(old(db.products), ProductKey, id) &&
            !ProductService.InUse(old(db.cartItems), old(db.orders), id) ==>
      var i := ProductById(old(db.products), id).value;
      r == Ok(()) && db.products == old(db.products)[..i] + old(db.products)[i + 1..]
    ensures r.Ok? ==> IsAdmin(callerRole) && !HasKey(db.products, ProductKey, id)
    ensures r.BadRequest? ==> unchanged(db)
    ensures db.users == old(db.users) && db.cartItems == old(db.cartItems) && db.orders == old(db.orders)
    ensures CountersKept(db)
  {
    if !IsAdmin(callerRole) {
      return Forbidden;
    }
    var d := AdminService.DeleteProduct(db, id);
    match d
    case Success(_) => return Ok(());
    case Failure(e) => return BadRequest(ErrorBody(e));
  }
}
