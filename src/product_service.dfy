/** The catalogue: listing, lookup, creation, editing and deletion of products. */
module ProductService {
  import opened Wrappers
  import opened Tables
  import opened Entities
  import opened Store

  /** The exception bean validation throws when a product breaks a declared constraint. */
  const ValidationFailed := "ConstraintViolationException"
  /** The exception the database throws when a deleted product is still referenced. */
  /** What the save throws when the database refuses a value longer than its
      column. */
  const ValueTooLong := "DataIntegrityViolationException"
  const StillReferenced := "DataIntegrityViolationException"

  /** The row a new product is saved as. */
  function NewRow(id: int, f: ProductFields, now: int): ProductRow {
    ProductRow(id, f.name, f.description, f.price, f.imageUrl, f.stock, Some(now))
  }

  /** A cart line or an order item still refers to the product. */
  predicate InUse(cartItems: seq<CartItem>, orders: seq<Order>, productId: int) {
    (exists i :: 0 <= i < |cartItems| && cartItems[i].productId == productId) ||
    (exists i, k :: 0 <= i < |orders| && 0 <= k < |orders[i].items| && orders[i].items[k].productId == productId)
  }

  /** `findAll`. */
  method FindAll(db: Db) returns (r: seq<ProductRow>)
    ensures r == db.products
  {
    return db.products;
  }

  /** `findById`: the product with that key, or the error of `orElseThrow()`. */
  method FindById(db: Db, id: int) returns (r: Result<ProductRow>)
    ensures r.Success? <==> HasKey(db.products, ProductKey, id)
    ensures r.Success? ==> r.value in db.products && r.value.id == id
    ensures r.Failure? ==> r.error == NoValuePresent
  {
    HasKeyIff(db.products, ProductKey, id);
    var k := ProductById(db.products, id);
    if k.None? {
      return Failure(NoValuePresent);
    }
    return Success(db.products[k.value]);
  }

  /** `create`: the request becomes a new Product (stamped with the current
      instant) and is saved, unless it breaks a declared constraint or its
      description is too long for its column. */
  method Create(db: Db, f: ProductFields, now: int) returns (r: Result<ProductRow>)
    requires db.Valid()
    modifies db
    ensures db.Valid()
    ensures db.users == old(db.users) && db.cartItems == old(db.cartItems) && db.orders == old(db.orders)
    ensures !ProductConstraints(f.name, f.price, f.stock) ==> r == Failure(ValidationFailed) && unchanged(db)
    ensures ProductConstraints(f.name, f.price, f.stock) && !FitsColumns(f.description) ==>
      r == Failure(ValueTooLong) && unchanged(db)
    ensures ProductConstraints(f.name, f.price, f.stock) && FitsColumns(f.description) ==>
      r == Success(NewRow(old(db.nextProductId), f, now)) &&
      db.products == old(db.products) + [r.value] && db.nextProductId == old(db.nextProductId) + 1
    ensures CountersKeptBut(db, {ProductKeys})
  {
    var p := new Product(now);
    p.CopyEditable(f);
    if !p.MeetsConstraints() {
      return Failure(ValidationFailed);
    }
    if !FitsColumns(p.description) {
      return Failure(ValueTooLong);
    }
    p.SetId(Some(db.nextProductId));
    var row := p.Row();
    InsertProduct(db, row);
    return Success(row);
  }

  method InsertProduct(db: Db, row: ProductRow)
    requires db.Valid() && row.id == db.nextProductId && RowMeetsConstraints(row)
    modifies db
    ensures db.Valid()
    ensures db.products == old(db.products) + [row] && db.nextProductId == old(db.nextProductId) + 1
    ensures db.users == old(db.users) && db.cartItems == old(db.cartItems) && db.orders == old(db.orders)
    ensures CountersKeptBut(db, {ProductKeys})
  {
    AppendKeysAscend(db.products, ProductKey, db.nextProductId, row);
    KeysAfterAppend(db.products, ProductKey, row);
    db.products := db.products + [row];
    db.nextProductId := db.nextProductId + 1;
    assert forall k :: HasKey(old(db.products), ProductKey, k) ==> HasKey(db.products, ProductKey, k);
  }

  /** The common tail of both update paths: load the entity at position `i`,
      copy the five editable fields into it and save it, unless the result
      breaks a declared constraint or its description is too long for its
      column. */
  method EditAt(db: Db, i: nat, f: ProductFields) returns (r: Result<ProductRow>)
    requires db.Valid() && i < |db.products|
    modifies db
    ensures db.Valid()
    ensures db.users == old(db.users) && db.cartItems == old(db.cartItems) && db.orders == old(db.orders)
    ensures CountersKept(db)
    ensures !ProductConstraints(f.name, f.price, f.stock) ==> r == Failure(ValidationFailed) && unchanged(db)
    ensures ProductConstraints(f.name, f.price, f.stock) && !FitsColumns(f.description) ==>
      r == Failure(ValueTooLong) && unchanged(db)
    ensures ProductConstraints(f.name, f.price, f.stock) && FitsColumns(f.description) ==>
      r == Success(EditedRow(old(db.products[i]), f)) && db.products == old(db.products)[i := r.value]
  {
    var p := new Product.Load(db.products[i]);
    p.CopyEditable(f);
    if !p.MeetsConstraints() {
      return Failure(ValidationFailed);
    }
    if !FitsColumns(p.description) {
      return Failure(ValueTooLong);
    }
    var row := p.Row();
    ReplaceKeysAscend(db.products, ProductKey, db.nextProductId, i, row);
    KeysAfterReplace(db.products, ProductKey, i, row);
    db.products := db.products[i := row];
    return Success(row);
  }

  /** `update`: a missing product fails before anything is saved. */
  method Update(db: Db, id: int, f: ProductFields) returns (r: Result<ProductRow>)
    requires db.Valid()
    modifies db
    ensures db.Valid()
    ensures db.users == old(db.users) && db.cartItems == old(db.cartItems) && db.orders == old(db.orders)
    ensures ProductById(old(db.products), id).None? ==> r == Failure(NoValuePresent) && unchanged(db)
    ensures ProductById(old(db.products), id).Some? ==>
      var i := ProductById(old(db.products), id).value;
      (!ProductConstraints(f.name, f.price, f.stock) ==> r == Failure(ValidationFailed) && unchanged(db)) &&
      (ProductConstraints(f.name, f.price, f.stock) && !FitsColumns(f.description) ==>
        r == Failure(ValueTooLong) && unchanged(db)) &&
      (ProductConstraints(f.name, f.price, f.stock) && FitsColumns(f.description) ==>
        r == Success(EditedRow(old(db.products[i]), f)) && db.products == old(db.products)[i := r.value])
    ensures CountersKept(db)
  {
    var k := ProductById(db.products, id);
    if k.None? {
      return Failure(NoValuePresent);
    }
    r := EditAt(db, k.value, f);
  }

  /** `deleteById`: a missing key is a silent no-op; a product still in a
      cart or an order is refused by the database. */
  method Delete(db: Db, id: int) returns (r: Result<()>)
    requires db.Valid()
    modifies db
    ensures db.Valid()
    ensures db.users == old(db.users) && db.cartItems == old(db.cartItems) && db.orders == old(db.orders)
    ensures ProductById(old(db.products), id).None? ==> r == Success(()) && unchanged(db)
    ensures ProductById(old(db.products), id).Some? && InUse(db.cartItems, db.orders, id) ==>
      r == Failure(StillReferenced) && unchanged(db)
    ensures ProductById(old(db.products), id).Some? && !InUse(db.cartItems, db.orders, id) ==>
      var i := ProductById(old(db.products), id).value;
      r == Success(()) && db.products == old(db.products)[..i] + old(db.products)[i + 1..]
    ensures CountersKept(db)
  {
    var k := ProductById(db.products, id);
    if k.None? {
      return Success(());
    }
    if InUse(db.cartItems, db.orders, id) {
      return Failure(StillReferenced);
    }
    RemoveUnused(db, k.value);
    return Success(());
  }

  method RemoveUnused(db: Db, i: nat)
    requires db.Valid() && i < |db.products| && !InUse(db.cartItems, db.orders, db.products[i].id)
    modifies db
    ensures db.Valid()
    ensures db.products == old(db.products)[..i] + old(db.products)[i + 1..]
    ensures db.users == old(db.users) && db.cartItems == old(db.cartItems) && db.orders == old(db.orders)
    ensures CountersKept(db)
  {
    var gone := db.products[i].id;
    var rest := db.products[..i] + db.products[i + 1..];
    RemoveKeysAscend(db.products, ProductKey, db.nextProductId, i);
    forall c | 0 <= c < |db.cartItems| ensures HasKey(rest, ProductKey, db.cartItems[c].productId) {
      RemoveKeepsOtherKeys(db.products, ProductKey, i, db.cartItems[c].productId);
    }
    forall o, k | 0 <= o < |db.orders| && 0 <= k < |db.orders[o].items|
      ensures HasKey(rest, ProductKey, db.orders[o].items[k].productId)
    {
      RemoveKeepsOtherKeys(db.products, ProductKey, i, db.orders[o].items[k].productId);
    }
    forall j | 0 <= j < |rest| ensures RowMeetsConstraints(rest[j]) {
      assert rest[j] in db.products;
    }
    db.products := rest;
  }
}
