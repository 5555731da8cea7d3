/** The start-up loader: an administrator account and a starter catalogue,
    each only when its table is empty. */
module DataLoader {
  import opened Wrappers
  import opened Tables
  import opened Entities
  import opened Store
  import ProductService

  const AdminEmail := "admin@elect.com"
  const AdminPassword := "admin@123"

  /** The seeded administrator, before it is given its key. */
  function AdminAccount(encode: string -> string): User {
    User(0, Some("Admin"), AdminEmail, Some(encode(AdminPassword)), Some("ROLE_ADMIN"))
  }

  /** One product of the starter catalogue. */
  datatype Seed = Seed(name: string, description: string, price: real, imageUrl: string, stock: int)

  function Photo(id: string): string {
    "https://images.unsplash.com/photo-" + id + "?w=800&h=600&fit=crop"
  }

  const Catalogue: seq<Seed> := [
    Seed("Smartphone X", "Flagship smartphone with OLED display, 128GB storage, and triple camera system. Perfect for photography enthusiasts and power users.",
         699.99, Photo("1511707171634-5f897ff02aa9"), 50),
    Seed("Laptop Pro", "Powerful laptop for professionals with Intel i7 processor, 16GB RAM, and 512GB SSD. Ideal for designers and developers.",
         1299.00, Photo("1496181133206-80ce9b88a853"), 25),
    Seed("Wireless Headphones", "Premium noise-cancelling over-ear headphones with 30-hour battery life and Bluetooth 5.0 connectivity.",
         199.99, Photo("1505740420928-5e560c06d30e"), 100),
    Seed("Smart Watch", "Feature-rich smartwatch with fitness tracking, heart rate monitor, and waterproof design.",
         249.99, Photo("1523275335684-37898b6baf30"), 75),
    Seed("Tablet Pro", "10-inch tablet with high-resolution display, perfect for reading, gaming, and productivity.",
         399.99, Photo("1544244015-0df4b3ffc6b0"), 40),
    Seed("Wireless Speaker", "Portable Bluetooth speaker with 360-degree sound and 20-hour battery life.",
         129.99, Photo("1608043152269-423dbba4e7e1"), 60)
  ]

  /** The row a seed is saved as. */
  function SeedRow(id: int, s: Seed, now: int): ProductRow {
    ProductRow(id, Some(s.name), Some(s.description), Some(s.price), Some(s.imageUrl), Some(s.stock), Some(now))
  }

  /** Every seeded product is priced above zero, has stock and meets the
      constraints Product declares. */
  lemma CatalogueMeetsConstraints(id: int, now: int)
    ensures |Catalogue| == 6
    ensures forall i :: 0 <= i < |Catalogue| ==>
      Catalogue[i].price > 0.0 && Catalogue[i].stock >= 0 && RowMeetsConstraints(SeedRow(id, Catalogue[i], now))
  {
    forall i | 0 <= i < |Catalogue| ensures RowMeetsConstraints(SeedRow(id, Catalogue[i], now)) {
      assert Catalogue[i].name[0] > ' ';
    }
  }

  /** The user table after loading. */
  function SeededUsers(users: seq<User>, next: int, encode: string -> string): seq<User> {
    if |users| == 0 then [AdminAccount(encode).(id := next)] else users
  }

  /** The product table after loading: the six seeds under consecutive keys. */
  function SeededProducts(products: seq<ProductRow>, next: int, now: int): seq<ProductRow> {
    if |products| == 0 then
      [SeedRow(next, Catalogue[0], now), SeedRow(next + 1, Catalogue[1], now),
       SeedRow(next + 2, Catalogue[2], now), SeedRow(next + 3, Catalogue[3], now),
       SeedRow(next + 4, Catalogue[4], now), SeedRow(next + 5, Catalogue[5], now)]
    else products
  }

  /** Loading twice is loading once: the second run finds both tables
      filled and adds nothing, whatever its counters, clock and encoder. */
  lemma LoadingIdempotent(users: seq<User>, products: seq<ProductRow>, nu: int, np: int, nu2: int, np2: int,
                          now: int, now2: int, encode: string -> string, encode2: string -> string)
    ensures SeededUsers(SeededUsers(users, nu, encode), nu2, encode2) == SeededUsers(users, nu, encode)
    ensures SeededProducts(SeededProducts(products, np, now), np2, now2) == SeededProducts(products, np, now)
    ensures |SeededUsers(users, nu, encode)| > 0 && |SeededProducts(products, np, now)| > 0
  {
  }

  /** A seeded administrator exists after loading an empty user table, and
      a non-empty table is left as it was. */
  lemma SeededAdmin(users: seq<User>, next: int, encode: string -> string)
    ensures |users| == 0 ==>
      SeededUsers(users, next, encode) == [User(next, Some("Admin"), AdminEmail, Some(encode(AdminPassword)), Some("ROLE_ADMIN"))]
    ensures |users| > 0 ==> SeededUsers(users, next, encode) == users
  {
  }

  /** One `new Product()`, its setters and `save`. */
  method SaveSeed(db: Db, s: Seed, now: int)
    requires db.Valid() && RowMeetsConstraints(SeedRow(0, s, now))
    modifies db
    ensures db.Valid()
    ensures db.products == old(db.products) + [SeedRow(old(db.nextProductId), s, now)]
    ensures db.nextProductId == old(db.nextProductId) + 1
    ensures db.users == old(db.users) && db.cartItems == old(db.cartItems) && db.orders == old(db.orders)
    ensures db.nextUserId == old(db.nextUserId) && db.nextCartItemId == old(db.nextCartItemId)
    ensures db.nextOrderId == old(db.nextOrderId)
  {
    var p := new Product(now);
    p.SetName(Some(s.name));
    p.SetDescription(Some(s.description));
    p.SetPrice(Some(s.price));
    p.SetImageUrl(Some(s.imageUrl));
    p.SetStock(Some(s.stock));
    p.SetId(Some(db.nextProductId));
    ProductService.InsertProduct(db, p.Row());
  }

  /** The loader's `run`. `encode` is the password encoder, `now` the clock. */
  method Init(db: Db, encode: string -> string, now: int)
    requires db.Valid()
    modifies db
    ensures db.Valid()
    ensures db.users == SeededUsers(old(db.users), old(db.nextUserId), encode)
    ensures db.products == SeededProducts(old(db.products), old(db.nextProductId), now)
    ensures db.cartItems == old(db.cartItems) && db.orders == old(db.orders)
    ensures db.nextUserId == old(db.nextUserId) + (if |old(db.users)| == 0 then 1 else 0)
    ensures db.nextProductId == old(db.nextProductId) + (if |old(db.products)| == 0 then |Catalogue| else 0)
    ensures CountersKeptBut(db, {UserKeys, ProductKeys})
  {
    if |db.users| == 0 {
      var admin := SaveNewUser(db, AdminAccount(encode));
    }
    if |db.products| == 0 {
      SeedCatalogue(db, now);
    }
  }

  /** The six product saves. */
  method SeedCatalogue(db: Db, now: int)
    requires db.Valid()
    modifies db
    ensures db.Valid()
    ensures db.products == old(db.products) + SeededProducts([], old(db.nextProductId), now)
    ensures db.users == old(db.users) && db.cartItems == old(db.cartItems) && db.orders == old(db.orders)
    ensures db.nextProductId == old(db.nextProductId) + |Catalogue|
    ensures CountersKeptBut(db, {ProductKeys})
  {
    CatalogueMeetsConstraints(0, now);
    SaveSeed(db, Catalogue[0], now);
    SaveSeed(db, Catalogue[1], now);
    SaveSeed(db, Catalogue[2], now);
    SaveSeed(db, Catalogue[3], now);
    SaveSeed(db, Catalogue[4], now);
    SaveSeed(db, Catalogue[5], now);
  }
}
