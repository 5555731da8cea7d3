/** The persistent records of the store. `Product` is the entity class with
    setters; the other records are rows as the repositories hold them. A null
    column is `None`. Instants are integers on the clock's scale. */
module Entities {
  import opened Wrappers

  datatype User = User(id: int, name: Option<string>, email: string,
                       passwordHash: Option<string>, role: Option<string>)

  /** The message of the IllegalArgumentException the password encoder throws
      when asked to encode or match a null raw password. */
  const RawPasswordNull := "rawPassword cannot be null"

  /** A stored product, as `Product` holds it once saved. */
  datatype ProductRow = ProductRow(id: int, name: Option<string>, description: Option<string>,
                                   price: Option<real>, imageUrl: Option<string>,
                                   stock: Option<int>, createdAt: Option<int>)

  /** The five fields a client may edit. */
  datatype ProductFields = ProductFields(name: Option<string>, description: Option<string>,
                                         price: Option<real>, imageUrl: Option<string>,
                                         stock: Option<int>)

  /** One cart line: a quantity of a product in a user's cart. */
  datatype CartItem = CartItem(id: int, userId: int, productId: int, quantity: int)

  datatype OrderItem = OrderItem(productId: int, quantity: int, priceAtPurchase: real)

  datatype Order = Order(id: int, userId: int, status: Option<string>, paymentMethod: string,
                         paymentStatus: string, totalAmount: real, items: seq<OrderItem>,
                         createdAt: int, razorpayOrderId: Option<string>,
                         razorpayPaymentId: Option<string>, razorpaySignature: Option<string>)

  function UserKey(u: User): int { u.id }
  function ProductKey(p: ProductRow): int { p.id }
  function CartItemKey(c: CartItem): int { c.id }
  function OrderKey(o: Order): int { o.id }

  /** Range of Java's int, the type of cart and order quantities and of stock. */
  predicate IsInt32(x: int) { -0x8000_0000 <= x < 0x8000_0000 }

  /** The bean-validation `@NotBlank`: present, and not empty once the
      characters up to ' ' are trimmed from both ends. */
  predicate NotBlank(s: Option<string>) {
    s.Some? && exists i :: 0 <= i < |s.value| && s.value[i] > ' '
  }

  /** The bean-validation `@Min(0)`: absent, or at least zero. */
  predicate MinZero(x: Option<real>) { x.None? || x.value >= 0.0 }
  predicate MinZeroInt(x: Option<int>) { x.None? || x.value >= 0 }

  /** The constraints Product declares on its fields: a non-blank name, and a
      price and a stock that are not negative. */
  predicate ProductConstraints(name: Option<string>, price: Option<real>, stock: Option<int>) {
    NotBlank(name) && MinZero(price) && MinZeroInt(stock)
  }

  /** `@Column(length = 2000)` on the description. */
  const DescriptionLength := 2000

  /** The column lengths the schema declares: a description of at most 2000
      characters. The database refuses a longer one when it is saved. */
  predicate FitsColumns(description: Option<string>) {
    description.None? || |description.value| <= DescriptionLength
  }

  /** What a stored product satisfies: the declared constraints, and values
      that fit their columns. */
  predicate RowMeetsConstraints(r: ProductRow) {
    ProductConstraints(r.name, r.price, r.stock) && FitsColumns(r.description)
  }

  /** The Product entity: mutable fields, one setter each. */
  class Product {
    var id: Option<int>
    var name: Option<string>
    var description: Option<string>
    var price: Option<real>
    var imageUrl: Option<string>
    var stock: Option<int>
    var createdAt: Option<int>

    /** A new product is empty but for its creation instant. */
    constructor(now: int)
      ensures id == None && name == None && description == None && price == None
      ensures imageUrl == None && stock == None && createdAt == Some(now)
    {
      id := None;
      name := None;
      description := None;
      price := None;
      imageUrl := None;
      stock := None;
      createdAt := Some(now);
    }

    /** An entity loaded from a stored row. */
    constructor Load(r: ProductRow)
      ensures Row() == r
    {
      id := Some(r.id);
      name := r.name;
      description := r.description;
      price := r.price;
      imageUrl := r.imageUrl;
      stock := r.stock;
      createdAt := r.createdAt;
    }

    /** The row this entity is stored as; an entity not yet saved has key 0. */
    function Row(): ProductRow
      reads this
    {
      ProductRow(id.GetOr(0), name, description, price, imageUrl, stock, createdAt)
    }

    predicate MeetsConstraints()
      reads this
    {
      ProductConstraints(name, price, stock)
    }

    method SetId(v: Option<int>)
      modifies this
      ensures id == v
      ensures name == old(name) && description == old(description) && price == old(price)
      ensures imageUrl == old(imageUrl) && stock == old(stock) && createdAt == old(createdAt)
    {
      id := v;
    }

    method SetName(v: Option<string>)
      modifies this
      ensures name == v
      ensures id == old(id) && description == old(description) && price == old(price)
      ensures imageUrl == old(imageUrl) && stock == old(stock) && createdAt == old(createdAt)
    {
      name := v;
    }

    method SetDescription(v: Option<string>)
      modifies this
      ensures description == v
      ensures id == old(id) && name == old(name) && price == old(price)
      ensures imageUrl == old(imageUrl) && stock == old(stock) && createdAt == old(createdAt)
    {
      description := v;
    }

    method SetPrice(v: Option<real>)
      modifies this
      ensures price == v
      ensures id == old(id) && name == old(name) && description == old(description)
      ensures imageUrl == old(imageUrl) && stock == old(stock) && createdAt == old(createdAt)
    {
      price := v;
    }

    method SetImageUrl(v: Option<string>)
      modifies this
      ensures imageUrl == v
      ensures id == old(id) && name == old(name) && description == old(description)
      ensures price == old(price) && stock == old(stock) && createdAt == old(createdAt)
    {
      imageUrl := v;
    }

    method SetStock(v: Option<int>)
      modifies this
      ensures stock == v
      ensures id == old(id) && name == old(name) && description == old(description)
      ensures price == old(price) && imageUrl == old(imageUrl) && createdAt == old(createdAt)
    {
      stock := v;
    }

    method SetCreatedAt(v: Option<int>)
      modifies this
      ensures createdAt == v
      ensures id == old(id) && name == old(name) && description == old(description)
      ensures price == old(price) && imageUrl == old(imageUrl) && stock == old(stock)
    {
      createdAt := v;
    }

    /** The five setter calls with which both update paths copy the edited
        fields from a request; key and creation instant stay. */
    method CopyEditable(f: ProductFields)
      modifies this
      ensures Row() == EditedRow(old(Row()), f)
    {
      SetName(f.name);
      SetDescription(f.description);
      SetPrice(f.price);
      SetImageUrl(f.imageUrl);
      SetStock(f.stock);
    }
  }

  /** A row with its five editable fields replaced by `f`. */
  function EditedRow(r: ProductRow, f: ProductFields): (e: ProductRow)
    ensures e.id == r.id && e.createdAt == r.createdAt
    ensures Fields(e) == f
  {
    r.(name := f.name, description := f.description, price := f.price,
       imageUrl := f.imageUrl, stock := f.stock)
  }

  function Fields(r: ProductRow): ProductFields {
    ProductFields(r.name, r.description, r.price, r.imageUrl, r.stock)
  }

  /** Editing is idempotent, and a later edit overrides an earlier one. */
  lemma EditedRowOverrides(r: ProductRow, f: ProductFields, g: ProductFields)
    ensures EditedRow(EditedRow(r, f), g) == EditedRow(r, g)
    ensures EditedRow(EditedRow(r, f), f) == EditedRow(r, f)
  {
  }

  /** Editing back to the old fields restores the row. */
  lemma EditedRowRestores(r: ProductRow, f: ProductFields)
    ensures EditedRow(EditedRow(r, f), Fields(r)) == r
  {
  }
}
