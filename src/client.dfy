/** Values the browser receives from the backend's JSON: products, cart
    lines and orders, where most fields may be null, and the outcome of an
    HTTP request. */
module Client {
  import opened Wrappers
  import Numbers

  /** A product as `/api/products` serialises it. */
  datatype Product = Product(
    id: int,
    name: string,
    description: Option<string>,
    price: Option<real>,
    imageUrl: Option<string>,
    stock: Option<int>)

  /** `Number(p.price)`: a JSON number, and `Number(null)` is 0. */
  function Price(p: Product): real {
    p.price.GetOr(0.0)
  }

  function PriceNumber(p: Product): (r: Numbers.JsNumber)
    ensures r.Finite? && r.value == Price(p)
  {
    Numbers.Finite(Price(p))
  }

  /** `Number(p.stock)`, with `Number(null)` being 0. */
  function Stock(p: Product): int {
    p.stock.GetOr(0)
  }

  function HasId(id: int): Product -> bool {
    (p: Product) => p.id == id
  }

  function IdIsNot(id: int): Product -> bool {
    (p: Product) => p.id != id
  }

  /** A cart line of `/api/cart`. */
  datatype CartLine = CartLine(id: int, product: Option<Product>, quantity: Option<int>)

  /** An order line of `/api/orders`. */
  datatype OrderLine = OrderLine(product: Option<Product>, quantity: Option<int>, priceAtPurchase: Option<real>)

  /** An order of `/api/orders`. */
  datatype ClientOrder = ClientOrder(
    id: int,
    status: Option<string>,
    totalAmount: Option<real>,
    items: seq<OrderLine>)

  /** The outcome of an HTTP request: a body, an error status with the
      backend's `error` message if it sent one, or no response at all. */
  datatype Response<+T> =
    | Received(data: T)
    | Rejected(status: int, error: Option<string>)
    | Unreachable

  /** The backend's error message when it sent a non-empty one, else the fallback. */
  function ErrorText<T>(r: Response<T>, fallback: string): (t: string)
    ensures r.Rejected? && r.error.Some? && r.error.value != "" ==> t == r.error.value
    ensures !(r.Rejected? && r.error.Some? && r.error.value != "") ==> t == fallback
  {
    if r.Rejected? && r.error.Some? && r.error.value != "" then r.error.value else fallback
  }
}
