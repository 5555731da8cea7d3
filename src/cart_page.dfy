/** The cart page: line values, the order summary, and removal by product. */
module CartPage {
  import opened Wrappers
  import opened Tables
  import opened Client
  import Numbers

  const NullProduct := "Cannot read properties of null (reading 'price')"

  /** A line's price times its quantity, where a missing product, a null
      price and a null quantity all contribute 0. */
  function LineValue(ci: CartLine): (v: real)
    ensures ci.product.Some? && ci.quantity.Some? ==> v == Price(ci.product.value) * ci.quantity.value as real
    ensures ci.product.None? || ci.quantity.None? ==> v == 0.0
  {
    if ci.product.Some? then Price(ci.product.value) * ci.quantity.GetOr(0) as real else 0.0
  }

  predicate AllHaveProducts(items: seq<CartLine>) {
    forall i :: 0 <= i < |items| ==> items[i].product.Some?
  }

  /** The sum of the line values, which throws on a line without a product. */
  function Subtotal(items: seq<CartLine>): (r: Result<real>)
    ensures r.Success? <==> AllHaveProducts(items)
    ensures r.Success? ==> r.value == SumOf(items, LineValue)
    ensures r.Failure? ==> r.error == NullProduct
  {
    if AllHaveProducts(items) then Success(SumOf(items, LineValue)) else Failure(NullProduct)
  }

  /** The 18% tax line. */
  function Tax(subtotal: real): real {
    subtotal * 0.18
  }

  datatype View = EmptyCart | Summary(subtotal: real, tax: real, total: real)

  /** What the page shows: the empty state for no lines, otherwise the
      summary with 18% tax and the subtotal grossed up by 18% as the total. */
  function ViewOf(items: seq<CartLine>): (r: Result<View>)
    ensures items == [] ==> r == Success(EmptyCart)
    ensures items != [] && r.Success? ==> r.value.Summary?
    ensures r.Success? && r.value.Summary? ==>
      r.value.tax == Tax(r.value.subtotal) && r.value.total == r.value.subtotal + r.value.tax
  {
    if items == [] then Success(EmptyCart)
    else match Subtotal(items)
      case Success(s) => Success(Summary(s, Tax(s), s * 1.18))
      case Failure(e) => Failure(e)
  }

  /** Quantities and prices that are not negative give a summary that is
      not negative. */
  lemma {:induction false} SubtotalNonNegative(items: seq<CartLine>)
    requires forall i :: 0 <= i < |items| ==> LineValue(items[i]) >= 0.0
    ensures SumOf(items, LineValue) >= 0.0
  {
    if items != [] {
      SubtotalNonNegative(items[..|items| - 1]);
    }
  }

  const RemovePrefix := "/api/cart/remove/"

  /** The remove button sends the line's product id, the key the backend's
      `removeFromCart` looks lines up by, not the line's own id: the path
      variable parses back to exactly that product id. */
  function RemovePath(ci: CartLine): (path: string)
    requires ci.product.Some?
    ensures |path| > |RemovePrefix| && path[..|RemovePrefix|] == RemovePrefix
    ensures Numbers.MinLong <= ci.product.value.id <= Numbers.MaxLong ==>
      Numbers.ParseLong(path[|RemovePrefix|..]) == Some(ci.product.value.id)
  {
    var id := ci.product.value.id;
    var path := RemovePrefix + Numbers.ShowInt(id);
    assert path[|RemovePrefix|..] == Numbers.ShowInt(id);
    IdRoundTrip(id);
    path
  }

  lemma IdRoundTrip(id: int)
    ensures Numbers.MinLong <= id <= Numbers.MaxLong ==> Numbers.ParseLong(Numbers.ShowInt(id)) == Some(id)
  {
    if Numbers.MinLong <= id <= Numbers.MaxLong {
      Numbers.ParseLongShowInt(id);
    }
  }
}
