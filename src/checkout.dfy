/** The checkout page: totals, the place-order button, the redirect for an
    empty cart, and the checks before the Razorpay widget opens. */
module Checkout {
  import opened Wrappers
  import opened Tables
  import opened Text
  import opened Client
  import Numbers
  import CartPage
  import PaymentController

  const Cod := "COD"
  const Razorpay := "RAZORPAY"
  const MissingOrderId := "Invalid payment order response: missing orderId"
  const MissingKey := "Missing Razorpay key: provide keyId from backend or set VITE_RAZORPAY_KEY_ID"
  const ScriptMissing := "Razorpay script not loaded"

  /** The sum of the line values; a missing product, price or quantity adds 0. */
  function Subtotal(items: seq<CartLine>): real {
    SumOf(items, CartPage.LineValue)
  }

  /** The subtotal plus 18% tax. */
  function Total(items: seq<CartLine>): real {
    Subtotal(items) + CartPage.Tax(Subtotal(items))
  }

  /** Where every line has a product, the cart page's summary and this
      page's total agree (in exact arithmetic). */
  lemma TotalsAgree(items: seq<CartLine>)
    requires items != [] && CartPage.AllHaveProducts(items)
    ensures CartPage.ViewOf(items) == Success(CartPage.Summary(Subtotal(items), CartPage.Tax(Subtotal(items)), Total(items)))
  {
  }

  class Page {
    var cartItems: seq<CartLine>
    var loading: bool
    var paymentMethod: string
    var razorpayLoaded: bool

    constructor ()
      ensures cartItems == [] && !loading && paymentMethod == Cod && !razorpayLoaded
    {
      cartItems := [];
      loading := false;
      paymentMethod := Cod;
      razorpayLoaded := false;
    }

    /** `loadCart`, given the response of `GET /api/cart`; a body that is
        not an array counts as empty, and a failed request changes nothing. */
    method LoadCart(reply: Response<Option<seq<CartLine>>>) returns (nav: Option<string>)
      modifies this
      ensures reply.Received? ==> cartItems == reply.data.GetOr([])
      ensures !reply.Received? ==> cartItems == old(cartItems)
      ensures nav == Some("/cart") <==> reply.Received? && cartItems == []
      ensures nav.None? || nav == Some("/cart")
      ensures loading == old(loading) && paymentMethod == old(paymentMethod) && razorpayLoaded == old(razorpayLoaded)
    {
      nav := None;
      if reply.Received? {
        cartItems := reply.data.GetOr([]);
        if |cartItems| == 0 {
          nav := Some("/cart");
        }
      }
    }

    /** The place-order button's `disabled`. */
    predicate PlaceDisabled()
      reads this
    {
      loading ||
      (paymentMethod == Razorpay && (!razorpayLoaded || Total(cartItems) <= 0.0)) ||
      (paymentMethod == Cod && Total(cartItems) <= 0.0)
    }

    /** For either method the page offers, the button is disabled exactly
        while loading, for a total that is not positive, or for Razorpay
        before its script has loaded. */
    lemma PlaceDisabledIff()
      requires paymentMethod == Cod || paymentMethod == Razorpay
      ensures PlaceDisabled() <==>
        loading || Total(cartItems) <= 0.0 || (paymentMethod == Razorpay && !razorpayLoaded)
    {
    }
  }

  /** The body of `POST /api/payment/create-order` as the page reads it. */
  datatype PaymentOrder = PaymentOrder(orderId: Option<string>, keyId: Option<string>)

  datatype Widget = Widget(key: string, orderId: string)

  /** The checks before the widget opens, in the page's order: the
      provider's order id, then a key (the backend's before the build's),
      then the script. */
  function OpenWidget(reply: PaymentOrder, envKey: string, scriptPresent: bool): (r: Result<Widget>)
    ensures !Truthy(reply.orderId) ==> r == Failure(MissingOrderId)
    ensures Truthy(reply.orderId) && OrElse(reply.keyId, envKey) == "" ==> r == Failure(MissingKey)
    ensures Truthy(reply.orderId) && OrElse(reply.keyId, envKey) != "" && !scriptPresent ==> r == Failure(ScriptMissing)
    ensures r.Success? <==> Truthy(reply.orderId) && OrElse(reply.keyId, envKey) != "" && scriptPresent
    ensures r.Success? ==> r.value.orderId == reply.orderId.value
  {
    if !Truthy(reply.orderId) then Failure(MissingOrderId)
    else
      var key := OrElse(reply.keyId, envKey);
      if key == "" then Failure(MissingKey)
      else if !scriptPresent then Failure(ScriptMissing)
      else Success(Widget(key, reply.orderId.value))
  }

  /** A key from the backend wins over the build's key. */
  lemma BackendKeyFirst(reply: PaymentOrder, envKey: string)
    requires Truthy(reply.orderId) && Truthy(reply.keyId)
    ensures OpenWidget(reply, envKey, true) == Success(Widget(reply.keyId.value, reply.orderId.value))
  {
  }

  /** The widget's handler: go to the confirmation page only when verify
      answers with status "success". */
  function AfterVerify(reply: Response<map<string, string>>, orderId: int): (nav: Option<string>)
    ensures nav.Some? <==> reply.Received? && "status" in reply.data && reply.data["status"] == "success"
    ensures nav.Some? ==> nav.value == "/order-confirmation/" + Numbers.ShowInt(orderId)
  {
    if reply.Received? && "status" in reply.data && reply.data["status"] == "success"
    then Some("/order-confirmation/" + Numbers.ShowInt(orderId))
    else None
  }

  /** Against the backend's verify: its success body leads to the
      confirmation page; its failure, a 400, does not. */
  lemma VerifyOutcomes(orderId: int, error: Option<string>)
    ensures AfterVerify(Received(PaymentController.Verified), orderId).Some?
    ensures AfterVerify(Received(PaymentController.NotVerified), orderId).None?
    ensures AfterVerify(Rejected(400, error), orderId).None?
  {
  }
}
