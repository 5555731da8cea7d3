/** `/api/payment`: creating a gateway order and confirming a payment. */
module PaymentController {
  import opened Wrappers
  import opened Tables
  import opened Entities
  import opened Store
  import opened Http
  import Numbers
  import Payment
  import OrderService

  /** The order the gateway returns. */
  datatype GatewayOrder = GatewayOrder(id: string, amount: int, currency: string)

  /** The body of a successful `create-order`. */
  datatype PaymentOrder = PaymentOrder(orderId: string, amount: int, currency: string, keyId: string)

  const MissingAmount := "Missing amount parameter"
  const InvalidAmount := "Invalid amount format"
  const AmountNotPositive := "Amount must be greater than zero"
  const GatewayFailed := "Failed to create payment order: "

  /** The receipt: "receipt_" and the clock in milliseconds. */
  function Receipt(now: int): string {
    "receipt_" + Numbers.ShowInt(now)
  }

  /** The receipt names the instant it was made at. */
  lemma ReceiptNamesInstant(now: int)
    requires Numbers.MinLong <= now <= Numbers.MaxLong
    ensures |Receipt(now)| > 8 && Receipt(now)[..8] == "receipt_"
    ensures Numbers.ParseLong(Receipt(now)[8..]) == Some(now)
  {
    Numbers.ParseLongShowInt(now);
    assert Receipt(now)[8..] == Numbers.ShowInt(now);
  }

  /** `createRazorpayOrder`. `amount` is the text of the request's "amount"
      value (None when it is absent or null), `now` the clock and `gateway`
      the gateway's `orders.create`, whose failure carries the exception's
      message. */
  function CreateOrder(amount: Option<string>, now: int, keyId: string,
                       gateway: Payment.OrderRequest -> Result<GatewayOrder>): (r: Reply<PaymentOrder>)
    ensures amount.None? ==> r == BadRequest(ErrorBody(MissingAmount))
    ensures amount.Some? && Numbers.ParseBigDecimal(amount.value).None? ==>
      r == BadRequest(ErrorBody(InvalidAmount))
    ensures (amount.Some? && Numbers.ParseBigDecimal(amount.value).Some? &&
             Numbers.ParseBigDecimal(amount.value).value <= 0.0) ==> r == BadRequest(ErrorBody(AmountNotPositive))
    ensures r.Ok? ==>
      amount.Some? && Numbers.ParseBigDecimal(amount.value).Some? &&
      Numbers.ParseBigDecimal(amount.value).value > 0.0 && r.value.keyId == keyId &&
      gateway(Payment.OrderRequestFor(Numbers.ParseBigDecimal(amount.value).value, Receipt(now))) ==
        Success(GatewayOrder(r.value.orderId, r.value.amount, r.value.currency))
  {
    match amount
    case None => BadRequest(ErrorBody(MissingAmount))
    case Some(text) =>
      match Numbers.ParseBigDecimal(text)
      case None => BadRequest(ErrorBody(InvalidAmount))
      case Some(value) =>
        if value <= 0.0 then BadRequest(ErrorBody(AmountNotPositive))
        else
          match gateway(Payment.OrderRequestFor(value, Receipt(now)))
          case Failure(message) => BadRequest(ErrorBody(GatewayFailed + message))
          case Success(order) => Ok(PaymentOrder(order.id, order.amount, order.currency, keyId))
  }

  /** A positive amount that BigDecimal reads always reaches the gateway, and
      the gateway's answer decides the reply: its order on success, its
      message on failure. */
  lemma CreateOrderReachesGateway(text: string, now: int, keyId: string,
                                  gateway: Payment.OrderRequest -> Result<GatewayOrder>)
    requires Numbers.ParseBigDecimal(text).Some? && Numbers.ParseBigDecimal(text).value > 0.0
    ensures var req := Payment.OrderRequestFor(Numbers.ParseBigDecimal(text).value, Receipt(now));
      req.currency == Payment.Currency &&
      (gateway(req).Failure? ==>
         CreateOrder(Some(text), now, keyId, gateway) == BadRequest(ErrorBody(GatewayFailed + gateway(req).error))) &&
      (gateway(req).Success? ==> CreateOrder(Some(text), now, keyId, gateway).Ok?)
  {
  }

  /** An amount whose exponent leaves the int range, `1e2147483648` for one,
      is refused as an invalid format before the gateway is asked. */
  lemma CreateOrderRefusesHugeExponent(n: nat, now: int, keyId: string,
                                       gateway: Payment.OrderRequest -> Result<GatewayOrder>)
    requires n > Numbers.MaxInt
    ensures CreateOrder(Some("1e" + Numbers.ShowNat(n)), now, keyId, gateway) == BadRequest(ErrorBody(InvalidAmount))
  {
    Numbers.HugeExponentRefused(n);
  }

  /** The request fields `verify` reads, in the order it checks them. */
  const VerifyFields := ["razorpayOrderId", "razorpayPaymentId", "razorpaySignature", "orderId"]

  const InvalidOrderId := "Invalid orderId format"
  const Verified := map["status" := "success", "message" := "Payment verified successfully"]
  const NotVerified := map["status" := "failed", "message" := "Payment verification failed"]
  const VerificationError := "Verification error: "

  /** `request.get(key)`: None when the key is absent or its value is null. */
  function Lookup(request: map<string, Option<string>>, key: string): Option<string> {
    if key in request then request[key] else None
  }

  /** The checked fields of a `verify` request. */
  datatype VerifyRequest = VerifyRequest(razorpayOrderId: string, razorpayPaymentId: string,
                                         razorpaySignature: string, orderId: int)

  /** The error for a missing or empty field. */
  function Missing(field: string): string { "Missing " + field }

  /** The validation chain of `verify`, up to the signature check. */
  function ReadVerifyRequest(request: map<string, Option<string>>): (r: Result<VerifyRequest>)
    ensures r.Success? ==>
      Lookup(request, "razorpayOrderId") == Some(r.value.razorpayOrderId) &&
      Lookup(request, "razorpayPaymentId") == Some(r.value.razorpayPaymentId) &&
      Lookup(request, "razorpaySignature") == Some(r.value.razorpaySignature) &&
      Lookup(request, "orderId").Some? &&
      Numbers.ParseLong(Lookup(request, "orderId").value) == Some(r.value.orderId)
  {
    var orderId := Lookup(request, "razorpayOrderId");
    var paymentId := Lookup(request, "razorpayPaymentId");
    var signature := Lookup(request, "razorpaySignature");
    var orderDbId := Lookup(request, "orderId");
    if !Payment.Present(orderId) then Failure(Missing("razorpayOrderId"))
    else if !Payment.Present(paymentId) then Failure(Missing("razorpayPaymentId"))
    else if !Payment.Present(signature) then Failure(Missing("razorpaySignature"))
    else if !Payment.Present(orderDbId) then Failure(Missing("orderId"))
    else match Numbers.ParseLong(orderDbId.value)
      case None => Failure(InvalidOrderId)
      case Some(id) => Success(VerifyRequest(orderId.value, paymentId.value, signature.value, id))
  }

  /** The first of `fields` that is missing or empty. */
  function FirstMissing(request: map<string, Option<string>>, fields: seq<string>): (r: Option<string>)
    ensures r.Some? ==> r.value in fields && !Payment.Present(Lookup(request, r.value))
    ensures r.None? ==> forall i :: 0 <= i < |fields| ==> Payment.Present(Lookup(request, fields[i]))
  {
    if fields == [] then None
    else if !Payment.Present(Lookup(request, fields[0])) then Some(fields[0])
    else FirstMissing(request, fields[1..])
  }

  /** `verify` reports the first missing field by name. */
  lemma ReadReportsFirstMissing(request: map<string, Option<string>>)
    ensures FirstMissing(request, VerifyFields).Some? ==>
      ReadVerifyRequest(request) == Failure(Missing(FirstMissing(request, VerifyFields).value))
    ensures FirstMissing(request, VerifyFields).None? ==>
      forall i :: 0 <= i < |VerifyFields| ==> Payment.Present(Lookup(request, VerifyFields[i]))
  {
    var f := VerifyFields;
    var f1 := ["razorpayPaymentId", "razorpaySignature", "orderId"];
    var f2 := ["razorpaySignature", "orderId"];
    var f3 := ["orderId"];
    assert f[0] == "razorpayOrderId" && f[1..] == f1;
    assert f1[0] == "razorpayPaymentId" && f1[1..] == f2;
    assert f2[0] == "razorpaySignature" && f2[1..] == f3;
    assert f3[0] == "orderId" && f3[1..] == [];
    var missing := FirstMissing(request, f);
    if !Payment.Present(Lookup(request, f[0])) {
      assert missing == Some("razorpayOrderId");
    } else if !Payment.Present(Lookup(request, f1[0])) {
      assert missing == FirstMissing(request, f1) == Some("razorpayPaymentId");
    } else if !Payment.Present(Lookup(request, f2[0])) {
      assert missing == FirstMissing(request, f1) == FirstMissing(request, f2) == Some("razorpaySignature");
    } else if !Payment.Present(Lookup(request, f3[0])) {
      assert missing == FirstMissing(request, f2) == FirstMissing(request, f3) == Some("orderId");
    }
  }

  /** With every field present, the order id's format alone decides: a
      malformed one is reported before any signature check. */
  lemma ReadChecksOrderIdLast(request: map<string, Option<string>>)
    requires forall i :: 0 <= i < |VerifyFields| ==> Payment.Present(Lookup(request, VerifyFields[i]))
    ensures Lookup(request, "orderId").Some?
    ensures ReadVerifyRequest(request).Failure? <==> Numbers.ParseLong(Lookup(request, "orderId").value).None?
    ensures ReadVerifyRequest(request).Failure? ==> ReadVerifyRequest(request).error == InvalidOrderId
  {
    assert VerifyFields[0] == "razorpayOrderId" && VerifyFields[1] == "razorpayPaymentId";
    assert VerifyFields[2] == "razorpaySignature" && VerifyFields[3] == "orderId";
  }

  /** The order after a verified payment: paid, placed whatever its status
      was, with the three gateway values stored. */
  function PaidOrder(order: Order, v: VerifyRequest): (o: Order)
    ensures o.id == order.id && o.userId == order.userId && o.items == order.items &&
            o.totalAmount == order.totalAmount && o.paymentMethod == order.paymentMethod &&
            o.createdAt == order.createdAt
    ensures o.paymentStatus == "PAID" && o.status == Some("PLACED")
    ensures o.razorpayOrderId == Some(v.razorpayOrderId) && o.razorpayPaymentId == Some(v.razorpayPaymentId) &&
            o.razorpaySignature == Some(v.razorpaySignature)
  {
    order.(paymentStatus := "PAID", status := Some("PLACED"), razorpayOrderId := Some(v.razorpayOrderId),
           razorpayPaymentId := Some(v.razorpayPaymentId), razorpaySignature := Some(v.razorpaySignature))
  }

  /** Whether `verify` accepts the request's signature. */
  predicate SignatureValid(v: VerifyRequest, mac: string -> Option<seq<Payment.JByte>>) {
    Payment.VerifyPayment(Some(v.razorpayOrderId), Some(v.razorpayPaymentId), Some(v.razorpaySignature), mac)
  }

  /** `verifyPayment`. Only a read request with a valid signature for an
      existing order changes anything: that order, and nothing else. */
  method Verify(db: Db, request: map<string, Option<string>>, mac: string -> Option<seq<Payment.JByte>>)
    returns (r: Reply<map<string, string>>)
    requires db.Valid()
    modifies db
    ensures db.Valid()
    ensures db.users == old(db.users) && db.products == old(db.products) && db.cartItems == old(db.cartItems)
    ensures CountersKept(db)
    ensures ReadVerifyRequest(request).Failure? ==>
      r == BadRequest(ErrorBody(ReadVerifyRequest(request).error)) && db.orders == old(db.orders)
    ensures ReadVerifyRequest(request).Success? && !SignatureValid(ReadVerifyRequest(request).value, mac) ==>
      r == BadRequest(NotVerified) && db.orders == old(db.orders)
    ensures (ReadVerifyRequest(request).Success? && SignatureValid(ReadVerifyRequest(request).value, mac) &&
             !HasKey(old(db.orders), OrderKey, ReadVerifyRequest(request).value.orderId)) ==>
      r == BadRequest(ErrorBody(VerificationError + OrderService.OrderNotFound)) && db.orders == old(db.orders)
    ensures r.Ok? ==>
      var v := ReadVerifyRequest(request).value;
      var k := OrderById(old(db.orders), v.orderId).value;
      ReadVerifyRequest(request).Success? && SignatureValid(v, mac) &&
      OrderById(old(db.orders), v.orderId).Some? &&
      r == Ok(Verified) && db.orders == old(db.orders)[k := PaidOrder(old(db.orders)[k], v)]
    ensures (ReadVerifyRequest(request).Success? && SignatureValid(ReadVerifyRequest(request).value, mac) &&
             HasKey(old(db.orders), OrderKey, ReadVerifyRequest(request).value.orderId)) ==> r.Ok?
  {
    var read := ReadVerifyRequest(request);
    if read.Failure? {
      return BadRequest(ErrorBody(read.error));
    }
    var v := read.value;
    var valid := Payment.VerifyPayment(Some(v.razorpayOrderId), Some(v.razorpayPaymentId),
                                       Some(v.razorpaySignature), mac);
    if !valid {
      return BadRequest(NotVerified);
    }
    var found := OrderService.FindById(db, v.orderId);
    if found.Failure? {
      return BadRequest(ErrorBody(VerificationError + found.error));
    }
    var k := OrderById(db.orders, v.orderId).value;
    assert OrderLinked(db.orders[k], db.users, db.products);
    var paid := PaidOrder(found.value, v);
    RowHasKey(db.orders, OrderKey, k);
    var saved := OrderService.SaveOrder(db, paid);
    return Ok(Verified);
  }
}
