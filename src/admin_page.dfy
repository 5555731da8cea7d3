/** The admin dashboard: the product editor's state, the "processing"
    figure, and the recent-orders panel. */
module AdminPage {
  import opened Wrappers
  import opened Tables
  import opened Numbers
  import opened Client
  import Analytics
  import Entities

  /** A value held by a form field: what was typed, or what was copied
      from a product (a number, or null). */
  datatype Field = Typed(text: string) | Num(x: real) | Null

  datatype ProductForm = ProductForm(name: Field, description: Field, price: Field, imageUrl: Field, stock: Field)

  const EmptyForm := ProductForm(Typed(""), Typed(""), Typed(""), Typed(""), Typed(""))

  /** `Number(value)`. */
  function NumberOf(f: Field): (n: JsNumber)
    ensures f.Num? ==> n == Finite(f.x)
    ensures f.Null? || f == Typed("") ==> n == Finite(0.0)
  {
    match f
    case Typed(s) => ToNumber(s)
    case Num(x) => Finite(x)
    case Null => Finite(0.0)
  }

  function TextField(s: Option<string>): Field {
    if s.Some? then Typed(s.value) else Null
  }

  function NumField(x: Option<real>): Field {
    if x.Some? then Num(x.value) else Null
  }

  /** `handleEditProduct`'s copy of the five editable fields. */
  function FormOf(p: Product): ProductForm {
    ProductForm(Typed(p.name), TextField(p.description), NumField(p.price), TextField(p.imageUrl),
                NumField(if p.stock.Some? then Some(p.stock.value as real) else None))
  }

  /** The saved body: the form with price and stock made numbers. */
  datatype Payload = Payload(name: Field, description: Field, price: JsNumber, imageUrl: Field, stock: JsNumber)

  function PayloadOf(form: ProductForm): Payload {
    Payload(form.name, form.description, NumberOf(form.price), form.imageUrl, NumberOf(form.stock))
  }

  /** Saving an unchanged edit form sends back the product's own price and
      stock, with null read as 0. */
  lemma EditRoundTrip(p: Product)
    ensures PayloadOf(FormOf(p)).price == PriceNumber(p)
    ensures PayloadOf(FormOf(p)).stock == Finite(Stock(p) as real)
    ensures PayloadOf(FormOf(p)).name == Typed(p.name)
  {
  }

  datatype Request = Put(id: int, body: Payload) | Post(body: Payload) | Delete(id: int)

  class Editor {
    var form: ProductForm
    var editing: Option<Product>
    var modalOpen: bool

    constructor ()
      ensures form == EmptyForm && editing == None && !modalOpen
    {
      form := EmptyForm;
      editing := None;
      modalOpen := false;
    }

    /** `handleAddNewProduct`. */
    method AddNew()
      modifies this
      ensures form == EmptyForm && editing == None && modalOpen
    {
      form := EmptyForm;
      editing := None;
      modalOpen := true;
    }

    /** `handleEditProduct`. */
    method Edit(p: Product)
      modifies this
      ensures form == FormOf(p) && editing == Some(p) && modalOpen
    {
      form := FormOf(p);
      editing := Some(p);
      modalOpen := true;
    }

    /** `handleSaveProduct`: PUT to the product being edited, else POST;
        `succeeded` is the request's outcome. Success resets the editor,
        closes it and reloads the dashboard; failure changes nothing. */
    method Save(succeeded: bool) returns (request: Request, reload: bool)
      modifies this
      ensures old(editing).Some? ==> request == Put(old(editing).value.id, PayloadOf(old(form)))
      ensures old(editing).None? ==> request == Post(PayloadOf(old(form)))
      ensures reload == succeeded
      ensures succeeded ==> form == EmptyForm && editing == None && !modalOpen
      ensures !succeeded ==> form == old(form) && editing == old(editing) && modalOpen == old(modalOpen)
    {
      var payload := PayloadOf(form);
      if editing.Some? {
        request := Put(editing.value.id, payload);
      } else {
        request := Post(payload);
      }
      reload := succeeded;
      if succeeded {
        form := EmptyForm;
        editing := None;
        modalOpen := false;
      }
    }
  }

  /** `handleDeleteProduct`: nothing is sent unless the admin confirms; the
      dashboard reloads after a successful delete. */
  function DeleteClicked(id: int, confirmed: bool, succeeded: bool): (r: (Option<Request>, bool))
    ensures r.0.Some? <==> confirmed
    ensures r.0.Some? ==> r.0.value == Delete(id)
    ensures r.1 <==> confirmed && succeeded
  {
    if confirmed then (Some(Delete(id)), succeeded) else (None, false)
  }

  /** The "Processing" card: orders neither completed nor pending, never below
      zero, with a missing count read as zero. */
  function Processing(total: Option<int>, completed: Option<int>, pending: Option<int>): (n: int)
    ensures n >= 0
    ensures total.GetOr(0) - completed.GetOr(0) - pending.GetOr(0) >= 0 ==>
      n == total.GetOr(0) - completed.GetOr(0) - pending.GetOr(0)
  {
    var d := total.GetOr(0) - completed.GetOr(0) - pending.GetOr(0);
    if d < 0 then 0 else d
  }

  /** With the backend's figures the clamp never bites: "processing" is
      exactly the orders that are neither pending nor completed. */
  lemma ProcessingMatchesReport(orders: seq<Entities.Order>)
    ensures Processing(Some(|orders|), Some(CountOf(orders, Analytics.IsCompleted)), Some(CountOf(orders, Analytics.IsPending)))
      == |orders| - CountOf(orders, Analytics.IsCompleted) - CountOf(orders, Analytics.IsPending)
  {
    Analytics.PendingAndCompleted(orders);
  }

  /** The recent-orders list: the first five orders at most. */
  function RecentOrders<T>(orders: seq<T>): (r: seq<T>)
    ensures |r| <= 5
    ensures r == orders[..if |orders| < 5 then |orders| else 5]
  {
    Slice(orders, 0, 5)
  }
}
