/** The "My Orders" page: loading with redirects to sign-in, display
    defaults, and product thumbnails that fall back once. */
module OrdersPage {
  import opened Wrappers
  import opened Text
  import opened Numbers
  import opened Client

  const LoadFailed := "Failed to load orders. Please try again."

  /** The placeholder seed: the product id, else its name, else "electronics"; a zero id and
      an empty name count as missing. */
  function Seed(product: Option<Product>): (r: string)
    ensures product.Some? && product.value.id != 0 ==> r == ShowInt(product.value.id)
    ensures product.Some? && product.value.id == 0 && product.value.name != "" ==> r == product.value.name
    ensures (product.None? || (product.value.id == 0 && product.value.name == "")) ==> r == "electronics"
  {
    if product.Some? && product.value.id != 0 then ShowInt(product.value.id)
    else if product.Some? && product.value.name != "" then product.value.name
    else "electronics"
  }

  function Picsum(product: Option<Product>, encode: string -> string): string {
    "https://picsum.photos/seed/" + encode(Seed(product)) + "/200/150"
  }

  /** The product has an image URL starting with "http". */
  predicate WebImage(product: Option<Product>) {
    product.Some? && Truthy(product.value.imageUrl) && StartsWith(product.value.imageUrl.value, "http")
  }

  /** `getProductImage`: an `http` image URL as is, else a picture seeded by
      the product. */
  function ImageFor(product: Option<Product>, encode: string -> string): (url: string)
    ensures WebImage(product) ==> url == product.value.imageUrl.value
    ensures !WebImage(product) ==> url == Picsum(product, encode)
    ensures StartsWith(url, "http")
  {
    if WebImage(product) then product.value.imageUrl.value
    else
      var r := Picsum(product, encode);
      assert r[..4] == "http";
      r
  }

  /** One order line's thumbnail and its `dataset.fallback` flag. */
  class Thumbnail {
    var src: string
    var fellBack: bool

    constructor (product: Option<Product>, encode: string -> string)
      ensures src == ImageFor(product, encode) && !fellBack
    {
      src := ImageFor(product, encode);
      fellBack := false;
    }

    /** `onError`: the first error switches to the seeded picture and sets
        the flag; later errors change nothing. */
    method Failed(product: Option<Product>, encode: string -> string)
      modifies this
      ensures fellBack
      ensures !old(fellBack) ==> src == Picsum(product, encode)
      ensures old(fellBack) ==> src == old(src)
    {
      if !fellBack {
        fellBack := true;
        src := Picsum(product, encode);
      }
    }
  }

  /** The status badge: a missing or empty status reads as PLACED. */
  function ShownStatus(status: Option<string>): (r: string)
    ensures r != ""
    ensures Truthy(status) ==> r == status.value
  {
    OrElse(status, "PLACED")
  }

  /** The quantity column: a missing quantity shows as 1, and so does a zero. */
  function ShownQuantity(quantity: Option<int>): (q: int)
    ensures q != 0
    ensures quantity.Some? && quantity.value != 0 ==> q == quantity.value
  {
    if quantity.Some? && quantity.value != 0 then quantity.value else 1
  }

  class Page {
    var orders: seq<ClientOrder>
    var error: Option<string>
    var loading: bool

    constructor ()
      ensures orders == [] && error == None && loading
    {
      orders := [];
      error := None;
      loading := true;
    }

    /** The mount effect: a caller who is not signed in goes to `/login`
        and nothing is requested. */
    method Mounted(authenticated: bool) returns (nav: Option<string>, requests: bool)
      ensures !authenticated <==> nav == Some("/login")
      ensures requests <==> authenticated
      ensures nav.None? || nav == Some("/login")
    {
      if !authenticated {
        return Some("/login"), false;
      }
      return None, true;
    }

    /** `loadOrders`, given the response of `GET /api/orders`. */
    method Load(reply: Response<Option<seq<ClientOrder>>>) returns (nav: Option<string>)
      modifies this
      ensures !loading
      ensures reply.Received? ==> orders == reply.data.GetOr([]) && error == None && nav == None
      ensures !reply.Received? ==> orders == old(orders) && error == Some(LoadFailed)
      ensures nav == Some("/login") <==> reply.Rejected? && reply.status == 401
      ensures nav.None? || nav == Some("/login")
    {
      loading := true;
      error := None;
      nav := None;
      if reply.Received? {
        orders := reply.data.GetOr([]);
      } else {
        error := Some(LoadFailed);
        if reply.Rejected? && reply.status == 401 {
          nav := Some("/login");
        }
      }
      loading := false;
    }
  }
}
