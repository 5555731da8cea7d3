/** The product page: its image, the quantity stepper, add to cart and
    add to wishlist. */
module ProductDetails {
  import opened Wrappers
  import opened Text
  import opened Numbers
  import opened Client
  import opened Browser
  import Wishlist

  const DefaultImage := Https + "images.unsplash.com/photo-1468495244123-6c6c332eeece?w=800&h=600&fit=crop"
  const SearchPrefix := Https + "source.unsplash.com/800x600/?"
  const SearchSuffix := ",electronics,product"
  const AddedAlert := "Added to wishlist!"

  /** `getProductImage`; `encode` is `encodeURIComponent`. */
  function ImageFor(product: Option<Product>, encode: string -> string): (url: string)
    ensures product.None? ==> url == DefaultImage
    ensures product.Some? && StartsWith(product.value.imageUrl.GetOr(""), "http") ==>
      url == product.value.imageUrl.value
    ensures product.Some? && !StartsWith(product.value.imageUrl.GetOr(""), "http") ==>
      url == SearchPrefix + encode(Lower(if product.value.name != "" then product.value.name else "electronics")) + SearchSuffix
    ensures StartsWith(url, "http")
  {
    if product.None? then
      HttpsIsHttp("images.unsplash.com/photo-1468495244123-6c6c332eeece?w=800&h=600&fit=crop");
      DefaultImage
    else
      var url := product.value.imageUrl.GetOr("");
      if StartsWith(url, "http") then url
      else
        var term := Lower(if product.value.name != "" then product.value.name else "electronics");
        var r := SearchPrefix + encode(term) + SearchSuffix;
        HttpsIsHttp("source.unsplash.com/800x600/?");
        StartsWithAppend(SearchPrefix, encode(term) + SearchSuffix, "http");
        assert r == SearchPrefix + (encode(term) + SearchSuffix);
        r
  }

  /** Storing the computed image as the product's own image changes
      nothing: the result is always an `http` URL, which is kept as is. */
  lemma ImageIdempotent(p: Product, encode: string -> string)
    ensures ImageFor(Some(p.(imageUrl := Some(ImageFor(Some(p), encode)))), encode) == ImageFor(Some(p), encode)
  {
  }

  /** The minus button: one less, never below 1. */
  function Decrement(quantity: int): (q: int)
    ensures q >= 1
    ensures quantity > 1 ==> q == quantity - 1
    ensures quantity <= 1 ==> q == 1
  {
    if quantity - 1 < 1 then 1 else quantity - 1
  }

  /** The plus button: one more, capped at the stock, where a null
      stock counts as 0. */
  function Increment(quantity: int, p: Product): (q: int)
    ensures q <= Stock(p)
    ensures quantity < Stock(p) ==> q == quantity + 1
    ensures quantity >= Stock(p) ==> q == Stock(p)
  {
    if Stock(p) < quantity + 1 then Stock(p) else quantity + 1
  }

  /** Typing a quantity: the parsed integer, at least 1, so text that
      is not a number (or is 0) gives 1, and there is no cap at the stock. */
  function Typed(input: string): (q: int)
    ensures q >= 1
    ensures ParseIntPrefix(input).Some? && ParseIntPrefix(input).value >= 1 ==> q == ParseIntPrefix(input).value
    ensures ParseIntPrefix(input).Some? && ParseIntPrefix(input).value < 1 ==> q == 1
    ensures ParseIntPrefix(input).None? ==> q == 1
  {
    var v := ParseIntPrefix(input);
    var n := if v.Some? && v.value != 0 then v.value else 1;
    if n < 1 then 1 else n
  }

  /** The stepper keeps a quantity in `1..stock` there; typing can leave it. */
  lemma StepperStaysInRange(quantity: int, p: Product)
    requires 1 <= quantity <= Stock(p)
    ensures 1 <= Decrement(quantity) <= Stock(p)
    ensures 1 <= Increment(quantity, p) <= Stock(p)
  {
  }

  lemma TypedIgnoresStock()
    ensures Typed("500") == 500 && Typed("abc") == 1 && Typed("0") == 1 && Typed("-3") == 1
  {
    assert TrimStart("500") == "500";
    assert DigitRun("00") == 2 by { assert DigitRun("0") == 1; assert "00"[1..] == "0"; }
    assert DigitRun("500") == 3 by { assert "500"[1..] == "00"; }
    assert DigitsValue("500"[..3]) == 500 by {
      assert "500"[..3] == "500" && "500"[..2] == "50" && "50"[..1] == "5";
    }
    assert TrimStart("abc") == "abc" && DigitRun("abc") == 0;
    assert TrimStart("0") == "0" && DigitRun("0") == 1;
    assert DigitsValue("0"[..1]) == 0 by { assert "0"[..1] == "0"; }
    assert TrimStart("-3") == "-3" && SplitSign("-3") == (true, "3");
    assert DigitRun("3") == 1;
  }

  /** Add to cart and buy now are disabled iff the stock, as a number, is not positive. */
  predicate AddDisabled(p: Product) {
    Stock(p) <= 0
  }

  /** `add`: on to the cart if the backend accepts, to sign-in on any failure. */
  function AfterAdd<T>(reply: Response<T>): (nav: string)
    ensures reply.Received? <==> nav == "/cart"
    ensures !reply.Received? <==> nav == "/login"
  {
    if reply.Received? then "/cart" else "/login"
  }

  /** `addToWishlist`: the shared wishlist add, with an alert only when the
      product was appended. */
  method WishlistClicked(store: LocalStorage, p: Product) returns (alert: Option<string>)
    modifies store
    ensures alert.Some? <==> !Wishlist.Listed(Wishlist.Stored(old(store.wishlist)), p.id)
    ensures alert.Some? ==> alert.value == AddedAlert
    ensures alert.Some? ==> store.wishlist == Some(Wishlist.Stored(old(store.wishlist)) + [p])
    ensures alert.None? ==> store.wishlist == old(store.wishlist)
    ensures store.token == old(store.token)
  {
    var added := Wishlist.Add(store, p);
    alert := if added then Some(AddedAlert) else None;
  }
}
