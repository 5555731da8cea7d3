/** The product tile: its image with a fallback, the stock badge, and the
    wishlist button. */
module ProductCard {
  import opened Wrappers
  import opened Text
  import opened Client
  import opened Browser
  import Wishlist

  const SearchPrefix := Https + "source.unsplash.com/400x300/?"
  const SearchSuffix := ",electronic,product"
  const Fallback := Https + "images.unsplash.com/photo-1468495244123-6c6c332eeece?w=400&h=300&fit=crop"

  /** `getProductImage`; `encode` is `encodeURIComponent`. */
  function ImageFor(p: Product, encode: string -> string): (url: string)
    ensures Truthy(p.imageUrl) && StartsWith(p.imageUrl.value, "http") ==> url == p.imageUrl.value
    ensures !(Truthy(p.imageUrl) && StartsWith(p.imageUrl.value, "http")) ==>
      url == SearchPrefix + encode(Lower(p.name)) + SearchSuffix
    ensures StartsWith(url, "http")
  {
    if Truthy(p.imageUrl) && StartsWith(p.imageUrl.value, "http") then p.imageUrl.value
    else
      var r := SearchPrefix + encode(Lower(p.name)) + SearchSuffix;
      HttpsIsHttp("source.unsplash.com/400x300/?");
      StartsWithAppend(SearchPrefix, encode(Lower(p.name)) + SearchSuffix, "http");
      assert r == SearchPrefix + (encode(Lower(p.name)) + SearchSuffix);
      r
  }

  /** Storing the computed image as the product's own image changes nothing. */
  lemma ImageIdempotent(p: Product, encode: string -> string)
    ensures ImageFor(p.(imageUrl := Some(ImageFor(p, encode))), encode) == ImageFor(p, encode)
  {
  }

  /** The badge: "In Stock" iff the stock, as a number, is positive. */
  function Badge(p: Product): (text: string)
    ensures text == "In Stock" <==> Stock(p) > 0
    ensures text == "Out of Stock" <==> Stock(p) <= 0
  {
    if Stock(p) > 0 then "In Stock" else "Out of Stock"
  }

  class Card {
    const product: Product
    const encode: string -> string
    var imageError: bool
    var imageLoading: bool

    constructor (product: Product, encode: string -> string)
      ensures this.product == product && this.encode == encode
      ensures !imageError && imageLoading && Src() == ImageFor(product, encode)
    {
      this.product := product;
      this.encode := encode;
      imageError := false;
      imageLoading := true;
    }

    /** The `<img>` source: the fallback once loading has failed. */
    function Src(): (url: string)
      reads this
      ensures imageError ==> url == Fallback
      ensures !imageError ==> url == ImageFor(product, encode)
    {
      if imageError then Fallback else ImageFor(product, encode)
    }

    /** `onLoad`. */
    method Loaded()
      modifies this
      ensures !imageLoading && imageError == old(imageError) && Src() == old(Src())
    {
      imageLoading := false;
    }

    /** `onError`: show the fallback and stop the loader. */
    method Errored()
      modifies this
      ensures !imageLoading && imageError && Src() == Fallback
    {
      imageError := true;
      imageLoading := false;
    }

    /** The heart button calls the wishlist callback when one was given.
        Only the shop passes a callback, and it is the wishlist add. */
    method WishlistClicked(store: LocalStorage, hasCallback: bool) returns (added: bool)
      modifies store
      ensures !hasCallback ==> !added && store.wishlist == old(store.wishlist)
      ensures hasCallback ==> (added <==> !Wishlist.Listed(Wishlist.Stored(old(store.wishlist)), product.id))
      ensures added ==> store.wishlist == Some(Wishlist.Stored(old(store.wishlist)) + [product])
      ensures !added ==> store.wishlist == old(store.wishlist)
      ensures store.token == old(store.token)
    {
      added := false;
      if hasCallback {
        added := Wishlist.Add(store, product);
      }
    }
  }
}
