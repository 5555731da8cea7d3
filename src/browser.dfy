/** The browser's `localStorage`, reduced to the two keys the app uses. The
    stored values are held already parsed: the JSON text is not modelled. */
module Browser {
  import opened Wrappers
  import opened Client

  class LocalStorage {
    /** The stored token, if any. */
    var token: Option<string>
    /** The parsed wishlist, if the key is set. */
    var wishlist: Option<seq<Product>>

    constructor (token: Option<string>, wishlist: Option<seq<Product>>)
      ensures this.token == token && this.wishlist == wishlist
    {
      this.token := token;
      this.wishlist := wishlist;
    }
  }
}
