/** The wishlist kept in `localStorage`: the product pages add to it without
    duplicating an id, and the Wishlist page lists it and removes from it. */
module Wishlist {
  import opened Wrappers
  import opened Tables
  import opened Client
  import opened Browser

  /** The stored wishlist, or the empty list when nothing is stored. */
  function Stored(w: Option<seq<Product>>): (r: seq<Product>)
    ensures w.Some? ==> r == w.value
    ensures w.None? ==> r == []
  {
    w.GetOr([])
  }

  /** Some entry has that id. */
  predicate Listed(w: seq<Product>, id: int) {
    IndexWhere(w, HasId(id)).Some?
  }

  lemma ListedIff(w: seq<Product>, id: int)
    ensures Listed(w, id) <==> exists i :: 0 <= i < |w| && w[i].id == id
  {
    if exists i :: 0 <= i < |w| && w[i].id == id {
      var i :| 0 <= i < |w| && w[i].id == id;
      assert HasId(id)(w[i]);
    }
  }

  predicate IdsUnique(w: seq<Product>) {
    forall i, j :: 0 <= i < j < |w| ==> w[i].id != w[j].id
  }

  /** `addWishlist` on the product list, `addToWishlist` on the details
      page: append `p` and store the list, unless an entry already has its
      id, in which case storage is left exactly as it was. */
  method Add(store: LocalStorage, p: Product) returns (added: bool)
    modifies store
    ensures added <==> !Listed(Stored(old(store.wishlist)), p.id)
    ensures added ==> store.wishlist == Some(Stored(old(store.wishlist)) + [p])
    ensures !added ==> store.wishlist == old(store.wishlist)
    ensures store.token == old(store.token)
  {
    var w := Stored(store.wishlist);
    added := !Listed(w, p.id);
    if added {
      w := w + [p];
      store.wishlist := Some(w);
    }
  }

  /** Adding keeps every id distinct and every earlier entry in place, and
      leaves `p`'s id listed. */
  lemma AddKeepsIdsUnique(w: seq<Product>, p: Product)
    requires IdsUnique(w) && !Listed(w, p.id)
    ensures IdsUnique(w + [p])
    ensures (w + [p])[..|w|] == w
    ensures Listed(w + [p], p.id)
  {
    ListedIff(w, p.id);
    ListedIff(w + [p], p.id);
    assert (w + [p])[|w|].id == p.id;
  }

  /** The list without the entries that have that id. */
  function Without(w: seq<Product>, id: int): (r: seq<Product>)
    ensures forall i :: 0 <= i < |r| ==> r[i].id != id
    ensures forall i :: 0 <= i < |w| && w[i].id != id ==> w[i] in r
    ensures Embeds(r, w, Positions(w, IdIsNot(id)))
  {
    FilterEmbeds(w, IdIsNot(id));
    Filter(w, IdIsNot(id))
  }

  /** Removing an id that was just added gives back the list from before. */
  lemma AddThenRemove(w: seq<Product>, p: Product)
    requires !Listed(w, p.id)
    ensures Without(w + [p], p.id) == w
  {
    ListedIff(w, p.id);
    FilterConcat(w, [p], IdIsNot(p.id));
    FilterAll(w, IdIsNot(p.id));
    assert Filter([p], IdIsNot(p.id)) == [] + Filter([], IdIsNot(p.id));
  }

  /** Removing twice is removing once. */
  lemma RemoveIdempotent(w: seq<Product>, id: int)
    ensures Without(Without(w, id), id) == Without(w, id)
  {
    FilterAll(Without(w, id), IdIsNot(id));
  }

  /** The Wishlist page's list of items. */
  class WishlistPage {
    var items: seq<Product>

    /** Mounting reads the stored list, or `[]` when nothing is stored. */
    constructor (store: LocalStorage)
      ensures items == Stored(store.wishlist)
    {
      items := Stored(store.wishlist);
    }

    /** `remove(id)`: drop every entry with that id, and store exactly the
        list the page now shows. */
    method Remove(store: LocalStorage, id: int)
      modifies this, store
      ensures items == Without(old(items), id)
      ensures store.wishlist == Some(items)
      ensures store.token == old(store.token)
    {
      items := Without(items, id);
      store.wishlist := Some(items);
    }
  }
}
