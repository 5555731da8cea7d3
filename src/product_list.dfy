/** The shop page: the product list narrowed by the search box and the price
    bounds, put in the chosen order, and cut into pages of twelve. */
module ProductList {
  import opened Wrappers
  import opened Tables
  import opened Text
  import opened Numbers
  import opened Sorting
  import opened Client
  import Pagination

  const PageSize: nat := 12

  /** The `filter` state: the search query, the price bounds as typed, and
      the sort key. */
  datatype Filters = Filters(q: string, min: string, max: string, sort: string)

  const Unfiltered := Filters("", "", "", "relevance")

  function NameMatches(q: string): Product -> bool {
    (p: Product) => Contains(Lower(p.name), Lower(q))
  }

  function PriceAtLeast(min: JsNumber): Product -> bool {
    (p: Product) => JsGe(PriceNumber(p), min)
  }

  function PriceAtMost(max: JsNumber): Product -> bool {
    (p: Product) => JsGe(max, PriceNumber(p))
  }

  /** The search, then the minimum when one is typed, then the maximum when
      one is typed: each a `filter` over the previous list. */
  function Narrowed(products: seq<Product>, f: Filters): seq<Product> {
    var searched := Filter(products, NameMatches(f.q));
    var above := if f.min != "" then Filter(searched, PriceAtLeast(ToNumber(f.min))) else searched;
    if f.max != "" then Filter(above, PriceAtMost(ToNumber(f.max))) else above
  }

  /** Whether one product survives all three filters. */
  predicate Keeps(f: Filters, p: Product) {
    Contains(Lower(p.name), Lower(f.q)) &&
    (f.min != "" ==> JsGe(PriceNumber(p), ToNumber(f.min))) &&
    (f.max != "" ==> JsGe(ToNumber(f.max), PriceNumber(p)))
  }

  function KeepsFn(f: Filters): Product -> bool {
    (p: Product) => Keeps(f, p)
  }

  /** The comparators, as "may precede": ascending price, descending price,
      and the locale order on names, which is a parameter. */
  function PriceAsc(): (Product, Product) -> bool {
    (a: Product, b: Product) => Price(a) <= Price(b)
  }

  function PriceDesc(): (Product, Product) -> bool {
    (a: Product, b: Product) => Price(b) <= Price(a)
  }

  function ByName(nameLe: (string, string) -> bool): (Product, Product) -> bool {
    (a: Product, b: Product) => nameLe(a.name, b.name)
  }

  function Ordered(list: seq<Product>, sort: string, nameLe: (string, string) -> bool): (r: seq<Product>)
    ensures multiset(r) == multiset(list)
  {
    if sort == "price-asc" then SortBy(list, PriceAsc())
    else if sort == "price-desc" then SortBy(list, PriceDesc())
    else if sort == "name-asc" then SortBy(list, ByName(nameLe))
    else list
  }

  /** The `filtered` memo. */
  function Visible(products: seq<Product>, f: Filters, nameLe: (string, string) -> bool): (r: seq<Product>)
    ensures multiset(r) == multiset(Narrowed(products, f))
  {
    Ordered(Narrowed(products, f), f.sort, nameLe)
  }

  lemma FilterSame<T>(s: seq<T>, p: T -> bool, q: T -> bool)
    requires forall x :: p(x) == q(x)
    ensures Filter(s, p) == Filter(s, q)
  {
  }

  /** The three filters in a row are one filter by `Keeps`, so the narrowed
      list keeps its products in their original order. */
  lemma {:induction false} NarrowedIsOneFilter(products: seq<Product>, f: Filters)
    ensures Narrowed(products, f) == Filter(products, KeepsFn(f))
    ensures Embeds(Narrowed(products, f), products, Positions(products, KeepsFn(f)))
  {
    var n := NameMatches(f.q);
    var lo := PriceAtLeast(ToNumber(f.min));
    var hi := PriceAtMost(ToNumber(f.max));
    var searched := Filter(products, n);
    if f.min != "" {
      FilterBoth(products, n, lo);
      if f.max != "" {
        FilterBoth(products, Both(n, lo), hi);
        FilterSame(products, Both(Both(n, lo), hi), KeepsFn(f));
      } else {
        FilterSame(products, Both(n, lo), KeepsFn(f));
      }
    } else {
      if f.max != "" {
        FilterBoth(products, n, hi);
        FilterSame(products, Both(n, hi), KeepsFn(f));
      } else {
        FilterSame(products, n, KeepsFn(f));
      }
    }
    FilterEmbeds(products, KeepsFn(f));
  }

  /** A product is shown iff it is in the list and passes every filter. */
  lemma ShownIff(products: seq<Product>, f: Filters, nameLe: (string, string) -> bool, p: Product)
    ensures p in Visible(products, f, nameLe) <==> p in products && Keeps(f, p)
  {
    NarrowedIsOneFilter(products, f);
    var n := Narrowed(products, f);
    assert p in Visible(products, f, nameLe) <==> p in multiset(n);
    if p in n {
      var i :| 0 <= i < |n| && n[i] == p;
      assert KeepsFn(f)(n[i]);
    }
    if p in products && Keeps(f, p) {
      var i :| 0 <= i < |products| && products[i] == p;
      assert KeepsFn(f)(products[i]);
    }
  }

  /** An empty search with no price bounds keeps every product. */
  lemma EmptySearchKeepsAll(products: seq<Product>, f: Filters)
    requires f.q == "" && f.min == "" && f.max == ""
    ensures Narrowed(products, f) == products
  {
    forall p: Product ensures NameMatches("")(p) {
      ContainsEmpty(Lower(p.name));
    }
    FilterAll(products, NameMatches(""));
  }

  /** A bound that is typed but not a number is NaN, and every comparison
      with NaN is false: no product is shown at all. */
  lemma NaNBoundHidesAll(products: seq<Product>, f: Filters, nameLe: (string, string) -> bool)
    requires (f.min != "" && ToNumber(f.min) == NaN) || (f.max != "" && ToNumber(f.max) == NaN)
    ensures Visible(products, f, nameLe) == []
  {
    var r := Visible(products, f, nameLe);
    if r != [] {
      ShownIff(products, f, nameLe, r[0]);
      assert false;
    }
  }

  /** The minimum "abc" hides everything. */
  lemma NonNumericMinimum(products: seq<Product>, f: Filters, nameLe: (string, string) -> bool)
    requires f.min == "abc"
    ensures Visible(products, f, nameLe) == []
  {
    NonNumericIsNaN("abc", 'a');
    NaNBoundHidesAll(products, f, nameLe);
  }

  lemma PriceOrdersArePreorders()
    ensures TotalPreorder(PriceAsc()) && TotalPreorder(PriceDesc())
  {
  }

  /** "price-asc" shows prices in non-decreasing order. */
  lemma PriceAscending(products: seq<Product>, f: Filters, nameLe: (string, string) -> bool)
    requires f.sort == "price-asc"
    ensures forall i, j :: 0 <= i < j < |Visible(products, f, nameLe)| ==>
      Price(Visible(products, f, nameLe)[i]) <= Price(Visible(products, f, nameLe)[j])
  {
    PriceOrdersArePreorders();
    SortBySorted(Narrowed(products, f), PriceAsc());
  }

  /** "price-desc" shows prices in non-increasing order. */
  lemma PriceDescending(products: seq<Product>, f: Filters, nameLe: (string, string) -> bool)
    requires f.sort == "price-desc"
    ensures forall i, j :: 0 <= i < j < |Visible(products, f, nameLe)| ==>
      Price(Visible(products, f, nameLe)[i]) >= Price(Visible(products, f, nameLe)[j])
  {
    PriceOrdersArePreorders();
    SortBySorted(Narrowed(products, f), PriceDesc());
  }

  /** "name-asc" orders by the name order, whenever that order is total. */
  lemma NameAscending(products: seq<Product>, f: Filters, nameLe: (string, string) -> bool)
    requires f.sort == "name-asc" && TotalPreorder(nameLe)
    ensures forall i, j :: 0 <= i < j < |Visible(products, f, nameLe)| ==>
      nameLe(Visible(products, f, nameLe)[i].name, Visible(products, f, nameLe)[j].name)
  {
    var le := ByName(nameLe);
    forall a: Product, b: Product ensures le(a, b) || le(b, a) {
      assert nameLe(a.name, b.name) || nameLe(b.name, a.name);
    }
    forall a: Product, b: Product, c: Product | le(a, b) && le(b, c) ensures le(a, c) {
      assert nameLe(a.name, b.name) && nameLe(b.name, c.name);
    }
    SortBySorted(Narrowed(products, f), ByName(nameLe));
  }

  /** Any other sort key, "relevance" included, keeps the filtered order. */
  lemma OtherSortKeepsOrder(products: seq<Product>, f: Filters, nameLe: (string, string) -> bool)
    requires f.sort != "price-asc" && f.sort != "price-desc" && f.sort != "name-asc"
    ensures Visible(products, f, nameLe) == Narrowed(products, f)
  {
  }

  /** The twelve results of a page: those from position (page - 1) * 12 on. */
  function PageItems(list: seq<Product>, page: int): (r: seq<Product>)
    ensures |r| <= PageSize
  {
    var start := (page - 1) * PageSize;
    Slice(list, start, start + PageSize)
  }

  /** Every shown product is on exactly the page its index names, and that
      page is one the pager can reach. */
  lemma PagesCoverList(list: seq<Product>, k: nat)
    requires k < |list|
    ensures 1 <= k / PageSize + 1 <= Pagination.TotalPages(|list|, PageSize)
    ensures |PageItems(list, k / PageSize + 1)| > k % PageSize
    ensures PageItems(list, k / PageSize + 1)[k % PageSize] == list[k]
  {
    var page := k / PageSize + 1;
    var start := (page - 1) * PageSize;
    assert start + k % PageSize == k;
    var n := Pagination.TotalPages(|list|, PageSize);
    var r := PageItems(list, page);
    assert r == list[start..SliceBound(|list|, start + PageSize)];
  }

  /** The page's state: the loaded products, the filters and the page. */
  class ProductListPage {
    var products: seq<Product>
    var filters: Filters
    var page: int
    /** The locale order on names: a may precede b. */
    const nameLe: (string, string) -> bool

    ghost predicate Valid()
      reads this
    {
      page >= 1
    }

    constructor (nameLe: (string, string) -> bool)
      ensures products == [] && filters == Unfiltered && page == 1
      ensures this.nameLe == nameLe && Valid()
    {
      products := [];
      filters := Unfiltered;
      page := 1;
      this.nameLe := nameLe;
    }

    function Shown(): seq<Product>
      reads this
    {
      Visible(products, filters, nameLe)
    }

    function ShownPage(): (r: seq<Product>)
      reads this
      ensures |r| <= PageSize
    {
      PageItems(Shown(), page)
    }

    function TotalPages(): (n: nat)
      reads this
      ensures n >= 1
    {
      Pagination.TotalPages(|Shown()|, PageSize)
    }

    /** `/api/products` answered. */
    method Loaded(ps: seq<Product>)
      requires Valid()
      modifies this
      ensures products == ps && filters == old(filters) && page == old(page) && Valid()
    {
      products := ps;
    }

    /** The `q` query parameter changed: the query follows it, the page does not reset. */
    method QueryChanged(param: Option<string>)
      requires Valid()
      modifies this
      ensures filters == old(filters).(q := OrElse(param, ""))
      ensures products == old(products) && page == old(page) && Valid()
    {
      filters := filters.(q := OrElse(param, ""));
    }

    /** Typing in the search box: new query, back to page 1. */
    method SearchTyped(q: string)
      modifies this
      ensures filters == old(filters).(q := q) && page == 1
      ensures products == old(products) && Valid()
    {
      filters := filters.(q := q);
      page := 1;
    }

    /** Choosing a sort: new key, back to page 1. */
    method SortChosen(sort: string)
      modifies this
      ensures filters == old(filters).(sort := sort) && page == 1
      ensures products == old(products) && Valid()
    {
      filters := filters.(sort := sort);
      page := 1;
    }

    /** The sidebar reported its filters: take them all, back to page 1. */
    method SidebarChanged(f: Filters)
      modifies this
      ensures filters == f && page == 1
      ensures products == old(products) && Valid()
    {
      filters := f;
      page := 1;
    }

    method PrevClicked()
      requires Valid()
      modifies this
      ensures page == Pagination.Prev(old(page)) && page <= old(page)
      ensures products == old(products) && filters == old(filters) && Valid()
    {
      page := Pagination.Prev(page);
    }

    method NextClicked()
      requires Valid()
      modifies this
      ensures page == Pagination.Next(old(page), old(TotalPages()))
      ensures products == old(products) && filters == old(filters) && Valid()
    {
      page := Pagination.Next(page, TotalPages());
    }
  }
}
