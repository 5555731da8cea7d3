/** The administrator's dashboard figures, computed from the order table. */
module Analytics {
  import opened Wrappers
  import opened Tables
  import opened Entities
  import opened Store
  import Sorting

  datatype DailySales = DailySales(date: int, sales: real, orders: nat)
  datatype ProductSales = ProductSales(name: Option<string>, quantity: int, revenue: real)
  datatype Report = Report(totalUsers: nat, totalProducts: nat, totalOrders: nat,
                           totalRevenue: real, pendingOrders: nat, completedOrders: nat,
                           dailySales: seq<DailySales>,
                           statusDistribution: map<string, nat>,
                           paymentDistribution: map<string, nat>,
                           topSelling: seq<ProductSales>)

  /** Message of the NullPointerException `groupingBy` throws on a null key. */
  const NullKey := "element cannot be mapped to a null key"

  /** Number of days before today that the daily series covers. */
  const Window := 30
  /** Length of the best-seller list. */
  const TopCount := 10

  predicate IsPending(o: Order) { o.status == Some("PENDING") || o.status == Some("PLACED") }
  predicate IsCompleted(o: Order) { o.status == Some("DELIVERED") }
  predicate IsPaid(o: Order) { o.paymentStatus == "PAID" }
  predicate CountsAsRevenue(o: Order) { IsPaid(o) || o.status == Some("DELIVERED") }
  predicate DeliveredUnpaid(o: Order) { o.status == Some("DELIVERED") && !IsPaid(o) }

  function Amount(o: Order): real { o.totalAmount }

  /** Pending and completed orders are disjoint, so together they never
      exceed the number of orders. */
  lemma {:induction false} PendingAndCompleted(orders: seq<Order>)
    ensures CountOf(orders, IsPending) + CountOf(orders, IsCompleted) <= |orders|
  {
    if orders != [] {
      PendingAndCompleted(orders[1..]);
    }
  }

  /** Sum of `f` over the orders satisfying `p`. */
  function SumWhere(s: seq<Order>, p: Order -> bool, f: Order -> real): real {
    if s == [] then 0.0 else (if p(s[0]) then f(s[0]) else 0.0) + SumWhere(s[1..], p, f)
  }

  function Revenue(orders: seq<Order>): real { SumWhere(orders, CountsAsRevenue, Amount) }

  /** Revenue is the paid orders plus the delivered ones not yet paid: an
      order that is both paid and delivered is counted once. */
  lemma {:induction false} RevenueCountsOnce(orders: seq<Order>)
    ensures Revenue(orders) == SumWhere(orders, IsPaid, Amount) + SumWhere(orders, DeliveredUnpaid, Amount)
  {
    if orders != [] {
      RevenueCountsOnce(orders[1..]);
    }
  }

  /** `groupingBy(..., counting())`: how often each key occurs. */
  function Tally(keys: seq<string>): map<string, nat> {
    if keys == [] then map[]
    else
      var m := Tally(keys[..|keys| - 1]);
      var k := keys[|keys| - 1];
      m[k := (if k in m then m[k] else 0) + 1]
  }

  /** Every key that occurs is in the tally with its number of occurrences,
      and nothing else is. */
  lemma {:induction false} TallyCounts(keys: seq<string>)
    ensures forall k :: k in Tally(keys) <==> k in keys
    ensures forall k :: k in Tally(keys) ==> Tally(keys)[k] == multiset(keys)[k]
  {
    if keys != [] {
      var init := keys[..|keys| - 1];
      TallyCounts(init);
      assert keys == init + [keys[|keys| - 1]];
    }
  }

  ghost function Pick(m: map<string, nat>): string
    requires |m| > 0
  {
    var k :| k in m; k
  }

  ghost function SumValues(m: map<string, nat>): nat
    decreases |m|
  {
    if |m| == 0 then 0 else m[Pick(m)] + SumValues(m - {Pick(m)})
  }

  lemma {:induction false} SumValuesRemove(m: map<string, nat>, k: string)
    requires k in m
    ensures SumValues(m) == m[k] + SumValues(m - {k})
    decreases |m|
  {
    var p := Pick(m);
    if p != k {
      assert |m - {p}| == |m| - 1;
      SumValuesRemove(m - {p}, k);
      SumValuesRemove(m - {k}, p);
      assert m - {p} - {k} == m - {k} - {p};
    }
  }

  /** The counts of a tally add up to the number of keys tallied. */
  lemma {:induction false} TallySum(keys: seq<string>)
    ensures SumValues(Tally(keys)) == |keys|
  {
    if keys != [] {
      var init := keys[..|keys| - 1];
      var m := Tally(init);
      var k := keys[|keys| - 1];
      var n := m[k := (if k in m then m[k] else 0) + 1];
      TallySum(init);
      SumValuesRemove(n, k);
      assert n - {k} == m - {k};
      if k in m {
        SumValuesRemove(m, k);
      } else {
        assert m - {k} == m;
      }
    }
  }

  function Status(o: Order): string
    requires o.status.Some?
  {
    o.status.value
  }

  predicate AllHaveStatus(orders: seq<Order>) {
    forall i :: 0 <= i < |orders| ==> orders[i].status.Some?
  }

  function StatusDistribution(orders: seq<Order>): map<string, nat>
    requires AllHaveStatus(orders)
  {
    Tally(seq(|orders|, i requires 0 <= i < |orders| && AllHaveStatus(orders) => Status(orders[i])))
  }

  function PaymentDistribution(orders: seq<Order>): map<string, nat> {
    Tally(seq(|orders|, i requires 0 <= i < |orders| => orders[i].paymentMethod))
  }

  /** The status counts add up to the number of orders. */
  lemma StatusCountsSum(orders: seq<Order>)
    requires AllHaveStatus(orders)
    ensures SumValues(StatusDistribution(orders)) == |orders|
    ensures SumValues(PaymentDistribution(orders)) == |orders|
  {
    TallySum(seq(|orders|, i requires 0 <= i < |orders| && AllHaveStatus(orders) => Status(orders[i])));
    TallySum(seq(|orders|, i requires 0 <= i < |orders| => orders[i].paymentMethod));
  }

  /** The orders created on day `d`. */
  function OnDay(orders: seq<Order>, dateOf: int -> int, d: int): seq<Order> {
    Filter(orders, (o: Order) => dateOf(o.createdAt) == d)
  }

  /** The orders created between `today - 30` and today, both included. */
  function InWindow(orders: seq<Order>, dateOf: int -> int, today: int): seq<Order> {
    Filter(orders, (o: Order) => today - Window <= dateOf(o.createdAt) <= today)
  }

  lemma {:induction false} FilterFilter(s: seq<Order>, p: Order -> bool, q: Order -> bool)
    requires forall o :: q(o) ==> p(o)
    ensures Filter(Filter(s, p), q) == Filter(s, q)
  {
    if s != [] {
      FilterFilter(s[1..], p, q);
      var fp := Filter(s, p);
      if p(s[0]) {
        assert fp == [s[0]] + Filter(s[1..], p);
        assert fp != [] && fp[0] == s[0] && fp[1..] == Filter(s[1..], p);
        calc {
          Filter(fp, q);
          (if q(s[0]) then [s[0]] else []) + Filter(fp[1..], q);
          (if q(s[0]) then [s[0]] else []) + Filter(s[1..], q);
          Filter(s, q);
        }
      } else {
        assert fp == Filter(s[1..], p);
        assert !q(s[0]);
        assert Filter(s, q) == [] + Filter(s[1..], q);
      }
    }
  }

  /** Narrowing to the window first loses none of the orders of a day inside it. */
  lemma DayInWindow(orders: seq<Order>, dateOf: int -> int, today: int, date: int)
    requires today - Window <= date <= today
    ensures OnDay(InWindow(orders, dateOf, today), dateOf, date) == OnDay(orders, dateOf, date)
  {
    FilterFilter(orders, (o: Order) => today - Window <= dateOf(o.createdAt) <= today,
                 (o: Order) => dateOf(o.createdAt) == date);
  }

  /** `getDailySalesData`: one entry per day from `today - 30` up to the day
      before today, with the sum and the number of the orders of that day. */
  method DailySalesData(orders: seq<Order>, today: int, dateOf: int -> int) returns (r: seq<DailySales>)
    ensures |r| == Window
    ensures forall i :: 0 <= i < |r| ==> r[i].date == today - Window + i
    ensures forall i :: 0 <= i < |r| ==>
      r[i].sales == SumOf(OnDay(orders, dateOf, r[i].date), Amount) &&
      r[i].orders == |OnDay(orders, dateOf, r[i].date)|
  {
    var window := InWindow(orders, dateOf, today);
    r := [];
    for i := 0 to Window
      invariant |r| == i
      invariant forall j :: 0 <= j < i ==> r[j].date == today - Window + j
      invariant forall j :: 0 <= j < i ==>
        r[j].sales == SumOf(OnDay(orders, dateOf, r[j].date), Amount) &&
        r[j].orders == |OnDay(orders, dateOf, r[j].date)|
    {
      var date := today - Window + i;
      var dayOrders := OnDay(window, dateOf, date);
      DayInWindow(orders, dateOf, today, date);
      r := r + [DailySales(date, SumOf(dayOrders, Amount), |dayOrders|)];
    }
  }

  /** `orderItemRepository.findAll()`: the items of all orders, order by order. */
  function AllItems(orders: seq<Order>): seq<OrderItem> {
    if orders == [] then [] else orders[0].items + AllItems(orders[1..])
  }

  function Get(m: map<int, int>, k: int): int { if k in m then m[k] else 0 }
  function GetReal(m: map<int, real>, k: int): real { if k in m then m[k] else 0.0 }

  /** The quantity map after merging the items, one at a time. */
  function QuantityMap(items: seq<OrderItem>): map<int, int> {
    if items == [] then map[]
    else
      var m := QuantityMap(items[..|items| - 1]);
      var it := items[|items| - 1];
      m[it.productId := Get(m, it.productId) + it.quantity]
  }

  /** Price at purchase times quantity. */
  function LineRevenue(it: OrderItem): real { it.priceAtPurchase * it.quantity as real }

  /** The revenue map after merging the items, one at a time. */
  function RevenueMap(items: seq<OrderItem>): map<int, real> {
    if items == [] then map[]
    else
      var m := RevenueMap(items[..|items| - 1]);
      var it := items[|items| - 1];
      m[it.productId := GetReal(m, it.productId) + LineRevenue(it)]
  }

  /** The products sold, each once, in order of first sale. */
  function Sold(items: seq<OrderItem>): seq<int> {
    if items == [] then []
    else
      var s := Sold(items[..|items| - 1]);
      var p := items[|items| - 1].productId;
      if p in s then s else s + [p]
  }

  /** Total quantity of the product over the items. */
  function QuantitySold(items: seq<OrderItem>, productId: int): int {
    if items == [] then 0
    else QuantitySold(items[..|items| - 1], productId) +
         (if items[|items| - 1].productId == productId then items[|items| - 1].quantity else 0)
  }

  /** Total of price times quantity for the product over the items. */
  function RevenueOf(items: seq<OrderItem>, productId: int): real {
    if items == [] then 0.0
    else RevenueOf(items[..|items| - 1], productId) +
         (if items[|items| - 1].productId == productId
          then LineRevenue(items[|items| - 1]) else 0.0)
  }

  /** Some item sells the product. */
  predicate SoldIn(items: seq<OrderItem>, p: int) {
    exists k :: 0 <= k < |items| && items[k].productId == p
  }

  /** The merged maps hold exactly the products sold, each with its total
      quantity and revenue; the list of products sold has no repeats. */
  lemma {:induction false} MergedTotals(items: seq<OrderItem>)
    ensures forall p :: p in QuantityMap(items) <==> p in Sold(items)
    ensures forall p :: p in RevenueMap(items) <==> p in Sold(items)
    ensures forall p :: Get(QuantityMap(items), p) == QuantitySold(items, p)
    ensures forall p :: GetReal(RevenueMap(items), p) == RevenueOf(items, p)
    ensures forall p :: p in Sold(items) <==> SoldIn(items, p)
    ensures forall i, j :: 0 <= i < j < |Sold(items)| ==> Sold(items)[i] != Sold(items)[j]
  {
    if items != [] {
      var init := items[..|items| - 1];
      MergedTotals(init);
      forall p | SoldIn(init, p)
        ensures SoldIn(items, p)
      {
        var k :| 0 <= k < |init| && init[k].productId == p;
        assert items[k].productId == p;
      }
      forall p | SoldIn(items, p) && p != items[|items| - 1].productId
        ensures SoldIn(init, p)
      {
        var k :| 0 <= k < |items| && items[k].productId == p;
        assert init[k].productId == p;
      }
      assert SoldIn(items, items[|items| - 1].productId) by {
        assert items[|items| - 1].productId == items[|items| - 1].productId;
      }
    }
  }

  /** The comparator: more units sold first. */
  function MoreSold(quantities: map<int, int>): (int, int) -> bool {
    (a: int, b: int) => Get(quantities, a) >= Get(quantities, b)
  }

  lemma MoreSoldIsPreorder(quantities: map<int, int>)
    ensures Sorting.TotalPreorder(MoreSold(quantities))
  {
  }

  /** All products sold, best sellers first. */
  function Ranked(items: seq<OrderItem>): seq<int> {
    Sorting.SortBy(Sold(items), MoreSold(QuantityMap(items)))
  }

  /** The products that make the list. */
  function TopIds(items: seq<OrderItem>): seq<int> {
    var ranked := Ranked(items);
    if |ranked| <= TopCount then ranked else ranked[..TopCount]
  }

  function NameOf(products: seq<ProductRow>, productId: int): Option<string> {
    match ProductById(products, productId)
    case Some(i) => products[i].name
    case None => None
  }

  /** `getTopSellingProducts`, as a value. */
  function TopSelling(items: seq<OrderItem>, products: seq<ProductRow>): seq<ProductSales> {
    var top := TopIds(items);
    seq(|top|, i requires 0 <= i < |top| =>
      ProductSales(NameOf(products, top[i]), Get(QuantityMap(items), top[i]),
                   GetReal(RevenueMap(items), top[i])))
  }

  /** The products on the list: at most ten distinct products sold, in
      non-increasing quantity, and none left off sold more than the last. */
  lemma TopIdsFacts(items: seq<OrderItem>)
    ensures |TopIds(items)| <= TopCount
    ensures forall i, j :: 0 <= i < j < |TopIds(items)| ==> TopIds(items)[i] != TopIds(items)[j]
    ensures forall i, j :: 0 <= i < j < |TopIds(items)| ==>
      QuantitySold(items, TopIds(items)[i]) >= QuantitySold(items, TopIds(items)[j])
    ensures forall i :: 0 <= i < |TopIds(items)| ==> TopIds(items)[i] in Sold(items)
    ensures forall p :: p in Sold(items) && p !in TopIds(items) ==>
      |TopIds(items)| == TopCount &&
      QuantitySold(items, p) <= QuantitySold(items, TopIds(items)[TopCount - 1])
  {
    var q := QuantityMap(items);
    var ranked := Ranked(items);
    var top := TopIds(items);
    MergedTotals(items);
    RankedFacts(items);
    assert top == ranked[..|top|];
    forall i | 0 <= i < |top| ensures top[i] in Sold(items) {
      assert top[i] == ranked[i];
    }
    forall p | p in Sold(items) && p !in top
      ensures |top| == TopCount && QuantitySold(items, p) <= QuantitySold(items, top[TopCount - 1])
    {
      var k :| 0 <= k < |ranked| && ranked[k] == p;
      assert k >= TopCount;
      assert MoreSold(q)(ranked[TopCount - 1], ranked[k]);
    }
  }

  /** At most ten entries, in non-increasing quantity, each a distinct
      product that was sold, with its total quantity and revenue; and no
      product left off the list sold more than the last one on it. */
  lemma TopSellingFacts(items: seq<OrderItem>, products: seq<ProductRow>)
    ensures |TopSelling(items, products)| <= TopCount
    ensures |TopSelling(items, products)| == |TopIds(items)|
    ensures forall i :: 0 <= i < |TopIds(items)| ==>
      TopIds(items)[i] in Sold(items) &&
      TopSelling(items, products)[i] ==
        ProductSales(NameOf(products, TopIds(items)[i]), QuantitySold(items, TopIds(items)[i]),
                     RevenueOf(items, TopIds(items)[i]))
    ensures forall i, j :: 0 <= i < j < |TopIds(items)| ==> TopIds(items)[i] != TopIds(items)[j]
    ensures forall i, j :: 0 <= i < j < |TopSelling(items, products)| ==>
      TopSelling(items, products)[i].quantity >= TopSelling(items, products)[j].quantity
    ensures forall p :: p in Sold(items) && p !in TopIds(items) ==>
      |TopIds(items)| == TopCount &&
      QuantitySold(items, p) <= TopSelling(items, products)[TopCount - 1].quantity
  {
    MergedTotals(items);
    TopIdsFacts(items);
  }

  /** The ranking is a rearrangement of the products sold, without repeats
      and with the best sellers first. */
  lemma RankedFacts(items: seq<OrderItem>)
    ensures multiset(Ranked(items)) == multiset(Sold(items))
    ensures forall p :: p in Ranked(items) <==> p in Sold(items)
    ensures forall i, j :: 0 <= i < j < |Ranked(items)| ==> Ranked(items)[i] != Ranked(items)[j]
    ensures forall i, j :: 0 <= i < j < |Ranked(items)| ==>
      Get(QuantityMap(items), Ranked(items)[i]) >= Get(QuantityMap(items), Ranked(items)[j])
  {
    var q := QuantityMap(items);
    var ranked := Ranked(items);
    MergedTotals(items);
    MoreSoldIsPreorder(q);
    Sorting.SortBySorted(Sold(items), MoreSold(q));
    forall p ensures p in ranked <==> p in Sold(items) {
      assert p in ranked <==> p in multiset(ranked);
    }
    DistinctPermutation(Sold(items), ranked);
  }

  lemma DistinctPermutation(a: seq<int>, b: seq<int>)
    requires multiset(a) == multiset(b)
    requires forall i, j :: 0 <= i < j < |a| ==> a[i] != a[j]
    ensures forall i, j :: 0 <= i < j < |b| ==> b[i] != b[j]
  {
    forall i, j | 0 <= i < j < |b| ensures b[i] != b[j] {
      if b[i] == b[j] {
        TwoOccurrences(b, i, j);
        NoRepeatsCountOne(a, b[i]);
      }
    }
  }

  lemma TwoOccurrences(b: seq<int>, i: int, j: int)
    requires 0 <= i < j < |b| && b[i] == b[j]
    ensures multiset(b)[b[i]] >= 2
  {
    assert b == b[..j] + b[j..];
    assert b[i] in b[..j];
    assert b[j] == b[j..][0];
    assert multiset(b) == multiset(b[..j]) + multiset(b[j..]);
  }

  lemma {:induction false} NoRepeatsCountOne(s: seq<int>, x: int)
    requires forall i, j :: 0 <= i < j < |s| ==> s[i] != s[j]
    ensures multiset(s)[x] <= 1
  {
    if s != [] {
      NoRepeatsCountOne(s[1..], x);
      assert s == [s[0]] + s[1..];
      if s[0] == x {
        assert x !in s[1..];
      }
    }
  }

  /** The loop of `getTopSellingProducts`: merge every item into the quantity
      and revenue maps, then rank, cut to ten and name the entries. */
  method TopSellingProducts(items: seq<OrderItem>, products: seq<ProductRow>) returns (r: seq<ProductSales>)
    ensures r == TopSelling(items, products)
  {
    var quantities: map<int, int> := map[];
    var revenues: map<int, real> := map[];
    var sold: seq<int> := [];
    for i := 0 to |items|
      invariant quantities == QuantityMap(items[..i])
      invariant revenues == RevenueMap(items[..i])
      invariant sold == Sold(items[..i])
    {
      var it := items[i];
      assert items[..i + 1][..i] == items[..i];
      assert items[..i + 1][i] == it;
      if it.productId !in sold {
        sold := sold + [it.productId];
      }
      quantities := quantities[it.productId := Get(quantities, it.productId) + it.quantity];
      revenues := revenues[it.productId := GetReal(revenues, it.productId) + LineRevenue(it)];
    }
    assert items[..|items|] == items;
    var ranked := Sorting.SortBy(sold, MoreSold(quantities));
    var top := if |ranked| <= TopCount then ranked else ranked[..TopCount];
    r := [];
    for i := 0 to |top|
      invariant |r| == i
      invariant forall j :: 0 <= j < i ==>
        r[j] == ProductSales(NameOf(products, top[j]), Get(quantities, top[j]), GetReal(revenues, top[j]))
    {
      r := r + [ProductSales(NameOf(products, top[i]), Get(quantities, top[i]), GetReal(revenues, top[i]))];
    }
  }

  /** `getAnalytics`. The status distribution throws when an order has no
      status. */
  method GetAnalytics(db: Db, today: int, dateOf: int -> int) returns (r: Result<Report>)
    ensures !AllHaveStatus(db.orders) ==> r == Failure(NullKey)
    ensures AllHaveStatus(db.orders) ==> (r.Success? &&
      var a := r.value;
      a.totalUsers == |db.users| && a.totalProducts == |db.products| && a.totalOrders == |db.orders| &&
      a.pendingOrders == CountOf(db.orders, IsPending) &&
      a.completedOrders == CountOf(db.orders, IsCompleted) &&
      a.totalRevenue == Revenue(db.orders) &&
      |a.dailySales| == Window &&
      (forall i :: 0 <= i < Window ==>
        a.dailySales[i].date == today - Window + i &&
        a.dailySales[i].sales == SumOf(OnDay(db.orders, dateOf, a.dailySales[i].date), Amount) &&
        a.dailySales[i].orders == |OnDay(db.orders, dateOf, a.dailySales[i].date)|) &&
      a.statusDistribution == StatusDistribution(db.orders) &&
      a.paymentDistribution == PaymentDistribution(db.orders) &&
      a.topSelling == TopSelling(AllItems(db.orders), db.products))
  {
    var orders := db.orders;
    var daily := DailySalesData(orders, today, dateOf);
    if !AllHaveStatus(orders) {
      return Failure(NullKey);
    }
    var top := TopSellingProducts(AllItems(orders), db.products);
    return Success(Report(|db.users|, |db.products|, |orders|, Revenue(orders),
                          CountOf(orders, IsPending), CountOf(orders, IsCompleted), daily,
                          StatusDistribution(orders), PaymentDistribution(orders), top));
  }
}
