/** The read side of the alternate backend (`backend/server.js`): the sales
    listing with its optional date window and the dashboard summary. Dates
    arrive already parsed to the integer timestamps sales carry. */
module AltReports {
  import opened Common
  import opened Aggregation
  import opened AltStore

  const AltTopCount := 5
  const AltLowStockThreshold := 10

  function AltSaleTotalOf(s: AltSale): real { s.total }
  function AltItems(s: AltSale): seq<AltSaleItem> { s.items }
  function AltItemKey(i: AltSaleItem): Option<int> { i.productId }
  function AltItemQuantity(i: AltSaleItem): real { i.quantity as real }
  function AltStock(p: AltProduct): int { p.stock }

  // ---------------------------------------------------------------------------
  // The date window shared by the listing and the dashboard.

  function InWindow(start: int, end: int): AltSale -> bool {
    (s: AltSale) => start <= s.timestamp <= end
  }

  /** `if (startDate && endDate) filteredSales = sales.filter(...)`: the window
      applies only when both ends are given. */
  function WindowSales(sales: seq<AltSale>, start: Option<int>, end: Option<int>): (r: seq<AltSale>)
    ensures start.None? || end.None? ==> r == sales
    ensures start.Some? && end.Some? ==>
      forall s :: s in r <==> s in sales && start.value <= s.timestamp <= end.value
    ensures multiset(r) <= multiset(sales)
    ensures Subsequence(r, sales)
  {
    if start.Some? && end.Some? then
      FilterCount(sales, InWindow(start.value, end.value));
      FilterSubsequence(sales, InWindow(start.value, end.value));
      Filter(sales, InWindow(start.value, end.value))
    else
      SubsequenceRefl(sales);
      sales
  }

  // ---------------------------------------------------------------------------
  // `GET /api/sales`: every item paired with its product.

  /** `products.find(p => p.id === item.productId)`: the first product with the
      id; an absent id finds nothing. */
  function ProductFor(ps: seq<AltProduct>, id: Option<int>): (r: Option<AltProduct>)
    ensures r.Some? ==> id.Some? && r.value in ps && r.value.id == id.value
    ensures r.None? <==> id.None? || forall p :: p in ps ==> p.id != id.value
    ensures r.Some? ==> exists k :: 0 <= k < |ps| && ps[k] == r.value &&
                          forall j :: 0 <= j < k ==> ps[j].id != id.value
  {
    match AltIndex(ps, id)
    case None => None
    case Some(k) => Some(ps[k])
  }

  datatype ItemDetail = ItemDetail(item: AltSaleItem, product: Option<AltProduct>)
  datatype SaleDetail = SaleDetail(sale: AltSale, items: seq<ItemDetail>)

  function Detailed(ps: seq<AltProduct>, s: AltSale): SaleDetail {
    SaleDetail(s, seq(|s.items|, j requires 0 <= j < |s.items| => ItemDetail(s.items[j], ProductFor(ps, s.items[j].productId))))
  }

  /** Each item of a sale is shown with the first product of its id, if any. */
  lemma DetailedFacts(ps: seq<AltProduct>, s: AltSale)
    ensures var d := Detailed(ps, s);
      && d.sale == s
      && |d.items| == |s.items|
      && forall j :: 0 <= j < |d.items| ==>
           d.items[j].item == s.items[j] &&
           (d.items[j].product.Some? ==> d.items[j].product.value in ps &&
                                         Some(d.items[j].product.value.id) == s.items[j].productId) &&
           (d.items[j].product.None? <==> AltIndex(ps, s.items[j].productId).None?)
  {
  }

  function ListSales(ps: seq<AltProduct>, sales: seq<AltSale>, start: Option<int>, end: Option<int>)
    : seq<SaleDetail>
  {
    var picked := WindowSales(sales, start, end);
    seq(|picked|, i requires 0 <= i < |picked| => Detailed(ps, picked[i]))
  }

  /** The sales a listing shows, in its order. */
  function SalesOf(r: seq<SaleDetail>): (sales: seq<AltSale>)
    ensures |sales| == |r| && forall i :: 0 <= i < |r| ==> sales[i] == r[i].sale
  {
    seq(|r|, i requires 0 <= i < |r| => r[i].sale)
  }

  /** The listing shows exactly the windowed sales, in the order they were recorded. */
  lemma ListedInOrder(ps: seq<AltProduct>, sales: seq<AltSale>, start: Option<int>, end: Option<int>)
    ensures SalesOf(ListSales(ps, sales, start, end)) == WindowSales(sales, start, end)
    ensures Subsequence(SalesOf(ListSales(ps, sales, start, end)), sales)
  {
  }

  /** The listing is the windowed sales in order, each item kept as it was sold
      and shown with a product of its id when the catalogue has one. */
  lemma ListSalesFacts(ps: seq<AltProduct>, sales: seq<AltSale>, start: Option<int>, end: Option<int>)
    ensures var r := ListSales(ps, sales, start, end);
      && (start.None? || end.None? ==> |r| == |sales|)
      && (forall d :: d in r ==> d.sale in sales)
      && (start.Some? && end.Some? ==>
            forall s :: s in sales ==> ((exists d :: d in r && d.sale == s) <==> start.value <= s.timestamp <= end.value))
      && (forall d :: d in r ==>
            |d.items| == |d.sale.items| &&
            forall j :: 0 <= j < |d.items| ==>
              d.items[j].item == d.sale.items[j] &&
              (d.items[j].product.Some? ==> d.items[j].product.value in ps &&
                                            Some(d.items[j].product.value.id) == d.sale.items[j].productId) &&
              (d.items[j].product.None? <==> AltIndex(ps, d.sale.items[j].productId).None?))
  {
    var r := ListSales(ps, sales, start, end);
    ListedSales(ps, sales, start, end);
    forall d | d in r
      ensures |d.items| == |d.sale.items| &&
        forall j :: 0 <= j < |d.items| ==>
          d.items[j].item == d.sale.items[j] &&
          (d.items[j].product.Some? ==> d.items[j].product.value in ps &&
                                        Some(d.items[j].product.value.id) == d.sale.items[j].productId) &&
          (d.items[j].product.None? <==> AltIndex(ps, d.sale.items[j].productId).None?)
    {
      DetailedFacts(ps, d.sale);
    }
    if start.Some? && end.Some? {
      ListedWindow(ps, sales, start.value, end.value);
    }
  }

  /** Each listed entry details a recorded sale. */
  lemma ListedSales(ps: seq<AltProduct>, sales: seq<AltSale>, start: Option<int>, end: Option<int>)
    ensures var r := ListSales(ps, sales, start, end);
      forall d :: d in r ==> d.sale in sales && d == Detailed(ps, d.sale)
  {
    var picked := WindowSales(sales, start, end);
    var r := ListSales(ps, sales, start, end);
    forall d | d in r ensures d.sale in sales && d == Detailed(ps, d.sale) {
      var i :| 0 <= i < |r| && r[i] == d;
      assert r[i] == Detailed(ps, picked[i]);
      assert picked[i] in multiset(picked);
    }
  }

  /** With both bounds, a sale is listed exactly when its timestamp is inside them. */
  lemma ListedWindow(ps: seq<AltProduct>, sales: seq<AltSale>, start: int, end: int)
    ensures var r := ListSales(ps, sales, Some(start), Some(end));
      forall s :: s in sales ==> ((exists d :: d in r && d.sale == s) <==> start <= s.timestamp <= end)
  {
    var picked := WindowSales(sales, Some(start), Some(end));
    var r := ListSales(ps, sales, Some(start), Some(end));
    ListedSales(ps, sales, Some(start), Some(end));
    forall s | s in sales
      ensures (exists d :: d in r && d.sale == s) <==> start <= s.timestamp <= end
    {
      if start <= s.timestamp <= end {
        var i :| 0 <= i < |picked| && picked[i] == s;
        assert r[i] in r && r[i].sale == s;
      }
    }
  }

  // ---------------------------------------------------------------------------
  // `GET /api/dashboard/summary`.

  /** Where `Object.entries` puts a key of `productSales`: ids that are array
      indices in ascending order, then the key `"undefined"` of lines sent
      without a product id. The rank of `"undefined"` is not an integer, so no
      two keys share a rank. */
  function AltKeyRank(k: Option<int>): real {
    match k
    case None => 4294967294.5
    case Some(v) => v as real
  }

  /** Every sold id is an array index (0 to 2^32 - 2). */
  predicate ArrayIndexIds(ks: set<Option<int>>) {
    forall k :: k in ks && k.Some? ==> 0 <= k.value < 4294967295
  }

  /** Distinct keys have distinct ranks, whatever the ids. */
  lemma AltKeyRankInjective(ks: set<Option<int>>)
    ensures RankInjective(ks, AltKeyRank)
  {
    forall a, b | a in ks && b in ks && AltKeyRank(a) == AltKeyRank(b) ensures a == b {
      if a.Some? && b.None? {
        NotHalf(a.value);
      } else if a.None? && b.Some? {
        NotHalf(b.value);
      }
    }
  }

  /** No integer sits at the rank of `"undefined"`. */
  lemma NotHalf(v: int)
    ensures v as real != 4294967294.5
  {
    if v <= 4294967294 {
      assert v as real <= 4294967294.0;
    } else {
      assert v as real >= 4294967295.0;
    }
  }

  /** Under array-index ids, `"undefined"` ranks after every id. */
  lemma UndefinedRanksLast(ks: set<Option<int>>)
    requires ArrayIndexIds(ks)
    ensures forall k :: k in ks && k.Some? ==> AltKeyRank(k) < AltKeyRank(None)
  {
  }

  /** The sold keys of the sales, `None` standing for lines without a product id. */
  function SoldKeys(sales: seq<AltSale>): set<Option<int>> {
    Keys(Nested(sales, AltItems, AltItemKey, AltItemQuantity))
  }

  /** Units sold under key `k`. */
  function UnitsSold(sales: seq<AltSale>, k: Option<int>): real {
    NestedSum(sales, AltItems, AltItemKey, AltItemQuantity, k)
  }

  datatype AltRanked = AltRanked(product: Option<AltProduct>, quantity: real)

  /** The summary; its totals are those of `TotalsOf` over the sales in the window. */
  datatype AltDashboard = AltDashboard(
    totals: Totals, topSellingProducts: seq<AltRanked>, lowStockProducts: seq<AltProduct>)

  function AltRanking(sales: seq<AltSale>): (r: seq<(Option<int>, real)>)
    ensures |r| <= AltTopCount
  {
    Ranking(sales, AltItems, AltItemKey, AltItemQuantity, AltKeyRank, AltTopCount)
  }

  /** Each ranked key with the first product of that id. */
  function AltRankedRows(ps: seq<AltProduct>, ranking: seq<(Option<int>, real)>): (r: seq<AltRanked>)
    ensures |r| == |ranking|
    ensures forall i :: 0 <= i < |r| ==>
      r[i].quantity == ranking[i].1 && r[i].product == ProductFor(ps, ranking[i].0)
  {
    seq(|ranking|, i requires 0 <= i < |ranking| => AltRanked(ProductFor(ps, ranking[i].0), ranking[i].1))
  }

  function AltSummary(ps: seq<AltProduct>, sales: seq<AltSale>, start: Option<int>, end: Option<int>)
    : AltDashboard
  {
    var picked := WindowSales(sales, start, end);
    AltDashboard(
      TotalsOf(picked, AltSaleTotalOf),
      AltRankedRows(ps, AltRanking(picked)),
      LowStock(ps, AltStock, AltLowStockThreshold))
  }

  /** At most five best sellers, each with the units sold under its key and the
      first product of that id (none for lines without an id). */
  lemma AltTopSellersEntries(ps: seq<AltProduct>, sales: seq<AltSale>, start: Option<int>, end: Option<int>)
    ensures var picked := WindowSales(sales, start, end);
      var ranking := AltRanking(picked);
      var top := AltSummary(ps, sales, start, end).topSellingProducts;
      && |top| == |ranking| <= AltTopCount
      && forall i :: 0 <= i < |top| ==>
           ranking[i].0 in SoldKeys(picked) &&
           top[i].product == ProductFor(ps, ranking[i].0) &&
           top[i].quantity == UnitsSold(picked, ranking[i].0)
  {
    var picked := WindowSales(sales, start, end);
    AltKeyRankInjective(SoldKeys(picked));
    RankingEntries(picked, AltItems, AltItemKey, AltItemQuantity, AltKeyRank, AltTopCount);
  }

  /** Best first; equal quantities in `Object.entries` key order. */
  lemma AltTopSellersOrder(ps: seq<AltProduct>, sales: seq<AltSale>, start: Option<int>, end: Option<int>)
    requires ArrayIndexIds(SoldKeys(WindowSales(sales, start, end)))
    ensures var ranking := AltRanking(WindowSales(sales, start, end));
      var top := AltSummary(ps, sales, start, end).topSellingProducts;
      forall i, j :: 0 <= i < j < |top| ==>
        top[i].quantity > top[j].quantity ||
        (top[i].quantity == top[j].quantity && AltKeyRank(ranking[i].0) < AltKeyRank(ranking[j].0))
  {
    var picked := WindowSales(sales, start, end);
    AltKeyRankInjective(SoldKeys(picked));
    RankingOrder(picked, AltItems, AltItemKey, AltItemQuantity, AltKeyRank, AltTopCount);
  }

  /** A sold key left out means five are listed, each selling at least as much. */
  lemma AltTopSellersComplete(ps: seq<AltProduct>, sales: seq<AltSale>, start: Option<int>, end: Option<int>)
    ensures var picked := WindowSales(sales, start, end);
      var ranking := AltRanking(picked);
      var top := AltSummary(ps, sales, start, end).topSellingProducts;
      forall k :: k in SoldKeys(picked) && (forall i :: 0 <= i < |ranking| ==> ranking[i].0 != k) ==>
        |top| == AltTopCount && forall i :: 0 <= i < |top| ==> UnitsSold(picked, k) <= top[i].quantity
  {
    AltRankedComplete(ps, WindowSales(sales, start, end));
  }

  lemma AltRankedComplete(ps: seq<AltProduct>, picked: seq<AltSale>)
    ensures var ranking := AltRanking(picked);
      var top := AltRankedRows(ps, ranking);
      forall k :: k in SoldKeys(picked) && (forall i :: 0 <= i < |ranking| ==> ranking[i].0 != k) ==>
        |top| == AltTopCount && forall i :: 0 <= i < |top| ==> UnitsSold(picked, k) <= top[i].quantity
  {
    AltKeyRankInjective(SoldKeys(picked));
    RankingComplete(picked, AltItems, AltItemKey, AltItemQuantity, AltKeyRank, AltTopCount);
  }

  /** Low stock lists exactly the products under 10 units, in ascending stock order. */
  lemma AltLowStock(ps: seq<AltProduct>, sales: seq<AltSale>, start: Option<int>, end: Option<int>)
    ensures var low := AltSummary(ps, sales, start, end).lowStockProducts;
      && (forall p :: p in low <==> p in ps && p.stock < AltLowStockThreshold)
      && (forall p :: multiset(low)[p] == if p.stock < AltLowStockThreshold then multiset(ps)[p] else 0)
      && (forall i, j :: 0 <= i < j < |low| ==> low[i].stock <= low[j].stock)
  {
    AltLowStockList(ps);
  }

  lemma AltLowStockList(ps: seq<AltProduct>)
    ensures var low := LowStock(ps, AltStock, AltLowStockThreshold);
      && (forall p :: p in low <==> p in ps && p.stock < AltLowStockThreshold)
      && (forall p :: multiset(low)[p] == if p.stock < AltLowStockThreshold then multiset(ps)[p] else 0)
      && (forall i, j :: 0 <= i < j < |low| ==> low[i].stock <= low[j].stock)
  {
    LowStockSelects(ps, AltStock, AltLowStockThreshold);
  }

  function AltProductIdReal(p: AltProduct): real { p.id as real }

  /** In a catalogue whose ids ascend, products with equal stock are listed in
      catalogue order: the sort is stable. */
  lemma AltLowStockTies(ps: seq<AltProduct>, sales: seq<AltSale>, start: Option<int>, end: Option<int>)
    requires StrictlyAscending(ps, AltProductIdReal)
    ensures var low := AltSummary(ps, sales, start, end).lowStockProducts;
      forall i, j :: 0 <= i < j < |low| && low[i].stock == low[j].stock ==> low[i].id < low[j].id
  {
    LowStockTies(ps, AltStock, AltLowStockThreshold, AltProductIdReal);
  }
}
