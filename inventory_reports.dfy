/** The read-only aggregations of the primary backend (`backend/index.js`): the
    dashboard summary, the sales report and the products report. The date range
    of the dashboard arrives as a cutoff timestamp and the calendar day of a
    timestamp as a function, both computed by the caller from the clock. */
module InventoryReports {
  import opened Common
  import opened Aggregation
  import opened InventoryStore

  /** How many best sellers the dashboard shows. */
  const DashboardTopCount: nat := 5
  /** How many best sellers the products report lists. */
  const ReportTopCount: nat := 10
  /** A product is low on stock below this many units. */
  const LowStockThreshold: int := 10

  /** A best seller: the catalogue product for the id (`undefined` once the
      product is deleted) and the quantity sold (`totalSold` in the products report). */
  datatype Ranked = Ranked(product: Option<Product>, quantity: real)

  datatype DayTotal = DayTotal(day: int, total: real)

  datatype Dashboard = Dashboard(
    totalSales: real, totalTransactions: nat, averageTransaction: real,
    topSellingProducts: seq<Ranked>, lowStockProducts: seq<Product>,
    dailySales: seq<DayTotal>)

  datatype SalesSummary = SalesSummary(
    totalSales: real, totalTransactions: nat, averageTransaction: real,
    salesByPaymentMethod: seq<(string, real)>, salesByMember: seq<(string, real)>)

  datatype SalesReport = SalesReport(summary: SalesSummary, sales: seq<Sale>)

  /** `low-stock` and the default list products; `top-selling` ranks them. */
  datatype ProductsReport = ProductList(products: seq<Product>) | TopSelling(rows: seq<Ranked>)

  function SaleTotal(s: Sale): real { s.total }
  function ItemId(i: SaleItem): int { i.id }
  function ItemQuantity(i: SaleItem): real { i.quantity as real }
  function ProductStock(p: Product): int { p.stock }
  function ProductIdReal(p: Product): real { p.id as real }

  /** `products.find(p => p.id === id)`. */
  function ProductById(ps: seq<Product>, id: int): (r: Option<Product>)
    ensures r.Some? ==> r.value in ps && r.value.id == id
    ensures r.None? <==> forall p :: p in ps ==> p.id != id
  {
    match ProductIndex(ps, id)
    case None => None
    case Some(k) => Some(ps[k])
  }

  // ---------------------------------------------------------------------------
  // Quantities sold per product id.

  function SaleItems(s: Sale): seq<SaleItem> { s.items }

  /** The units of product `id` over all item lines of the sales. */
  function QuantitySold(sales: seq<Sale>, id: int): real {
    NestedSum(sales, SaleItems, ItemId, ItemQuantity, id)
  }

  /** The ids that occur in the item lines of the sales. */
  function SoldIds(sales: seq<Sale>): set<int> {
    Keys(Nested(sales, SaleItems, ItemId, ItemQuantity))
  }

  /** The `productSales` accumulator ranked and cut to `n` entries. */
  function SellerRanking(sales: seq<Sale>, n: nat): (r: seq<(int, real)>)
    ensures |r| <= n
  {
    Ranking(sales, SaleItems, ItemId, ItemQuantity, IdRank, n)
  }

  /** Each ranked id paired with its catalogue product. */
  function RankedRows(ps: seq<Product>, ranking: seq<(int, real)>): (r: seq<Ranked>)
    ensures |r| == |ranking|
    ensures forall i :: 0 <= i < |r| ==>
      r[i].quantity == ranking[i].1 && r[i].product == ProductById(ps, ranking[i].0)
  {
    seq(|ranking|, i requires 0 <= i < |ranking| => Ranked(ProductById(ps, ranking[i].0), ranking[i].1))
  }

  // ---------------------------------------------------------------------------
  // Dashboard summary.

  function Since(cutoff: int): Sale -> bool {
    (s: Sale) => s.timestamp >= cutoff
  }

  /** The range filter: sales at or after the cutoff, or all sales for an
      unrecognised range. */
  function InRange(sales: seq<Sale>, cutoff: Option<int>): (r: seq<Sale>)
    ensures forall s :: s in r <==> s in sales && (cutoff.Some? ==> s.timestamp >= cutoff.value)
  {
    match cutoff
    case None => sales
    case Some(c) => Filter(sales, Since(c))
  }

  function DayKey(dayOf: int -> int): Sale -> int {
    (s: Sale) => dayOf(s.timestamp)
  }

  function DayTotals(sales: seq<Sale>, dayOf: int -> int): seq<DayTotal> {
    var b := Buckets(sales, DayKey(dayOf), SaleTotal);
    seq(|b|, i requires 0 <= i < |b| => DayTotal(b[i].0, b[i].1))
  }

  /** Days come out strictly ascending, one entry per day. */
  lemma DayTotalsAscending(sales: seq<Sale>, dayOf: int -> int)
    ensures var r := DayTotals(sales, dayOf);
      forall i, j :: 0 <= i < j < |r| ==> r[i].day < r[j].day
  {
    BucketsAscending(sales, DayKey(dayOf), SaleTotal);
  }

  /** The days listed are exactly the days on which there are sales. */
  lemma DayTotalsCoverDays(sales: seq<Sale>, dayOf: int -> int)
    ensures var r := DayTotals(sales, dayOf);
      && (forall i :: 0 <= i < |r| ==> exists s :: s in sales && dayOf(s.timestamp) == r[i].day)
      && (forall s :: s in sales ==> exists i :: 0 <= i < |r| && r[i].day == dayOf(s.timestamp))
  {
    var key := DayKey(dayOf);
    var b := Buckets(sales, key, SaleTotal);
    var r := DayTotals(sales, dayOf);
    BucketsCover(sales, key, SaleTotal);
    forall i | 0 <= i < |r| ensures exists s :: s in sales && dayOf(s.timestamp) == r[i].day {
      assert b[i].0 in Keys(b);
      var s :| s in sales && key(s) == b[i].0;
    }
    forall s | s in sales ensures exists i :: 0 <= i < |r| && r[i].day == dayOf(s.timestamp) {
      assert key(s) in Keys(b);
      var e :| e in b && e.0 == key(s);
      var i :| 0 <= i < |b| && b[i] == e;
      assert r[i].day == e.0;
    }
  }

  /** Each day's entry is the sum of the totals of that day's sales. */
  lemma DayTotalsSums(sales: seq<Sale>, dayOf: int -> int)
    ensures var r := DayTotals(sales, dayOf);
      forall i :: 0 <= i < |r| ==>
        r[i].total == Sum(Filter(sales, KeyIs(DayKey(dayOf), r[i].day)), SaleTotal)
  {
    BucketsSums(sales, DayKey(dayOf), SaleTotal);
  }

  /** `GET /api/dashboard/summary`. */
  function DashboardSummary(products: seq<Product>, sales: seq<Sale>, cutoff: Option<int>,
                            dayOf: int -> int): Dashboard
  {
    var picked := InRange(sales, cutoff);
    var totals := TotalsOf(picked, SaleTotal);
    Dashboard(
      totals.totalSales, totals.totalTransactions, totals.averageTransaction,
      RankedRows(products, SellerRanking(picked, DashboardTopCount)),
      LowStock(products, ProductStock, LowStockThreshold),
      DayTotals(picked, dayOf))
  }

  /** The rows of a seller ranking: each ranked id with its catalogue product
      and total quantity, best first with ties by ascending id, and a sold
      product left out means the list is full of products that sold at least
      as much. */
  lemma SellerRows(products: seq<Product>, sales: seq<Sale>, n: nat)
    ensures var ranking := SellerRanking(sales, n);
      var rows := RankedRows(products, ranking);
      && |rows| == |ranking| <= n
      && (forall i :: 0 <= i < |rows| ==>
            rows[i].product == ProductById(products, ranking[i].0) &&
            rows[i].quantity == QuantitySold(sales, ranking[i].0))
      && (forall i, j :: 0 <= i < j < |rows| ==>
            rows[i].quantity > rows[j].quantity ||
            (rows[i].quantity == rows[j].quantity && ranking[i].0 < ranking[j].0))
      && (forall k :: k in SoldIds(sales) && (forall i :: 0 <= i < |ranking| ==> ranking[i].0 != k) ==>
            |rows| == n &&
            forall i :: 0 <= i < |rows| ==> QuantitySold(sales, k) <= rows[i].quantity)
  {
    IdRankInjective(SoldIds(sales));
    RankingEntries(sales, SaleItems, ItemId, ItemQuantity, IdRank, n);
    RankingOrder(sales, SaleItems, ItemId, ItemQuantity, IdRank, n);
    RankingComplete(sales, SaleItems, ItemId, ItemQuantity, IdRank, n);
  }

  /** At most five best sellers: each with its catalogue product and its total
      quantity over the sales in range, best first with ties by ascending id, and
      a sold product missing from the list sold no more than any listed one. */
  lemma DashboardTopSellers(products: seq<Product>, sales: seq<Sale>, cutoff: Option<int>, dayOf: int -> int)
    ensures var picked := InRange(sales, cutoff);
      var ranking := SellerRanking(picked, DashboardTopCount);
      var top := DashboardSummary(products, sales, cutoff, dayOf).topSellingProducts;
      && |top| == |ranking| <= DashboardTopCount
      && (forall i :: 0 <= i < |top| ==>
            top[i].product == ProductById(products, ranking[i].0) &&
            top[i].quantity == QuantitySold(picked, ranking[i].0))
      && (forall i, j :: 0 <= i < j < |top| ==>
            top[i].quantity > top[j].quantity ||
            (top[i].quantity == top[j].quantity && ranking[i].0 < ranking[j].0))
      && (forall k :: k in SoldIds(picked) && (forall i :: 0 <= i < |ranking| ==> ranking[i].0 != k) ==>
            |top| == DashboardTopCount &&
            forall i :: 0 <= i < |top| ==> QuantitySold(picked, k) <= top[i].quantity)
  {
    SellerRows(products, InRange(sales, cutoff), DashboardTopCount);
  }

  /** Low stock lists exactly the products under 10 units, ascending by stock,
      and products with equal stock in catalogue (ascending id) order. */
  lemma DashboardLowStock(products: seq<Product>, sales: seq<Sale>, cutoff: Option<int>, dayOf: int -> int)
    requires IncreasingIds(products, ProductIdOf)
    ensures var low := DashboardSummary(products, sales, cutoff, dayOf).lowStockProducts;
      && (forall p :: p in low <==> p in products && p.stock < LowStockThreshold)
      && (forall p :: multiset(low)[p] == if p.stock < LowStockThreshold then multiset(products)[p] else 0)
      && (forall i, j :: 0 <= i < j < |low| ==>
            low[i].stock < low[j].stock || (low[i].stock == low[j].stock && low[i].id < low[j].id))
  {
    LowStockSelects(products, ProductStock, LowStockThreshold);
    assert StrictlyAscending(products, ProductIdReal) by {
      forall i, j | 0 <= i < j < |products| ensures ProductIdReal(products[i]) < ProductIdReal(products[j]) {
        assert ProductIdOf(products[i]) < ProductIdOf(products[j]);
      }
    }
    LowStockTies(products, ProductStock, LowStockThreshold, ProductIdReal);
  }

  /** The daily series: one entry per calendar day with sales in range, days
      strictly ascending, each holding the sum of that day's totals. */
  lemma DashboardDaily(products: seq<Product>, sales: seq<Sale>, cutoff: Option<int>, dayOf: int -> int)
    ensures var picked := InRange(sales, cutoff);
      var daily := DashboardSummary(products, sales, cutoff, dayOf).dailySales;
      && (forall i, j :: 0 <= i < j < |daily| ==> daily[i].day < daily[j].day)
      && (forall i :: 0 <= i < |daily| ==> exists s :: s in picked && dayOf(s.timestamp) == daily[i].day)
      && (forall s :: s in picked ==> exists i :: 0 <= i < |daily| && daily[i].day == dayOf(s.timestamp))
      && (forall i :: 0 <= i < |daily| ==>
            daily[i].total == Sum(Filter(picked, KeyIs(DayKey(dayOf), daily[i].day)), SaleTotal))
  {
    var picked := InRange(sales, cutoff);
    DayTotalsAscending(picked, dayOf);
    DayTotalsCoverDays(picked, dayOf);
    DayTotalsSums(picked, dayOf);
  }

  // ---------------------------------------------------------------------------
  // Sales report.

  function Between(start: int, end: int): Sale -> bool {
    (s: Sale) => start <= s.timestamp <= end
  }

  /** `sale.paymentMethod || 'cash'`. */
  function PaymentKey(s: Sale): string {
    if Truthy(s.paymentMethod) then s.paymentMethod.value else "cash"
  }

  /** `sale.memberId ? 'member' : 'non-member'`. */
  function MemberKey(s: Sale): string {
    if TruthyInt(s.memberId) then "member" else "non-member"
  }

  /** `GET /api/reports/sales`: 400 unless both ends of the range are given. */
  function SalesReportFor(sales: seq<Sale>, start: Option<int>, end: Option<int>): (r: Reply<SalesReport>)
    ensures r.BadRequest? <==> start.None? || end.None?
    ensures !r.NotFound?
    ensures r.Ok? ==>
      && (forall s :: s in r.value.sales <==> s in sales && start.value <= s.timestamp <= end.value)
      && Subsequence(r.value.sales, sales)
      && r.value.summary.totalTransactions == |r.value.sales|
      && DistinctKeys(r.value.summary.salesByPaymentMethod)
      && DistinctKeys(r.value.summary.salesByMember)
  {
    if start.None? || end.None? then BadRequest
    else
      var picked := Filter(sales, Between(start.value, end.value));
      FilterSubsequence(sales, Between(start.value, end.value));
      var totals := TotalsOf(picked, SaleTotal);
      Ok(SalesReport(
        SalesSummary(totals.totalSales, totals.totalTransactions, totals.averageTransaction,
                     Tally(Pairs(picked, PaymentKey, SaleTotal)),
                     Tally(Pairs(picked, MemberKey, SaleTotal))),
        picked))
  }

  /** Each payment-method entry sums the totals of the sales paid that way (an
      unset method counting as cash), the methods listed are exactly those used,
      each member-kind entry sums the totals of the sales of that kind, the
      kinds listed are exactly those present, and the member and non-member
      amounts split the report's total. */
  lemma SalesReportSplits(sales: seq<Sale>, start: int, end: int)
    ensures var report := SalesReportFor(sales, Some(start), Some(end)).value;
      var picked := report.sales;
      var byMethod := report.summary.salesByPaymentMethod;
      var byMember := report.summary.salesByMember;
      && (forall i :: 0 <= i < |byMethod| ==>
            byMethod[i].1 == Sum(Filter(picked, KeyIs(PaymentKey, byMethod[i].0)), SaleTotal))
      && Keys(byMethod) == (set s | s in picked :: PaymentKey(s))
      && (forall i :: 0 <= i < |byMember| ==>
            byMember[i].1 == Sum(Filter(picked, KeyIs(MemberKey, byMember[i].0)), SaleTotal))
      && Keys(byMember) == (set s | s in picked :: MemberKey(s))
      && (Amount(Pairs(picked, MemberKey, SaleTotal), "member") +
          Amount(Pairs(picked, MemberKey, SaleTotal), "non-member") == report.summary.totalSales)
  {
    var picked := Filter(sales, Between(start, end));
    var pairs := Pairs(picked, PaymentKey, SaleTotal);
    TallyAmounts(pairs);
    forall i | 0 <= i < |Tally(pairs)|
      ensures Tally(pairs)[i].1 == Sum(Filter(picked, KeyIs(PaymentKey, Tally(pairs)[i].0)), SaleTotal)
    {
      AmountOfPairs(picked, PaymentKey, SaleTotal, Tally(pairs)[i].0);
    }
    KeysOfPairs(picked, PaymentKey, SaleTotal);
    var kinds := Pairs(picked, MemberKey, SaleTotal);
    TallyAmounts(kinds);
    forall i | 0 <= i < |Tally(kinds)|
      ensures Tally(kinds)[i].1 == Sum(Filter(picked, KeyIs(MemberKey, Tally(kinds)[i].0)), SaleTotal)
    {
      AmountOfPairs(picked, MemberKey, SaleTotal, Tally(kinds)[i].0);
    }
    KeysOfPairs(picked, MemberKey, SaleTotal);
    AmountOfPairs(picked, MemberKey, SaleTotal, "member");
    AmountOfPairs(picked, MemberKey, SaleTotal, "non-member");
    SumSplits(picked, MemberKey, SaleTotal, "member", "non-member");
  }

  // ---------------------------------------------------------------------------
  // Products report.

  function LowStockOf(p: Product): bool { p.stock < LowStockThreshold }

  /** `GET /api/reports/products?type=...`. */
  function ProductsReportFor(products: seq<Product>, sales: seq<Sale>, kind: string): (r: ProductsReport)
    ensures kind == "top-selling" <==> r.TopSelling?
    ensures kind == "low-stock" ==>
      && (forall p :: p in r.products <==> p in products && p.stock < LowStockThreshold)
      && Subsequence(r.products, products)
    ensures kind != "low-stock" && kind != "top-selling" ==> r.products == products
    ensures r.TopSelling? ==> |r.rows| <= ReportTopCount
  {
    if kind == "low-stock" then
      FilterSubsequence(products, LowStockOf);
      ProductList(Filter(products, LowStockOf))
    else if kind == "top-selling" then TopSelling(RankedRows(products, SellerRanking(sales, ReportTopCount)))
    else ProductList(products)
  }

  /** The low-stock listing keeps catalogue order and every copy of a low
      product; the top-selling listing ranks all sales ever made, best first. */
  lemma ProductsReportFacts(products: seq<Product>, sales: seq<Sale>)
    ensures var low := ProductsReportFor(products, sales, "low-stock").products;
      forall p :: multiset(low)[p] == if p.stock < LowStockThreshold then multiset(products)[p] else 0
    ensures var ranking := SellerRanking(sales, ReportTopCount);
      var rows := ProductsReportFor(products, sales, "top-selling").rows;
      && |rows| == |ranking|
      && (forall i :: 0 <= i < |rows| ==>
            rows[i].product == ProductById(products, ranking[i].0) &&
            rows[i].quantity == QuantitySold(sales, ranking[i].0))
      && (forall i, j :: 0 <= i < j < |rows| ==>
            rows[i].quantity > rows[j].quantity ||
            (rows[i].quantity == rows[j].quantity && ranking[i].0 < ranking[j].0))
      && (forall k :: k in SoldIds(sales) && (forall i :: 0 <= i < |ranking| ==> ranking[i].0 != k) ==>
            |rows| == ReportTopCount &&
            forall i :: 0 <= i < |rows| ==> QuantitySold(sales, k) <= rows[i].quantity)
  {
    FilterCount(products, LowStockOf);
    SellerRows(products, sales, ReportTopCount);
  }
}
