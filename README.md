# Barcode point-of-sale and inventory: a Dafny model

This project models the core of a small point-of-sale and inventory system. It
has two Express backends and a React cashier screen with two list managers:

- **Primary backend** (`backend/index.js`). It holds products, a stock-movement
  log, members, member transactions and sales in in-memory arrays. Its handlers
  create, edit, delete and scan products, adjust stock one product at a time or
  for a whole cart, register members and record sales with member pricing. Its
  read-only routes build the dashboard summary, the sales report and the
  products report. Module `InventoryStore` holds the state: its class `Store`
  has one method per mutating handler, each proved against pure functions.
  Module `InventoryReports` holds the aggregations.
- **Alternate backend** (`backend/server.js`, port 5001). It has a looser
  product store: a request body is spread over the record, product ids need not
  be unique, and sales take stock off without a check. It also has a sales
  listing with a date window and its own dashboard. These are modules
  `AltStore` (class `Store`) and `AltReports`.
- **Cashier screen** (`src/components/POS.js`). It covers the cart updates
  (click, scan, remove, quantity), the totals preview, the cash form, the
  checkout guards and the two request payloads, and the reset. This is module
  `PosCart`.
- **Customer and user managers** (`src/components/CustomerManager.js`,
  `src/components/UserManager.js`). Each covers submit (add or edit), edit and
  delete on a local list. These are modules `CustomerManager` and `UserManager`.

The shared modules are:

- `Common`: JavaScript semantics.
  - `undefined` as `Option`;
  - truthiness, written out for strings, numbers and ids;
  - `findIndex` / `find`, `filter`, and the stable `sort`;
  - Express replies as `Ok` / `BadRequest` / `NotFound`.
- `Aggregation`: the reduction patterns the reports use.
  - `reduce` sums and the totals/average triple;
  - the `acc[key] += val` accumulator followed by `Object.entries`, with
    `Object.entries` listing integer keys in ascending order;
  - the top-N ranking by a stable descending sort;
  - the low-stock filter-then-sort.

Every mutating handler is a method on a `class` whose fields are the arrays the
source mutates. Each such method's postcondition ties the new state and the
reply to a pure function of the old state. The properties are proved about that
function. Cart and form updates in the React components return new lists
through `setState` callbacks, so they are modelled as functions.

Conventions:

- Money, prices and discounts are `real`.
- Timestamps are `int`.
- The clock (`Date.now()`, `new Date()`), the dashboard's range cutoff, the
  calendar day of a timestamp, and the answer to `window.confirm` are
  parameters.

Behaviour the proofs bring out:

- **`/api/products/update-stock` is not all-or-nothing.** It commits every line
  before the first missing or short product, then replies 404 or 400
  (`InventoryStore.StockRunCommitsPrefix`, `InventoryStore.StockRunReply`).
  Nothing is rolled back.
- **Top-seller ties are broken by key order, not by first occurrence.** The
  code lists keys through `Object.entries`, which puts integer keys in
  ascending order, and then runs a stable sort. So equal quantities come out in
  ascending id order, not in first-sold order.
- **The checkout stock guard compares each cart line with its own stock
  snapshot.** It does not look at the product list. The "+" button never
  raises a line past that snapshot (`PosCart.PlusButtonWithinStock`), but a
  click on the product card can. A scan stores the product's current stock on
  the line; a click compares with the product list's stock and leaves the
  snapshot alone (`PosCart.AddToCartCanPassStock`). The guard then blocks the
  checkout.
- **The screen sends the undiscounted subtotal as the sale's `total`.** The
  primary backend then prices it for the member
  (`PosCart.CheckoutChargesPreview`).
- **The alternate backend never decrements stock for a checkout from the
  screen.** Its sale handler looks products up by `productId`, but the screen
  sends `id` (`PosCart.CheckoutLeavesAltStock`). The alternate backend also
  lets a sale oversell, so stock can go negative (`AltStore.SaleCanOversell`).
- **Stock can go negative in the primary backend too, except through sales.**
  A `sale` adjustment never takes stock below zero
  (`InventoryStore.Store.AdjustStock`), and update-stock keeps stock
  non-negative when it starts non-negative
  (`InventoryStore.StockRunKeepsStockNonNegative`). A `receive` adjustment
  accepts any amount, so receiving -5 into an empty product leaves -5. Create
  and update accept any stock value.
- **`resetCart` clears the cart but not the received amount.** After a reset,
  the preview's change still counts the last amount received
  (`PosCart.ResetPreview`).

## Model

| member | source | states |
|---|---|---|
| Common.FindIndex | backend/index.js:106 | `findIndex`: the first position satisfying the predicate; none exactly when no element does |
| Common.NextId | backend/index.js:89 | the next product or member id is 1 for an empty array and above every id in use when ids increase |
| Common.IncreasingIdsAppend | backend/index.js:92 | appending a record whose id is above all others keeps ids increasing |
| Common.IncreasingIdsRemove | backend/index.js:108 | `splice` of one record keeps ids increasing |
| Common.RemoveAtMembers | backend/index.js:108 | with increasing ids, splicing out the record of `id` leaves exactly the records whose id differs |
| Common.IncreasingIdsUpdate | backend/index.js:116-122 | replacing a record by one with the same id keeps ids increasing |
| Common.NumberedAppend | backend/index.js:93-100 | a log numbered `length + 1` on every push stays numbered 1, 2, 3, … |
| Common.FilterCount | backend/index.js:329-331 | `filter` keeps each element it keeps with its full multiplicity and drops the rest |
| Common.FilterAppend | src/components/POS.js:135 | `filter` distributes over concatenation |
| Common.FilterKeepsAll | backend/index.js:363-366 | `filter` with a predicate true of every element returns the array unchanged |
| Common.FilterDropsOne | src/components/CustomerManager.js:42 | filtering out the one element that fails gives the array with that position spliced out |
| Common.FilterAgrees | backend/server.js:103-116 | filters by predicates that agree on the elements return the same array |
| Common.Filter | backend/index.js:444-448 | `filter` keeps exactly the elements satisfying the predicate, and never more than it was given |
| Common.FilterSubsequence | backend/index.js:444-448 | `filter` keeps its elements in their original order: the result is the input read at increasing positions |
| Common.Insert | backend/index.js:330-331 | inserting adds exactly that element: one longer, same multiset plus the element |
| Common.InsertAscending | backend/index.js:330-331 | inserting into an array ascending by the key keeps it ascending |
| Common.SortBy | backend/index.js:330-331 | the sort result is ascending by the key and a permutation of the input |
| Common.InsertLex | backend/index.js:330-331 | inserting into an array ordered by key then original position keeps that order |
| Common.SortByStable | backend/index.js:330-331 | the sort is stable: equal keys keep their original relative order |
| Aggregation.SumAppend | backend/index.js:308 | the `reduce` sum of a concatenation is the sum of the parts |
| Aggregation.Average | backend/index.js:310 | `averageTransaction` is 0 for no sales, otherwise average times count equals the total |
| Aggregation.TotalsOf | backend/index.js:308-310 | `totalSales` is the sum of the totals, `totalTransactions` the count, and the average times the count the total (all zero for no sales) |
| Aggregation.KeyIndex | backend/index.js:316 | the accumulator slot of a key: present exactly when the key was seen |
| Aggregation.Tally | backend/index.js:313-319 | the `acc[key] += val` accumulator has one entry per distinct key, and its keys are exactly the keys pushed |
| Aggregation.BumpKeys | backend/index.js:316-317 | adding to the accumulator adds the key to its key set and nothing else |
| Aggregation.AmountOfAbsentKey | backend/index.js:316 | a key never seen has amount 0 |
| Aggregation.AmountAppend | backend/index.js:314-318 | the amount accumulated over a concatenation is the sum of the amounts over the parts |
| Aggregation.TallyAmounts | backend/index.js:313-319 | every accumulator entry holds the total of the values pushed under its key |
| Aggregation.Pairs | backend/index.js:375-380 | one key/value pair per element, in order |
| Aggregation.KeysOfPairs | backend/index.js:375-380 | the keys accumulated are exactly the keys of the elements |
| Aggregation.AmountOfPairs | backend/index.js:375-380 | the amount under a key is the sum over the elements with that key |
| Aggregation.SumSplits | backend/index.js:381-386 | a two-valued key splits the total into the two amounts |
| Aggregation.InsertDistinct | backend/index.js:320-325 | inserting an entry whose key is new keeps the keys distinct |
| Aggregation.SortByDistinct | backend/index.js:320-325 | sorting keeps the accumulator's keys distinct |
| Aggregation.RankDistinct | backend/index.js:320-325 | an accumulator has distinct keys, so an injective key rank gives distinct ranks |
| Aggregation.SortByKeys | backend/index.js:339-341 | sorting does not change the set of keys |
| Aggregation.SortByRankStrict | backend/index.js:339-341 | with distinct keys and an injective rank, the sorted entries are strictly ascending |
| Aggregation.Top | backend/index.js:320-326 | `.slice(0, n)` of the ranking holds `n` entries, or every entry when there are fewer |
| Aggregation.TopRanks | backend/index.js:320-326 | ranked entries are in descending amount order, ties by ascending key rank, and each comes from the accumulator |
| Aggregation.TopFullWhenOmitting | backend/index.js:325-326 | an accumulator entry left out of the top `n` means the list holds `n` entries |
| Aggregation.NestedAmount | backend/index.js:313-319 | the accumulated quantity of an id over nested item lists equals the reference per-sale sum |
| Aggregation.Ranking | backend/index.js:320-326 | the top-N ranking has at most `n` entries |
| Aggregation.RankingEntries | backend/index.js:313-326 | every ranked entry is an id that was sold, with its total quantity |
| Aggregation.RankingOrder | backend/index.js:325 | best first; equal quantities in ascending key rank |
| Aggregation.RankingComplete | backend/index.js:326 | a sold id left out of the ranking sold no more than any listed one, and the list is full |
| Aggregation.BucketsAscending | backend/index.js:339-341 | the per-key buckets come out one per key, keys strictly ascending |
| Aggregation.BucketsCover | backend/index.js:334-338 | the buckets list exactly the keys of the elements |
| Aggregation.BucketsSums | backend/index.js:334-338 | each bucket holds the sum of the values of the elements with its key |
| Aggregation.LowStockSelects | backend/index.js:329-331 | low stock keeps exactly the products below the threshold, every copy, in ascending stock order |
| Aggregation.FilterStrictlyAscending | backend/index.js:329-331 | filtering an array with strictly ascending keys keeps them strictly ascending |
| Aggregation.LowStockTies | backend/index.js:329-331 | low-stock products with equal stock stay in catalogue order |
| InventoryStore.ProductIndex | backend/index.js:106 | `products.findIndex(p => p.id === id)`: first match, or none exactly when no product has the id |
| InventoryStore.BarcodeIndex | backend/index.js:222 | `products.find(p => p.barcode === barcode)`: the first product with the barcode, or none |
| InventoryStore.MemberIndex | backend/index.js:460 | `members.find(m => m.id === memberId)`: a member with the id, or none exactly when there is none |
| InventoryStore.ApplyEdits | backend/index.js:116-122 | update merge: text fields change only to truthy values, price and stock to any present value, and the id never changes |
| InventoryStore.ScanLookup | backend/index.js:217-242 | scan and find: 400 exactly without a (truthy) barcode, the first product carrying it, or 404 exactly when none does |
| InventoryStore.Decrement | backend/index.js:258 | one decrement keeps the catalogue's length |
| InventoryStore.Applied | backend/index.js:250-266 | the number of lines applied before the loop stops is at most the number of lines |
| InventoryStore.StockRunCommitsPrefix | backend/index.js:250-266 | update-stock commits the lines before the first failing one: each decremented and logged as one `sale` movement |
| InventoryStore.StockRunReply | backend/index.js:250-257 | the reply is OK exactly when every line applied; otherwise 404 for a missing product or 400 for stock below the quantity after the earlier lines |
| InventoryStore.RunStockLines | backend/index.js:250-266 | the update-stock loop; `StockRunCommitsPrefix`, `StockRunReply` and `StockRunKeepsStockNonNegative` state what it commits, what it replies and that it keeps stock non-negative |
| InventoryStore.StockRunKeepsStockNonNegative | backend/index.js:255 | update-stock never takes a product below zero |
| InventoryStore.StockRunTouchesOnlyStock | backend/index.js:258 | update-stock changes only stock, and only of products that some line names |
| InventoryStore.PriceSale | backend/index.js:459-464 | member pricing: discount plus payable equals the total; discount is `discount%` of the total; points are the full hundreds of the payable; no member means no discount and no points |
| InventoryStore.PriceSaleBounds | backend/index.js:462-464 | with a discount between 0 and 100 and a non-negative total, discount and payable stay within the total and points are non-negative |
| InventoryStore.ScaledBetween | backend/index.js:462 | a percentage between 0 and 100 of a non-negative total lies between 0 and the total (scaled by 100) |
| InventoryStore.SaleMember | backend/index.js:459-461 | a sale is priced for a member exactly when its member id is truthy and names a member |
| InventoryStore.TransactionsOf | backend/index.js:444-448 | a member's transactions are exactly the logged ones carrying that member id, in the order they were logged |
| InventoryStore.Store.constructor | backend/index.js:15-48 | the store starts from the seed catalogue and members, with empty logs |
| InventoryStore.Store.CreateProduct | backend/index.js:83-102 | accepts exactly when every field passes the truthiness check (stock may be 0); appends the product under the next id and logs one `add` movement of its stock; a refused body changes nothing |
| InventoryStore.CreateAccepts | backend/index.js:85 | the create handler's field check: `Store.CreateProduct` succeeds exactly when it holds |
| InventoryStore.Store.DeleteProduct | backend/index.js:104-110 | 404 exactly when no product has the id; otherwise splices out exactly that product; logs are untouched |
| InventoryStore.Store.UpdateProduct | backend/index.js:112-124 | 404 exactly when no product has the id; otherwise replaces it by the merge and changes nothing else |
| InventoryStore.Store.AdjustStock | backend/index.js:126-149 | 404 for an unknown product; OK exactly for `receive` or a `sale` the stock covers with a numeric amount; the stock moves by the amount and one movement is logged; a sale never leaves stock negative |
| InventoryStore.Store.ScanIn | backend/index.js:175-214 | 400 exactly without a barcode; a known barcode gains one unit with a `receive` movement; an unknown one becomes a new blank product holding one unit with an `add` movement |
| InventoryStore.Store.UpdateStock | backend/index.js:245-269 | 400 when `items` is not an array; otherwise the loop leaves the products, the log and the reply `RunStockLines` gives |
| InventoryStore.Store.CreateMember | backend/index.js:426-442 | 400 exactly without a name or phone; otherwise appends a silver member with 5% discount and no points under the next id |
| InventoryStore.Store.RecordSale | backend/index.js:451-502 | records sale `length + 1` at the priced total; a known member gains the points and a transaction is logged; stock and movements are untouched |
| InventoryReports.ProductById | backend/index.js:322 | `products.find(p => p.id === id)`: a product with the id, or none exactly when no product has it |
| InventoryReports.SellerRanking | backend/index.js:313-326 | the best-seller ranking is cut to `n` entries |
| Aggregation.IdRankInjective | backend/index.js:320 | numeric ids give distinct `Object.entries` positions |
| InventoryReports.RankedRows | backend/index.js:320-324 | each ranked id is paired with its catalogue product and keeps its quantity |
| InventoryReports.InRange | backend/index.js:291-305 | the range filter keeps exactly the sales at or after the cutoff, or all sales for an unknown range |
| InventoryReports.DayTotalsAscending | backend/index.js:339-341 | daily sales come out one entry per day, days strictly ascending |
| InventoryReports.DayTotalsCoverDays | backend/index.js:334-338 | the days listed are exactly the days that have sales |
| InventoryReports.DayTotalsSums | backend/index.js:334-338 | each day holds the sum of that day's sale totals |
| InventoryReports.DashboardTopSellers | backend/index.js:313-326 | at most five best sellers, each with its catalogue product and total quantity in range, best first with ties by ascending id; a sold product left out means five are listed, each selling at least as much |
| InventoryReports.SellerRows | backend/index.js:313-326 | the rows of a top-n seller ranking: products and total quantities, best first with ties by ascending id, and a sold product left out means n are listed, each selling at least as much |
| InventoryReports.DashboardLowStock | backend/index.js:329-331 | low stock is exactly the products under 10 units with every copy, ascending by stock, ties in catalogue order |
| InventoryReports.DashboardDaily | backend/index.js:334-342 | the daily series is exactly the days with sales in range, strictly ascending, each with the sum of its totals |
| InventoryReports.DashboardSummary | backend/index.js:287-350 | the dashboard: totals of the in-range sales (`TotalsOf`), the top five sellers (`DashboardTopSellers`), low stock (`DashboardLowStock`) and the daily series (`DashboardDaily`) |
| InventoryReports.SalesReportFor | backend/index.js:355-390 | 400 exactly when either end of the range is missing; otherwise the report holds exactly the sales in the range in the order they were recorded, the count, and one entry per payment method and per member kind |
| InventoryReports.SalesReportSplits | backend/index.js:375-386 | each payment-method entry sums its sales (an unset method counting as cash) and the methods listed are exactly those used; each member-kind entry sums the sales of that kind and the kinds listed are exactly those present; member plus non-member is the total |
| InventoryReports.ProductsReportFor | backend/index.js:393-419 | `low-stock` lists exactly the products under 10, in catalogue order; `top-selling` ranks at most ten; any other type lists the whole catalogue |
| InventoryReports.ProductsReportFacts | backend/index.js:398-413 | the low-stock list keeps every copy of a low product; the top-selling rows carry each product's total quantity over all sales, best first with ties by ascending id; a sold product left out means ten are listed, each selling at least as much |
| AltStore.AltIndex | backend/server.js:104 | `products.findIndex(p => p.id === id)`: the first match; an absent id matches nothing |
| AltStore.SameIdsSameIndex | backend/server.js:103-116 | lookups depend only on the ids, not on stock |
| AltStore.NewProduct | backend/server.js:26-34 | a created product takes the body's id if given, else `length + 1`, the body's fields, and always stock 0 |
| AltStore.Merge | backend/server.js:36-45 | the update spread: every field the body carries wins, and an empty body changes nothing |
| AltStore.AltScan | backend/server.js:192-200 | the first product whose barcode equals the body's, or 404 exactly when none does; never 400 |
| AltStore.AltSaleTotal | backend/server.js:99 | total plus discount equals the sum of price times quantity |
| AltStore.KnownSameIds | backend/server.js:103-116 | which items name a product depends only on the ids |
| AltStore.SaleRunMovements | backend/server.js:103-116 | the sale logs one `out` movement per item naming an existing product, in item order |
| AltStore.SaleRunStock | backend/server.js:103-116 | only stock changes: the first product of each id loses exactly the units sold of that id, with no floor at zero |
| AltStore.ApplySaleItems | backend/server.js:103-116 | the sale's stock loop; `SaleRunStock`, `SaleRunMovements` and `SaleCanOversell` state the stock it leaves and the movements it logs |
| AltStore.SaleCanOversell | backend/server.js:103-116 | an item for more units than its product holds is applied anyway: the stock ends at stock minus quantity, below zero, and the `out` movement is logged |
| AltStore.Store.constructor | backend/server.js:11-19 | the store starts from the seed products, with empty logs |
| AltStore.Store.CreateProduct | backend/server.js:26-34 | appends `NewProduct` and never fails |
| AltStore.Store.UpdateProduct | backend/server.js:36-45 | 404 exactly when no product has the id; otherwise the first such product is replaced by the merge |
| AltStore.Store.DeleteProduct | backend/server.js:47-51 | drops every product with the id and always succeeds |
| AltStore.Store.StockMovement | backend/server.js:53-81 | 404 for an unknown product, 400 for an `out` above stock; otherwise `in` adds, `out` subtracts, other types change nothing, and one movement is logged |
| AltStore.Store.RecordSale | backend/server.js:91-120 | records sale `length + 1` with its computed total; the stock loop leaves what `ApplySaleItems` gives |
| AltStore.Store.RunItems | backend/server.js:102-116 | the `forEach` stock pass ends with the products and movements `ApplySaleItems` gives, keeps the movement log numbered 1, 2, 3, ... and leaves the sales alone |
| AltReports.WindowSales | backend/server.js:126-131 | the window applies only when both dates are given, and then keeps exactly the sales inside it; either way the sales stay in the order they were recorded |
| AltReports.ProductFor | backend/server.js:137 | an item's product is the first with its id; none for an absent or unknown id |
| AltReports.ListSalesFacts | backend/server.js:122-142 | the listing holds only recorded sales, all of them without both dates and exactly those inside the window with both, each item kept as sold and paired with its product when there is one |
| AltReports.ListSales | backend/server.js:122-142 | `GET /api/sales`; `ListSalesFacts` and the lemmas below state which sales it lists, in what order, and how items are paired with products |
| AltReports.ListedSales | backend/server.js:133-139 | every listed entry is a recorded sale with its items detailed |
| AltReports.ListedWindow | backend/server.js:126-131 | with both dates, a recorded sale is listed exactly when its timestamp is inside them |
| AltReports.ListedInOrder | backend/server.js:122-142 | the listed sales are the windowed sales, in the order they were recorded |
| AltReports.AltKeyRankInjective | backend/server.js:170 | distinct keys get distinct ranks, whatever the ids |
| AltReports.UndefinedRanksLast | backend/server.js:170 | with array-index ids, the `undefined` key comes after every id |
| AltReports.AltRanking | backend/server.js:160-176 | the alternate ranking is cut to five entries |
| AltReports.AltRankedRows | backend/server.js:170-174 | each ranked key is paired with the first product of that id and keeps its quantity |
| AltReports.AltTopSellersEntries | backend/server.js:160-176 | at most five best sellers, each a sold key with its product and its units sold in the window |
| AltReports.AltTopSellersOrder | backend/server.js:175 | best first; equal quantities in `Object.entries` key order |
| AltReports.AltTopSellersComplete | backend/server.js:176 | a sold key left out means five are listed, each selling at least as much |
| AltReports.AltLowStock | backend/server.js:179-181 | low stock is exactly the products under 10 units with every copy, ascending by stock |
| AltReports.AltLowStockTies | backend/server.js:179-181 | in a catalogue whose ids ascend, products with equal stock are listed in catalogue order |
| AltReports.AltSummary | backend/server.js:144-190 | the alternate dashboard: totals of the windowed sales (`TotalsOf`), the top five sellers (`AltTopSellersEntries`, `AltTopSellersOrder`, `AltTopSellersComplete`) and low stock (`AltLowStock`) |
| PosCart.MapId | src/components/POS.js:123-127 | `cart.map(item => item.id === id ? f(item) : item)` rewrites exactly the lines of that id |
| PosCart.MapIdOthers | src/components/POS.js:104-108 | an id-preserving rewrite leaves the other products' lines and their order |
| PosCart.MapIdFacts | src/components/POS.js:123-127 | an id-preserving rewrite keeps one line per product and the other products' quantities |
| PosCart.FindIndexSameIds | src/components/POS.js:120 | the line found for an id depends only on the lines' ids |
| PosCart.AddToCartFacts | src/components/POS.js:118-132 | adding touches only that product's line: +1 while below stock, unchanged at stock, a new line of one otherwise; one line per product is kept |
| PosCart.AddToCartCanPassStock | src/components/POS.js:118-132 | a click on a line already at its stock snapshot, with the product list showing more, takes the line past the snapshot and leaves the snapshot as it was |
| PosCart.AddToCart | src/components/POS.js:118-132 | a click on a product; `AddToCartFacts` and `RemoveUndoesAdd` state its effect |
| PosCart.AppendNewId | src/components/POS.js:130 | appending a product not in the cart keeps one line per product |
| PosCart.ScanToCartFacts | src/components/POS.js:82-115 | a scan changes the cart exactly when it reports an increment or an addition; then that line holds at most the stock and the fresh stock figure, and other lines are untouched |
| PosCart.ScanToCart | src/components/POS.js:82-115 | a scan; `ScanToCartFacts` and `RemoveUndoesScan` state its outcome and effect |
| PosCart.RemoveFromCart | src/components/POS.js:135 | removal keeps exactly the other products' lines, in cart order, and leaves no line for the product |
| PosCart.RemoveFromCartSplice | src/components/POS.js:135 | with one line per product, removal cuts out exactly that product's line and keeps the rest in place; removing an absent product changes nothing |
| PosCart.UpdateQtyFacts | src/components/POS.js:136-138 | the quantity change sets that product's lines to `max(1, qty)`, changes nothing else, and is idempotent |
| PosCart.UpdateQty | src/components/POS.js:136-138 | the quantity change the "-" and "+" buttons call; `UpdateQtyFacts`, `UpdateQtyCanPassStock` and `RemoveUndoesUpdateQty` state its effect |
| PosCart.RemoveUndoesAdd | src/components/POS.js:118-135 | removing a product after adding it gives the cart with that product removed |
| PosCart.RemoveUndoesScan | src/components/POS.js:82-135 | removing a product after scanning it gives the cart with that product removed |
| PosCart.RemoveUndoesUpdateQty | src/components/POS.js:135-138 | removing a product after changing its quantity gives the cart with that product removed |
| PosCart.UpdateQtyCanPassStock | src/components/POS.js:136-138 | `updateQty` itself has no cap: any quantity of at least one above a line's stock snapshot is stored as asked, past that snapshot |
| PosCart.PlusButtonWithinStock | src/components/POS.js:416-420 | the "+" button, enabled only below the snapshot, never takes a line past it |
| PosCart.SyncTotals | src/components/POS.js:40-53 | the preview: the total is the cart subtotal, the change is the amount received less the net total, and the discount and points follow the member's percentage (none without a member) |
| PosCart.Subtotal | src/components/POS.js:41 | the cart total; `SaleLinesTotal` proves the sent sale lines add up to it and `PreviewMatchesBackend` that the backend prices it as the preview does |
| PosCart.PreviewMatchesBackend | src/components/POS.js:40-53 | the preview prices a cart exactly as the backend's sale handler prices its subtotal |
| PosCart.EnterCash | src/components/POS.js:484-493 | typing cash sets the amount received and its change against the total and discount shown; nothing else changes |
| PosCart.CashChangeAgrees | src/components/POS.js:484-493 | with the shown totals in step with the cart, the cash form's change is the preview's |
| PosCart.ResetCart | src/components/POS.js:254-263 | reset empties the cart, zeroes the total and clears the payment entries, but keeps the received amount and the discount |
| PosCart.ResetPreview | src/components/POS.js:254-263 | after a reset the preview is zero except for the change, which still counts the last amount received |
| PosCart.StockRequest | src/components/POS.js:221 | the stock request has one `{ id, quantity }` per cart line |
| PosCart.SaleLines | src/components/POS.js:229 | the sale has one item per cart line, with its id, name, price and quantity |
| PosCart.SaleLinesTotal | src/components/POS.js:229-230 | the sale items add up to the subtotal sent |
| PosCart.CheckoutGuards | src/components/POS.js:196-213 | the cash guard trips exactly when cash falls short of the net total; the checkout is sent exactly when neither guard trips; the stock guard names the first line over its snapshot |
| PosCart.CheckoutOf | src/components/POS.js:196-236 | the checkout; `CheckoutGuards`, `CheckoutPayload`, `CheckoutChargesPreview` and `CheckoutLeavesAltStock` state when it is sent, what it sends and what the backends make of it |
| PosCart.CheckoutPayload | src/components/POS.js:198-236 | the payload has one stock line and one sale item per cart line, the undiscounted subtotal, the payment method, and a member id exactly for a member customer with a member picked |
| PosCart.CheckoutChargesPreview | src/components/POS.js:225-236 | with member ids increasing and a picked member only for a member customer, the backend's lookup of the sent member id finds a member exactly when one was picked, and pricing the sent total for it gives exactly the preview's net total, discount and points |
| PosCart.CheckStock | src/components/POS.js:204-213 | the stock loop reports success exactly when every line is within its snapshot, and otherwise names the first line over it |
| PosCart.AltLines | src/components/POS.js:229 | the sale items as the alternate backend reads them carry no `productId` |
| PosCart.CheckoutLeavesAltStock | backend/server.js:103-116 | items without a product id leave the alternate backend's stock and movement log unchanged |
| CustomerManager.ApplyForm | src/components/CustomerManager.js:24 | the edit merge rewrites exactly the customers with the edited id |
| CustomerManager.SubmitCustomer | src/components/CustomerManager.js:21-33 | submitting clears the form and leaves edit mode |
| CustomerManager.EditCustomer | src/components/CustomerManager.js:35-38 | edit loads the customer into the form and enters edit mode for its id |
| CustomerManager.DeleteCustomer | src/components/CustomerManager.js:40-45 | a cancelled delete changes nothing; a confirmed one drops exactly the customers with the id, keeps the others in their order, and clears a selection of that id |
| CustomerManager.SubmitEditFacts | src/components/CustomerManager.js:23-24 | edit mode rewrites name, phone and email of the edited customer only, keeping points, discount and history |
| CustomerManager.SubmitAddFacts | src/components/CustomerManager.js:25-29 | add mode appends exactly one customer with no points, discount or history, and keeps ids unique under a fresh id |
| CustomerManager.EditSubmitRoundTrip | src/components/CustomerManager.js:21-38 | editing a customer and submitting the untouched form leaves the list unchanged |
| CustomerManager.AddDeleteRoundTrip | src/components/CustomerManager.js:21-45 | deleting the customer just added restores the list |
| CustomerManager.DeleteKeepsOrder | src/components/CustomerManager.js:42 | a confirmed delete removes only that customer and keeps the others in order |
| UserManager.ApplyUserForm | src/components/UserManager.js:29 | the edit merge rewrites exactly the users with the edited id |
| UserManager.SubmitUser | src/components/UserManager.js:26-40 | submitting resets the form to the blank form with role `staff` and leaves edit mode |
| UserManager.EditUser | src/components/UserManager.js:43-46 | edit loads the user into the form and enters edit mode for its id |
| UserManager.DeleteUser | src/components/UserManager.js:49-54 | a cancelled delete changes nothing; a confirmed one drops exactly the users with the id, keeps the others in their order, and clears a selection of that id |
| UserManager.SubmitEditUserFacts | src/components/UserManager.js:28-29 | edit mode rewrites the form fields of the edited user only, keeping id, sales count and history |
| UserManager.SubmitAddUserFacts | src/components/UserManager.js:30-36 | add mode appends exactly one user with no sales, and keeps ids unique under a fresh id |
| UserManager.EditSubmitUserRoundTrip | src/components/UserManager.js:26-46 | editing a user and submitting the untouched form leaves the list unchanged |
| UserManager.AddDeleteUserRoundTrip | src/components/UserManager.js:26-54 | deleting the user just added restores the list |
| UserManager.DeleteUserKeepsOrder | src/components/UserManager.js:51 | a confirmed delete removes only that user and keeps the others in order |

## Left out

- HTTP plumbing is not modelled: routing, status-code bodies, messages, JSON parsing, CORS, and `parseInt` of path ids (ids arrive as integers).
- The list endpoints that only return an array are not modelled: `GET /api/products`, `/api/stock-movements`, `/api/members` and the alternate backend's `/api/products`. Neither are the alternate backend's `GET /api/stock/movements` (backend/server.js:83-89) and its note text.
- The barcode mock endpoints (backend/index.js:155-172) and `/api/login` (backend/index.js:272-284) are not modelled. They are outside the inventory and sales core.
- Free-text notes of movements, the ISO text of timestamps, and `paymentDetails` are not modelled: they are stored and never computed with.
- Stock, stock amounts and quantities are integers. The source takes any JavaScript number, so an adjustment of `amount: 0.5` (backend/index.js:131) or a fractional stock on create (backend/index.js:85) or update (backend/index.js:121) is not modelled.
- Floating point is not modelled: prices, totals and discounts are mathematical reals, so rounding of `price * quantity` and of the percentage discount is not captured.
- The clock is a parameter. `new Date()` / `Date.now()` become `now`, `freshId` or the range cutoff. The calendar day of a timestamp is a function argument whose order stands for the ISO date strings' `localeCompare` order.
- Unparseable dates (`NaN` comparisons) in the report and window filters are not modelled, and neither are non-numeric `total` or `quantity` fields (`sale.total || 0` of a missing total).
- InventoryReports.DashboardTopSellers: the tie order assumes ids that are array indices. `Object.entries` lists other keys (negative ids, ids of 2^32 - 1 and above) in insertion order, which `IdRank` does not model.
- AltReports.AltTopSellersOrder: requires every sold id to be an array index (`ArrayIndexIds`) for the same reason. The `"undefined"` key of lines without an id is ranked after all ids. The entries and completeness lemmas need no such requirement.
- AltReports.AltLowStockTies: tie order is stated only for a catalogue whose ids ascend. The alternate backend allows repeated ids, and for those the catalogue order of equal-stock products is not stated.
- The network between the screen and the backends is not modelled. The screen's two requests are modelled as payloads (`PosCart.CheckoutOf`), their responses as the backend methods. What happens when one request fails and the other succeeds is not modelled.
- Rendering is not modelled: feedback messages, `setTimeout`, focus, the product search filter, the receipt, and the category and payment-method lists.
- Typing into the customer and user forms (`handleChange`) is not modelled: the form's current values are part of the screen state. Neither are the browser's `required` checks on the inputs.
- The screen's handling of the sale reply is not modelled: it resets the cart only when the reply carries `success`, which the alternate backend's sale reply does not.
