/** The primary backend (`backend/index.js`): products, the stock-movement log,
    members, member transactions and sales, held in module-level arrays that the
    route handlers change in place. */
module InventoryStore {
  import opened Common

  datatype Product = Product(
    id: int, name: string, barcode: string, category: string,
    price: real, unit: string, stock: int)

  datatype MovementKind = AddStock | ReceiveStock | SaleStock

  /** One entry of the stock-movement log (its free-text note is not modelled). */
  datatype Movement = Movement(id: int, productId: int, kind: MovementKind, amount: int, at: int)

  datatype Member = Member(
    id: int, name: string, phone: string, points: int,
    memberType: string, discount: real, createdAt: int)

  /** A sold line as the cashier screen sends it: a snapshot of name and price. */
  datatype SaleItem = SaleItem(id: int, name: string, price: real, quantity: int)

  datatype Sale = Sale(
    id: int, items: seq<SaleItem>, total: real, memberDiscount: real,
    pointsEarned: int, paymentMethod: Option<string>, memberId: Option<int>,
    timestamp: int)

  datatype MemberTxn = MemberTxn(
    id: int, memberId: int, items: seq<SaleItem>, total: real,
    discount: real, pointsEarned: int, timestamp: int)

  /** The JSON body of a product create or update; an absent field is `None`. */
  datatype ProductBody = ProductBody(
    name: Option<string>, barcode: Option<string>, category: Option<string>,
    price: Option<real>, unit: Option<string>, stock: Option<int>)

  /** One `{ id, quantity }` of a multi-item stock update. */
  datatype StockLine = StockLine(id: int, quantity: int)

  /** The body of a successful sale reply. */
  datatype SaleReceipt = SaleReceipt(sale: Sale, memberDiscount: real, pointsEarned: int)

  /** Discount, payable total and loyalty points of one sale. */
  datatype Pricing = Pricing(finalTotal: real, memberDiscount: real, pointsEarned: int)

  /** The products, movement log and reply after a multi-item stock update. */
  datatype StockRun = StockRun(products: seq<Product>, movements: seq<Movement>, reply: Reply<()>)

  function ProductIdOf(p: Product): int { p.id }
  function MemberIdOf(m: Member): int { m.id }
  function MovementIdOf(m: Movement): int { m.id }
  function TxnIdOf(t: MemberTxn): int { t.id }
  function SaleIdOf(s: Sale): int { s.id }

  /** `products.findIndex(p => p.id === id)`. */
  function ProductIndex(ps: seq<Product>, id: int): (r: Option<nat>)
    ensures r.Some? ==> r.value < |ps| && ps[r.value].id == id
    ensures r.Some? ==> forall j :: 0 <= j < r.value ==> ps[j].id != id
    ensures r.None? <==> forall j :: 0 <= j < |ps| ==> ps[j].id != id
  {
    FindIndex(ps, (p: Product) => p.id == id)
  }

  /** `products.find(p => p.barcode === barcode)`, as a position. */
  function BarcodeIndex(ps: seq<Product>, barcode: string): (r: Option<nat>)
    ensures r.Some? ==> r.value < |ps| && ps[r.value].barcode == barcode
    ensures r.Some? ==> forall j :: 0 <= j < r.value ==> ps[j].barcode != barcode
    ensures r.None? <==> forall j :: 0 <= j < |ps| ==> ps[j].barcode != barcode
  {
    FindIndex(ps, (p: Product) => p.barcode == barcode)
  }

  /** `members.find(m => m.id === memberId)`, as a position. */
  function MemberIndex(ms: seq<Member>, id: int): (r: Option<nat>)
    ensures r.Some? ==> r.value < |ms| && ms[r.value].id == id
    ensures r.None? <==> forall j :: 0 <= j < |ms| ==> ms[j].id != id
  {
    FindIndex(ms, (m: Member) => m.id == id)
  }

  /** The create handler's field check: every text field and the price truthy
      (so a price of 0 is refused), and a stock present (0 is allowed). */
  predicate CreateAccepts(body: ProductBody) {
    && Truthy(body.name) && Truthy(body.barcode) && Truthy(body.category)
    && TruthyReal(body.price) && Truthy(body.unit) && body.stock.Some?
  }

  /** The update handler's merge: text fields are overwritten only by a truthy
      value, price and stock by any value that is present; the id never changes. */
  function ApplyEdits(p: Product, body: ProductBody): (q: Product)
    ensures q.id == p.id
    ensures q.name == (if Truthy(body.name) then body.name.value else p.name)
    ensures q.barcode == (if Truthy(body.barcode) then body.barcode.value else p.barcode)
    ensures q.category == (if Truthy(body.category) then body.category.value else p.category)
    ensures q.price == body.price.GetOr(p.price)
    ensures q.unit == (if Truthy(body.unit) then body.unit.value else p.unit)
    ensures q.stock == body.stock.GetOr(p.stock)
  {
    var p1 := if Truthy(body.name) then p.(name := body.name.value) else p;
    var p2 := if Truthy(body.barcode) then p1.(barcode := body.barcode.value) else p1;
    var p3 := if Truthy(body.category) then p2.(category := body.category.value) else p2;
    var p4 := if body.price.Some? then p3.(price := body.price.value) else p3;
    var p5 := if Truthy(body.unit) then p4.(unit := body.unit.value) else p4;
    if body.stock.Some? then p5.(stock := body.stock.value) else p5
  }

  /** The read-only barcode lookups (`/api/products/scan` and `/api/products/find`,
      which differ only in their messages): 400 without a barcode, the first
      product carrying it, or 404. */
  function ScanLookup(ps: seq<Product>, barcode: Option<string>): (r: Reply<Product>)
    ensures !Truthy(barcode) <==> r.BadRequest?
    ensures r.Ok? ==> r.value in ps && r.value.barcode == barcode.value
    ensures r.Ok? ==> r.value == ps[BarcodeIndex(ps, barcode.value).value]
    ensures r.NotFound? <==> Truthy(barcode) && forall p :: p in ps ==> p.barcode != barcode.value
  {
    if !Truthy(barcode) then BadRequest
    else match BarcodeIndex(ps, barcode.value)
      case Some(k) => Ok(ps[k])
      case None => NotFound
  }

  // ---------------------------------------------------------------------------
  // Multi-item stock update: a `for` loop that decrements and logs item by item
  // and returns at the first missing or insufficient product.

  /** Decrement the stock of the product with the line's id, if there is one. */
  function Decrement(ps: seq<Product>, line: StockLine): (r: seq<Product>)
    ensures |r| == |ps|
  {
    match ProductIndex(ps, line.id)
    case None => ps
    case Some(k) => ps[k := ps[k].(stock := ps[k].stock - line.quantity)]
  }

  function SaleMovement(line: StockLine, id: int, now: int): Movement {
    Movement(id, line.id, SaleStock, line.quantity, now)
  }

  /** The handler's loop, one line at a time. */
  function RunStockLines(ps: seq<Product>, ms: seq<Movement>, lines: seq<StockLine>, now: int): StockRun
    decreases |lines|
  {
    if lines == [] then StockRun(ps, ms, Ok(()))
    else match ProductIndex(ps, lines[0].id)
      case None => StockRun(ps, ms, NotFound)
      case Some(k) =>
        if ps[k].stock < lines[0].quantity then StockRun(ps, ms, BadRequest)
        else RunStockLines(Decrement(ps, lines[0]), ms + [SaleMovement(lines[0], |ms| + 1, now)], lines[1..], now)
  }

  /** One turn of the handler's loop at line `i`. */
  lemma RunStockLinesStep(ps: seq<Product>, ms: seq<Movement>, lines: seq<StockLine>, i: nat, now: int)
    requires i < |lines|
    ensures var k := ProductIndex(ps, lines[i].id);
      RunStockLines(ps, ms, lines[i..], now) ==
        if k.None? then StockRun(ps, ms, NotFound)
        else if ps[k.value].stock < lines[i].quantity then StockRun(ps, ms, BadRequest)
        else RunStockLines(ps[k.value := ps[k.value].(stock := ps[k.value].stock - lines[i].quantity)],
                           ms + [SaleMovement(lines[i], |ms| + 1, now)], lines[i + 1..], now)
  {
    assert lines[i..][0] == lines[i] && lines[i..][1..] == lines[i + 1..];
  }

  /** Unconditional decrements for a prefix of the lines. */
  function DecrementAll(ps: seq<Product>, lines: seq<StockLine>): seq<Product>
    decreases |lines|
  {
    if lines == [] then ps else DecrementAll(Decrement(ps, lines[0]), lines[1..])
  }

  /** The `sale` movements logged for a prefix of the lines, numbered from `first`. */
  function SaleMovements(lines: seq<StockLine>, first: int, now: int): seq<Movement> {
    if lines == [] then [] else [SaleMovement(lines[0], first, now)] + SaleMovements(lines[1..], first + 1, now)
  }

  /** How many leading lines the handler applies before it stops. */
  function Applied(ps: seq<Product>, lines: seq<StockLine>): (k: nat)
    ensures k <= |lines|
    decreases |lines|
  {
    if lines == [] then 0
    else match ProductIndex(ps, lines[0].id)
      case None => 0
      case Some(j) =>
        if ps[j].stock < lines[0].quantity then 0
        else 1 + Applied(Decrement(ps, lines[0]), lines[1..])
  }

  /** The update is not all-or-nothing: it commits the lines before the first
      failing one, decrementing each and logging one `sale` movement each. */
  lemma {:induction false} StockRunCommitsPrefix(ps: seq<Product>, ms: seq<Movement>, lines: seq<StockLine>, now: int)
    ensures var run := RunStockLines(ps, ms, lines, now);
      var k := Applied(ps, lines);
      && run.movements == ms + SaleMovements(lines[..k], |ms| + 1, now)
      && run.products == DecrementAll(ps, lines[..k])
    decreases |lines|
  {
    if lines != [] {
      match ProductIndex(ps, lines[0].id)
      case None =>
        assert lines[..0] == [];
      case Some(j) =>
        if ps[j].stock < lines[0].quantity {
          assert lines[..0] == [];
        } else {
          var ps' := Decrement(ps, lines[0]);
          var ms' := ms + [SaleMovement(lines[0], |ms| + 1, now)];
          assert RunStockLines(ps, ms, lines, now) == RunStockLines(ps', ms', lines[1..], now);
          StockRunCommitsPrefix(ps', ms', lines[1..], now);
          var k' := Applied(ps', lines[1..]);
          assert Applied(ps, lines) == k' + 1;
          assert lines[..k' + 1][0] == lines[0];
          assert lines[..k' + 1][1..] == lines[1..][..k'];
          assert DecrementAll(ps, lines[..k' + 1]) == DecrementAll(ps', lines[1..][..k']);
          assert SaleMovements(lines[..k' + 1], |ms| + 1, now)
              == [SaleMovement(lines[0], |ms| + 1, now)] + SaleMovements(lines[1..][..k'], |ms'| + 1, now);
        }
    }
  }

  /** The reply is Ok exactly when every line was applied; otherwise the first
      line not applied names a product that is missing (404) or whose stock,
      after the earlier lines, is below its quantity (400). */
  lemma {:induction false} StockRunReply(ps: seq<Product>, ms: seq<Movement>, lines: seq<StockLine>, now: int)
    ensures var run := RunStockLines(ps, ms, lines, now);
      var k := Applied(ps, lines);
      && (run.reply.Ok? <==> k == |lines|)
      && (k < |lines| ==>
            var at := DecrementAll(ps, lines[..k]);
            match ProductIndex(at, lines[k].id)
            case None => run.reply.NotFound?
            case Some(j) => run.reply.BadRequest? && at[j].stock < lines[k].quantity)
    decreases |lines|
  {
    if lines != [] {
      match ProductIndex(ps, lines[0].id)
      case None =>
        assert lines[..0] == [];
      case Some(j) =>
        if ps[j].stock < lines[0].quantity {
          assert lines[..0] == [];
        } else {
          var ps' := Decrement(ps, lines[0]);
          var ms' := ms + [SaleMovement(lines[0], |ms| + 1, now)];
          StockRunReply(ps', ms', lines[1..], now);
          var k' := Applied(ps', lines[1..]);
          if k' < |lines| - 1 {
            assert lines[..k' + 1][0] == lines[0];
            assert lines[..k' + 1][1..] == lines[1..][..k'];
            assert lines[1..][k'] == lines[k' + 1];
          }
        }
    }
  }

  /** Stock never goes negative through this handler: a line is applied only when
      the product's stock covers its quantity. */
  lemma {:induction false} StockRunKeepsStockNonNegative(ps: seq<Product>, ms: seq<Movement>, lines: seq<StockLine>, now: int)
    requires forall i :: 0 <= i < |ps| ==> ps[i].stock >= 0
    ensures var run := RunStockLines(ps, ms, lines, now);
      forall i :: 0 <= i < |run.products| ==> run.products[i].stock >= 0
    decreases |lines|
  {
    if lines != [] {
      match ProductIndex(ps, lines[0].id)
      case None =>
      case Some(j) =>
        if ps[j].stock >= lines[0].quantity {
          assert Decrement(ps, lines[0]) == ps[j := ps[j].(stock := ps[j].stock - lines[0].quantity)];
          assert RunStockLines(ps, ms, lines, now)
              == RunStockLines(Decrement(ps, lines[0]), ms + [SaleMovement(lines[0], |ms| + 1, now)], lines[1..], now);
          StockRunKeepsStockNonNegative(Decrement(ps, lines[0]), ms + [SaleMovement(lines[0], |ms| + 1, now)], lines[1..], now);
        }
    }
  }

  /** Only stock changes: the product list keeps its length, order, ids and every
      other field, and a product that no line names keeps its stock too. */
  lemma {:induction false} StockRunTouchesOnlyStock(ps: seq<Product>, ms: seq<Movement>, lines: seq<StockLine>, now: int)
    ensures var run := RunStockLines(ps, ms, lines, now);
      && |run.products| == |ps|
      && (forall i :: 0 <= i < |ps| ==> run.products[i] == ps[i].(stock := run.products[i].stock))
      && (forall i :: 0 <= i < |ps| && (forall l :: l in lines ==> l.id != ps[i].id) ==> run.products[i] == ps[i])
    decreases |lines|
  {
    if lines != [] {
      match ProductIndex(ps, lines[0].id)
      case None =>
      case Some(j) =>
        if ps[j].stock >= lines[0].quantity {
          var ps' := Decrement(ps, lines[0]);
          StockRunTouchesOnlyStock(ps', ms + [SaleMovement(lines[0], |ms| + 1, now)], lines[1..], now);
          forall i | 0 <= i < |ps| && (forall l :: l in lines ==> l.id != ps[i].id)
            ensures ps'[i] == ps[i]
          {
            assert lines[0] in lines;
          }
          forall i | 0 <= i < |ps| && (forall l :: l in lines ==> l.id != ps[i].id)
            ensures forall l :: l in lines[1..] ==> l.id != ps'[i].id
          {
            forall l | l in lines[1..] ensures l.id != ps'[i].id {
              assert l in lines;
            }
          }
        }
    }
  }

  // ---------------------------------------------------------------------------
  // Sales.

  /** Member pricing: `discount% of total`, the rest payable, one point per full
      100 of the payable total; without a member nothing changes. */
  function PriceSale(total: real, member: Option<Member>): (r: Pricing)
    ensures r.finalTotal + r.memberDiscount == total
    ensures member.None? ==> r == Pricing(total, 0.0, 0)
    ensures member.Some? ==> r.memberDiscount * 100.0 == total * member.value.discount
    ensures member.Some? ==>
      (r.pointsEarned as real) * 100.0 <= r.finalTotal < (r.pointsEarned as real + 1.0) * 100.0
  {
    match member
    case None => Pricing(total, 0.0, 0)
    case Some(m) =>
      var discount := total * m.discount / 100.0;
      var payable := total - discount;
      Pricing(payable, discount, (payable / 100.0).Floor)
  }

  /** With a discount percentage between 0 and 100 and a non-negative total,
      the discount never exceeds the total and the points are never negative. */
  lemma PriceSaleBounds(total: real, member: Option<Member>)
    requires total >= 0.0
    requires member.Some? ==> 0.0 <= member.value.discount <= 100.0
    ensures var r := PriceSale(total, member);
      0.0 <= r.memberDiscount <= total && 0.0 <= r.finalTotal <= total && r.pointsEarned >= 0
  {
    var r := PriceSale(total, member);
    if member.Some? {
      DiscountBetween(r.memberDiscount, total, member.value.discount);
      PointsNonNegative(r.finalTotal, r.pointsEarned);
    }
  }

  /** A discount of `p` percent of a non-negative total lies between 0 and the total. */
  lemma DiscountBetween(d: real, total: real, p: real)
    requires total >= 0.0 && 0.0 <= p <= 100.0
    requires d * 100.0 == total * p
    ensures 0.0 <= d <= total
  {
    ScaledBetween(total, p);
  }

  /** Points that floor a non-negative payable total are never negative. */
  lemma PointsNonNegative(payable: real, points: int)
    requires 0.0 <= payable < (points as real + 1.0) * 100.0
    ensures points >= 0
  {
  }

  /** `a * b` lies between 0 and `a * 100` for a percentage `b`. */
  lemma ScaledBetween(a: real, b: real)
    requires a >= 0.0 && 0.0 <= b <= 100.0
    ensures 0.0 <= a * b <= a * 100.0
  {
    assert a * (100.0 - b) >= 0.0;
  }

  /** The member, if any, that a sale is priced for: `if (memberId)` then a lookup. */
  function SaleMember(members: seq<Member>, memberId: Option<int>): (r: Option<nat>)
    ensures r.Some? ==> TruthyInt(memberId) && r.value < |members| && members[r.value].id == memberId.value
    ensures r.None? <==> !TruthyInt(memberId) || forall j :: 0 <= j < |members| ==> members[j].id != memberId.value
  {
    if TruthyInt(memberId) then MemberIndex(members, memberId.value) else None
  }

  /** `GET /api/members/:id/transactions`: that member's transactions, in order. */
  function TransactionsOf(txns: seq<MemberTxn>, memberId: int): (r: seq<MemberTxn>)
    ensures forall t :: t in r <==> t in txns && t.memberId == memberId
    ensures Subsequence(r, txns)
  {
    var mine := (t: MemberTxn) => t.memberId == memberId;
    FilterSubsequence(txns, mine);
    Filter(txns, mine)
  }

  class Store {
    var products: seq<Product>
    var movements: seq<Movement>
    var members: seq<Member>
    var memberTxns: seq<MemberTxn>
    var sales: seq<Sale>

    /** Product and member ids increase along their arrays (so each id names one
        record), and the append-only logs are numbered 1, 2, 3, ... */
    ghost predicate Valid()
      reads this
    {
      && IncreasingIds(products, ProductIdOf)
      && IncreasingIds(members, MemberIdOf)
      && Numbered(movements, MovementIdOf)
      && Numbered(memberTxns, TxnIdOf)
      && Numbered(sales, SaleIdOf)
    }

    /** The mock catalogue and member list the module starts from, empty logs. */
    constructor (seedProducts: seq<Product>, seedMembers: seq<Member>)
      requires IncreasingIds(seedProducts, ProductIdOf) && IncreasingIds(seedMembers, MemberIdOf)
      ensures Valid()
      ensures products == seedProducts && members == seedMembers
      ensures movements == [] && memberTxns == [] && sales == []
    {
      products, members := seedProducts, seedMembers;
      movements, memberTxns, sales := [], [], [];
    }

    /** `POST /api/products`. */
    method CreateProduct(body: ProductBody, now: int) returns (r: Reply<Product>)
      requires Valid()
      modifies this
      ensures Valid()
      ensures r.Ok? <==> CreateAccepts(body)
      ensures !r.Ok? ==> r.BadRequest? && products == old(products) && movements == old(movements)
      ensures r.Ok? ==>
        && r.value == Product(NextId(old(products), ProductIdOf), body.name.value, body.barcode.value,
                              body.category.value, body.price.value, body.unit.value, body.stock.value)
        && products == old(products) + [r.value]
        && movements == old(movements) + [Movement(|old(movements)| + 1, r.value.id, AddStock, body.stock.value, now)]
      ensures members == old(members) && memberTxns == old(memberTxns) && sales == old(sales)
    {
      if !CreateAccepts(body) {
        return BadRequest;
      }
      var p := Product(NextId(products, ProductIdOf), body.name.value, body.barcode.value,
                       body.category.value, body.price.value, body.unit.value, body.stock.value);
      products := products + [p];
      movements := movements + [Movement(|movements| + 1, p.id, AddStock, body.stock.value, now)];
      r := Ok(p);
    }

    /** `DELETE /api/products/:id`. */
    method DeleteProduct(id: int) returns (r: Reply<()>)
      requires Valid()
      modifies this
      ensures Valid()
      ensures r.Ok? || r.NotFound?
      ensures r.NotFound? <==> forall j :: 0 <= j < |old(products)| ==> old(products)[j].id != id
      ensures r.NotFound? ==> products == old(products)
      ensures r.Ok? ==> var k := ProductIndex(old(products), id).value;
        products == old(products)[..k] + old(products)[k + 1..]
      ensures forall p :: p in products <==> p in old(products) && p.id != id
      ensures movements == old(movements) && members == old(members)
      ensures memberTxns == old(memberTxns) && sales == old(sales)
    {
      var k := ProductIndex(products, id);
      if k.None? {
        return NotFound;
      }
      var i := k.value;
      IncreasingIdsRemove(products, ProductIdOf, i);
      RemoveAtMembers(products, ProductIdOf, i);
      products := products[..i] + products[i + 1..];
      r := Ok(());
    }

    /** `PUT /api/products/:id`. */
    method UpdateProduct(id: int, body: ProductBody) returns (r: Reply<Product>)
      requires Valid()
      modifies this
      ensures Valid()
      ensures r.Ok? || r.NotFound?
      ensures r.NotFound? <==> forall j :: 0 <= j < |old(products)| ==> old(products)[j].id != id
      ensures r.NotFound? ==> products == old(products)
      ensures r.Ok? ==> var k := ProductIndex(old(products), id).value;
        r.value == ApplyEdits(old(products)[k], body) && products == old(products)[k := r.value]
      ensures movements == old(movements) && members == old(members)
      ensures memberTxns == old(memberTxns) && sales == old(sales)
    {
      var k := ProductIndex(products, id);
      if k.None? {
        return NotFound;
      }
      var q := ApplyEdits(products[k.value], body);
      products := products[k.value := q];
      r := Ok(q);
    }

    /** `POST /api/products/:id/stock` with `type` 'sale' or 'receive'. */
    method AdjustStock(id: int, kind: string, amount: Option<int>, now: int) returns (r: Reply<Product>)
      requires Valid()
      modifies this
      ensures Valid()
      ensures var k := ProductIndex(old(products), id);
        && (k.None? <==> r.NotFound?)
        && (r.Ok? <==>
              (k.Some? && amount.Some? &&
               (kind == "receive" || (kind == "sale" && old(products)[k.value].stock >= amount.value))))
        && (r.Ok? ==>
              var p := old(products)[k.value];
              var q := p.(stock := if kind == "sale" then p.stock - amount.value else p.stock + amount.value);
              && r.value == q
              && products == old(products)[k.value := q]
              && movements == old(movements) +
                   [Movement(|old(movements)| + 1, id, if kind == "sale" then SaleStock else ReceiveStock, amount.value, now)])
      ensures !r.Ok? ==> (r.NotFound? || r.BadRequest?) && products == old(products) && movements == old(movements)
      ensures r.Ok? && kind == "sale" ==> r.value.stock >= 0
      ensures members == old(members) && memberTxns == old(memberTxns) && sales == old(sales)
    {
      var k := ProductIndex(products, id);
      if k.None? {
        return NotFound;
      }
      if !(kind == "sale" || kind == "receive") || amount.None? {
        return BadRequest;
      }
      var p := products[k.value];
      var q: Product;
      var movementKind: MovementKind;
      if kind == "sale" {
        if p.stock < amount.value {
          return BadRequest;
        }
        q := p.(stock := p.stock - amount.value);
        movementKind := SaleStock;
      } else {
        q := p.(stock := p.stock + amount.value);
        movementKind := ReceiveStock;
      }
      products := products[k.value := q];
      movements := movements + [Movement(|movements| + 1, id, movementKind, amount.value, now)];
      r := Ok(q);
    }

    /** `POST /api/products/scan-in`: one more unit of a known barcode, or a new
        blank product (price 0) holding one unit. */
    method ScanIn(barcode: Option<string>, now: int) returns (r: Reply<Product>)
      requires Valid()
      modifies this
      ensures Valid()
      ensures r.BadRequest? <==> !Truthy(barcode)
      ensures r.BadRequest? ==> products == old(products) && movements == old(movements)
      ensures !r.BadRequest? ==> r.Ok? && |movements| == |old(movements)| + 1
      ensures Truthy(barcode) ==>
        match BarcodeIndex(old(products), barcode.value)
        case Some(k) =>
          var q := old(products)[k].(stock := old(products)[k].stock + 1);
          && r.value == q && products == old(products)[k := q]
          && movements == old(movements) + [Movement(|old(movements)| + 1, q.id, ReceiveStock, 1, now)]
        case None =>
          && r.value == Product(NextId(old(products), ProductIdOf), "", barcode.value, "", 0.0, "", 1)
          && products == old(products) + [r.value]
          && movements == old(movements) + [Movement(|old(movements)| + 1, r.value.id, AddStock, 1, now)]
      ensures members == old(members) && memberTxns == old(memberTxns) && sales == old(sales)
    {
      if !Truthy(barcode) {
        return BadRequest;
      }
      var k := BarcodeIndex(products, barcode.value);
      if k.Some? {
        var q := products[k.value].(stock := products[k.value].stock + 1);
        products := products[k.value := q];
        movements := movements + [Movement(|movements| + 1, q.id, ReceiveStock, 1, now)];
        r := Ok(q);
      } else {
        var p := Product(NextId(products, ProductIdOf), "", barcode.value, "", 0.0, "", 1);
        products := products + [p];
        movements := movements + [Movement(|movements| + 1, p.id, AddStock, 1, now)];
        r := Ok(p);
      }
    }

    /** `POST /api/products/update-stock`; `items` is `None` when the body's
        `items` is not an array. */
    method UpdateStock(items: Option<seq<StockLine>>, now: int) returns (r: Reply<()>)
      requires Valid()
      modifies this
      ensures Valid()
      ensures items.None? ==> r.BadRequest? && products == old(products) && movements == old(movements)
      ensures items.Some? ==>
        StockRun(products, movements, r) == RunStockLines(old(products), old(movements), items.value, now)
      ensures members == old(members) && memberTxns == old(memberTxns) && sales == old(sales)
    {
      if items.None? {
        return BadRequest;
      }
      var lines := items.value;
      var ps, ms := products, movements;
      var i := 0;
      while i < |lines|
        invariant 0 <= i <= |lines|
        invariant IncreasingIds(ps, ProductIdOf) && Numbered(ms, MovementIdOf)
        invariant RunStockLines(old(products), old(movements), lines, now) == RunStockLines(ps, ms, lines[i..], now)
        invariant unchanged(this)
      {
        var line := lines[i];
        RunStockLinesStep(ps, ms, lines, i, now);
        var k := ProductIndex(ps, line.id);
        if k.None? {
          products, movements := ps, ms;
          return NotFound;
        }
        if ps[k.value].stock < line.quantity {
          products, movements := ps, ms;
          return BadRequest;
        }
        var p := ps[k.value].(stock := ps[k.value].stock - line.quantity);
        var m := SaleMovement(line, |ms| + 1, now);
        IncreasingIdsUpdate(ps, ProductIdOf, k.value, p);
        NumberedAppend(ms, MovementIdOf, m);
        ps, ms := ps[k.value := p], ms + [m];
        i := i + 1;
      }
      products, movements := ps, ms;
      r := Ok(());
    }

    /** `POST /api/members`: a silver member with 5% discount and no points. */
    method CreateMember(name: Option<string>, phone: Option<string>, now: int) returns (r: Reply<Member>)
      requires Valid()
      modifies this
      ensures Valid()
      ensures r.Ok? <==> Truthy(name) && Truthy(phone)
      ensures !r.Ok? ==> r.BadRequest? && members == old(members)
      ensures r.Ok? ==>
        && r.value == Member(NextId(old(members), MemberIdOf), name.value, phone.value, 0, "silver", 5.0, now)
        && members == old(members) + [r.value]
      ensures products == old(products) && movements == old(movements)
      ensures memberTxns == old(memberTxns) && sales == old(sales)
    {
      if !(Truthy(name) && Truthy(phone)) {
        return BadRequest;
      }
      var m := Member(NextId(members, MemberIdOf), name.value, phone.value, 0, "silver", 5.0, now);
      members := members + [m];
      r := Ok(m);
    }

    /** `POST /api/sales`: price the sale for its member (if the id is truthy and
        known), credit the points, log a member transaction, and record the sale
        as number `sales.length + 1`. Stock is not touched here. */
    method RecordSale(items: seq<SaleItem>, total: real, paymentMethod: Option<string>,
                      memberId: Option<int>, timestamp: Option<int>, now: int) returns (r: SaleReceipt)
      requires Valid()
      modifies this
      ensures Valid()
      ensures var k := SaleMember(old(members), memberId);
        var price := PriceSale(total, if k.Some? then Some(old(members)[k.value]) else None);
        var at := timestamp.GetOr(now);
        && r.sale == Sale(|old(sales)| + 1, items, price.finalTotal, price.memberDiscount,
                          price.pointsEarned, paymentMethod, memberId, at)
        && r.memberDiscount == price.memberDiscount && r.pointsEarned == price.pointsEarned
        && sales == old(sales) + [r.sale]
        && (k.None? ==> members == old(members) && memberTxns == old(memberTxns))
        && (k.Some? ==>
              var m := old(members)[k.value];
              && members == old(members)[k.value := m.(points := m.points + price.pointsEarned)]
              && memberTxns == old(memberTxns) +
                   [MemberTxn(|old(memberTxns)| + 1, memberId.value, items, price.finalTotal,
                              price.memberDiscount, price.pointsEarned, at)])
      ensures products == old(products) && movements == old(movements)
    {
      var at := timestamp.GetOr(now);
      var k := SaleMember(members, memberId);
      var price := PriceSale(total, if k.Some? then Some(members[k.value]) else None);
      if k.Some? {
        var m := members[k.value];
        members := members[k.value := m.(points := m.points + price.pointsEarned)];
        memberTxns := memberTxns + [MemberTxn(|memberTxns| + 1, memberId.value, items, price.finalTotal,
                                              price.memberDiscount, price.pointsEarned, at)];
      }
      var sale := Sale(|sales| + 1, items, price.finalTotal, price.memberDiscount,
                       price.pointsEarned, paymentMethod, memberId, at);
      sales := sales + [sale];
      r := SaleReceipt(sale, price.memberDiscount, price.pointsEarned);
    }
  }
}
