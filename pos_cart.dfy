/** The cart of the point-of-sale screen (`src/components/POS.js`): the lines
    the cashier builds by clicking or scanning products, the totals preview,
    the checks made before a checkout is sent and the payload it sends. Every
    cart update returns a new list, as the component's `setCart` callbacks do;
    members are the records `/api/members` returns. */
module PosCart {
  import opened Common
  import opened Aggregation
  import opened InventoryStore
  import AltStore

  /** A product as the screen holds it (the fields the cart uses). */
  datatype PosProduct = PosProduct(id: int, name: string, price: real, stock: int)

  /** A cart line: the product spread with a quantity; `stock` is the
      snapshot taken when the line was made (or last scanned). */
  datatype CartLine = CartLine(id: int, name: string, price: real, stock: int, quantity: int)

  /** `{ ...product, quantity: 1 }`. */
  function NewLine(p: PosProduct): CartLine {
    CartLine(p.id, p.name, p.price, p.stock, 1)
  }

  function CartAmount(l: CartLine): real { l.price * l.quantity as real }

  function HasId(id: int): CartLine -> bool {
    (l: CartLine) => l.id == id
  }

  function OtherId(id: int): CartLine -> bool {
    (l: CartLine) => l.id != id
  }

  /** At most one line per product, as the cart updates keep it. */
  predicate DistinctIds(cart: seq<CartLine>) {
    forall i, j :: 0 <= i < j < |cart| ==> cart[i].id != cart[j].id
  }

  /** `cart.find(item => item.id === id)`. */
  function LineIndex(cart: seq<CartLine>, id: int): Option<nat> {
    FindIndex(cart, HasId(id))
  }

  /** The quantity on the line for `id`, 0 when there is none. */
  function InCart(cart: seq<CartLine>, id: int): int {
    match LineIndex(cart, id)
    case None => 0
    case Some(k) => cart[k].quantity
  }

  /** `cart.map(item => item.id === id ? f(item) : item)`. */
  function MapId(cart: seq<CartLine>, id: int, f: CartLine -> CartLine): (r: seq<CartLine>)
    ensures |r| == |cart|
    ensures forall i :: 0 <= i < |r| ==> r[i] == if cart[i].id == id then f(cart[i]) else cart[i]
  {
    if cart == [] then []
    else [if cart[0].id == id then f(cart[0]) else cart[0]] + MapId(cart[1..], id, f)
  }

  function Increment(l: CartLine): CartLine {
    l.(quantity := l.quantity + 1)
  }

  function IncrementTo(stock: int): CartLine -> CartLine {
    (l: CartLine) => l.(quantity := l.quantity + 1, stock := stock)
  }

  function SetQuantity(qty: int): CartLine -> CartLine {
    (l: CartLine) => l.(quantity := if qty > 1 then qty else 1)
  }

  /** Rewriting the lines of one id by an id-preserving map leaves the other
      lines, and their order, as they were. */
  lemma {:induction false} MapIdOthers(cart: seq<CartLine>, id: int, f: CartLine -> CartLine)
    requires forall i :: 0 <= i < |cart| ==> f(cart[i]).id == cart[i].id
    ensures Filter(MapId(cart, id, f), OtherId(id)) == Filter(cart, OtherId(id))
  {
    if cart != [] {
      var r := MapId(cart, id, f);
      assert r[1..] == MapId(cart[1..], id, f);
      MapIdOthers(cart[1..], id, f);
    }
  }

  /** An id-preserving map keeps the lines one per id, and changes the first
      line of `id` as it changes any. */
  lemma MapIdFacts(cart: seq<CartLine>, id: int, f: CartLine -> CartLine)
    requires forall i :: 0 <= i < |cart| ==> f(cart[i]).id == cart[i].id
    ensures DistinctIds(cart) ==> DistinctIds(MapId(cart, id, f))
    ensures LineIndex(MapId(cart, id, f), id) == LineIndex(cart, id)
    ensures forall other :: other != id ==> InCart(MapId(cart, id, f), other) == InCart(cart, other)
  {
    var r := MapId(cart, id, f);
    assert forall i :: 0 <= i < |cart| ==> r[i].id == cart[i].id;
    FindIndexSameIds(cart, r, id);
    forall other | other != id ensures InCart(r, other) == InCart(cart, other) {
      FindIndexSameIds(cart, r, other);
    }
  }

  lemma FindIndexSameIds(a: seq<CartLine>, b: seq<CartLine>, id: int)
    requires |a| == |b| && forall i :: 0 <= i < |a| ==> a[i].id == b[i].id
    ensures LineIndex(a, id) == LineIndex(b, id)
  {
    var x, y := LineIndex(a, id), LineIndex(b, id);
    if x.Some? && y.Some? {
      assert !(x.value < y.value) && !(y.value < x.value);
    }
  }

  // ---------------------------------------------------------------------------
  // Cart updates.

  /** `addToCart`: one more of a product already in the cart while its quantity
      is below the product's stock; otherwise a new line of one. */
  function AddToCart(cart: seq<CartLine>, p: PosProduct): seq<CartLine> {
    match LineIndex(cart, p.id)
    case Some(k) => if cart[k].quantity < p.stock then MapId(cart, p.id, Increment) else cart
    case None => cart + [NewLine(p)]
  }

  /** Lines of other products are untouched, one line per product is kept, and
      the product's quantity goes up by exactly one unless its line is already
      at the product's stock; a product is never added past a stock of at
      least one. */
  lemma AddToCartFacts(cart: seq<CartLine>, p: PosProduct)
    ensures var r := AddToCart(cart, p);
      && Filter(r, OtherId(p.id)) == Filter(cart, OtherId(p.id))
      && (DistinctIds(cart) ==> DistinctIds(r))
      && (LineIndex(cart, p.id).None? ==> r == cart + [NewLine(p)])
      && (LineIndex(cart, p.id).Some? ==>
            InCart(r, p.id) == if InCart(cart, p.id) < p.stock then InCart(cart, p.id) + 1 else InCart(cart, p.id))
      && (1 <= p.stock && InCart(cart, p.id) <= p.stock ==> InCart(r, p.id) <= p.stock)
  {
    AddToCartKeepsOthers(cart, p);
    AddToCartQuantity(cart, p);
  }

  lemma AddToCartKeepsOthers(cart: seq<CartLine>, p: PosProduct)
    ensures var r := AddToCart(cart, p);
      && Filter(r, OtherId(p.id)) == Filter(cart, OtherId(p.id))
      && (DistinctIds(cart) ==> DistinctIds(r))
      && (LineIndex(cart, p.id).None? ==> r == cart + [NewLine(p)])
  {
    match LineIndex(cart, p.id)
    case Some(k) =>
      if cart[k].quantity < p.stock {
        MapIdOthers(cart, p.id, Increment);
        MapIdFacts(cart, p.id, Increment);
      }
    case None =>
      FilterAppend(cart, [NewLine(p)], OtherId(p.id));
      assert Filter([NewLine(p)], OtherId(p.id)) == [];
      AppendNewId(cart, NewLine(p));
  }

  lemma AddToCartQuantity(cart: seq<CartLine>, p: PosProduct)
    ensures var r := AddToCart(cart, p);
      && (LineIndex(cart, p.id).Some? ==>
            InCart(r, p.id) == if InCart(cart, p.id) < p.stock then InCart(cart, p.id) + 1 else InCart(cart, p.id))
      && (1 <= p.stock && InCart(cart, p.id) <= p.stock ==> InCart(r, p.id) <= p.stock)
  {
    var r := AddToCart(cart, p);
    match LineIndex(cart, p.id)
    case Some(k) =>
      if cart[k].quantity < p.stock {
        assert r == MapId(cart, p.id, Increment);
        MapIdFacts(cart, p.id, Increment);
      }
    case None =>
      assert r == cart + [NewLine(p)];
      AppendNewId(cart, NewLine(p));
  }

  /** Appending a line whose id is not in the cart keeps one line per id and
      puts the line first for its id. */
  lemma AppendNewId(cart: seq<CartLine>, l: CartLine)
    requires LineIndex(cart, l.id).None?
    ensures DistinctIds(cart) ==> DistinctIds(cart + [l])
    ensures LineIndex(cart + [l], l.id) == Some(|cart|)
  {
    var r := cart + [l];
    assert forall i :: 0 <= i < |cart| ==> r[i] == cart[i];
    assert HasId(l.id)(r[|cart|]);
  }

  /** What a scan tells the cashier. */
  datatype ScanOutcome = NoProduct | SoldOut | AtStock | Incremented | Added

  /** `handleScanSuccess`: nothing found or nothing in stock leaves the cart as
      it is; a product in the cart goes up by one (refreshing its stock
      snapshot) unless that would pass the stock; a new product gets a line of one. */
  function ScanToCart(cart: seq<CartLine>, found: Option<PosProduct>): (seq<CartLine>, ScanOutcome) {
    match found
    case None => (cart, NoProduct)
    case Some(p) =>
      if p.stock < 1 then (cart, SoldOut)
      else match LineIndex(cart, p.id)
        case Some(k) =>
          if cart[k].quantity + 1 > p.stock then (cart, AtStock)
          else (MapId(cart, p.id, IncrementTo(p.stock)), Incremented)
        case None => (cart + [NewLine(p)], Added)
  }

  /** The cart changes exactly when the scan reports an increment or an
      addition; then the scanned product's line holds at most its stock and
      the fresh stock figure, other lines are untouched and lines stay one per
      product. */
  lemma ScanToCartFacts(cart: seq<CartLine>, found: Option<PosProduct>)
    requires DistinctIds(cart)
    ensures var (r, outcome) := ScanToCart(cart, found);
      && (outcome == NoProduct <==> found.None?)
      && (outcome == SoldOut <==> found.Some? && found.value.stock < 1)
      && (outcome in {NoProduct, SoldOut, AtStock} ==> r == cart)
      && (outcome in {Incremented, Added} ==>
            var p := found.value;
            && DistinctIds(r)
            && Filter(r, OtherId(p.id)) == Filter(cart, OtherId(p.id))
            && InCart(r, p.id) == InCart(cart, p.id) + 1
            && InCart(r, p.id) <= p.stock
            && r[LineIndex(r, p.id).value].stock == p.stock)
  {
    var (r, outcome) := ScanToCart(cart, found);
    if outcome == Incremented {
      var p := found.value;
      MapIdOthers(cart, p.id, IncrementTo(p.stock));
      MapIdFacts(cart, p.id, IncrementTo(p.stock));
    } else if outcome == Added {
      var p := found.value;
      FilterAppend(cart, [NewLine(p)], OtherId(p.id));
      assert Filter([NewLine(p)], OtherId(p.id)) == [];
      AppendNewId(cart, NewLine(p));
    }
  }

  /** `removeFromCart`: `cart.filter(i => i.id !== id)`. */
  function RemoveFromCart(cart: seq<CartLine>, id: int): (r: seq<CartLine>)
    ensures forall l :: l in r <==> l in cart && l.id != id
    ensures LineIndex(r, id).None?
    ensures Subsequence(r, cart)
  {
    FilterSubsequence(cart, OtherId(id));
    Filter(cart, OtherId(id))
  }

  /** In a cart with one line per product, removing a product cuts its line
      out and leaves the others in place; removing an absent product changes
      nothing. */
  lemma RemoveFromCartSplice(cart: seq<CartLine>, id: int)
    requires DistinctIds(cart)
    ensures LineIndex(cart, id).Some? ==>
      var i := LineIndex(cart, id).value;
      RemoveFromCart(cart, id) == cart[..i] + cart[i + 1..]
    ensures LineIndex(cart, id).None? ==> RemoveFromCart(cart, id) == cart
  {
    match LineIndex(cart, id)
    case Some(i) =>
      forall j | 0 <= j < |cart| && j != i ensures OtherId(id)(cart[j]) {
        assert cart[j].id != cart[i].id;
      }
      FilterDropsOne(cart, OtherId(id), i);
    case None =>
      FilterKeepsAll(cart, OtherId(id));
  }

  /** `updateQty`: the product's lines get `Math.max(1, qty)`, with no cap at
      the stock snapshot. */
  function UpdateQty(cart: seq<CartLine>, id: int, qty: int): seq<CartLine> {
    MapId(cart, id, SetQuantity(qty))
  }

  /** Only the quantity of that product's lines changes, to at least one, and
      setting it twice is setting it once. */
  lemma UpdateQtyFacts(cart: seq<CartLine>, id: int, qty: int)
    ensures var r := UpdateQty(cart, id, qty);
      && |r| == |cart|
      && (forall i :: 0 <= i < |r| ==>
            r[i].(quantity := cart[i].quantity) == cart[i] &&
            (cart[i].id == id ==> r[i].quantity == (if qty > 1 then qty else 1)))
      && Filter(r, OtherId(id)) == Filter(cart, OtherId(id))
      && (DistinctIds(cart) ==> DistinctIds(r))
      && UpdateQty(r, id, qty) == r
  {
    UpdateQtyLines(cart, id, qty);
    MapIdOthers(cart, id, SetQuantity(qty));
    MapIdFacts(cart, id, SetQuantity(qty));
    UpdateQtyTwice(cart, id, qty);
  }

  lemma UpdateQtyLines(cart: seq<CartLine>, id: int, qty: int)
    ensures var r := UpdateQty(cart, id, qty);
      && |r| == |cart|
      && forall i :: 0 <= i < |r| ==>
           r[i].(quantity := cart[i].quantity) == cart[i] &&
           (cart[i].id == id ==> r[i].quantity == (if qty > 1 then qty else 1))
  {
    var r := UpdateQty(cart, id, qty);
    forall i | 0 <= i < |r|
      ensures r[i].(quantity := cart[i].quantity) == cart[i]
      ensures cart[i].id == id ==> r[i].quantity == (if qty > 1 then qty else 1)
    {
      SetQuantityApply(qty, cart[i]);
    }
  }

  lemma UpdateQtyTwice(cart: seq<CartLine>, id: int, qty: int)
    ensures UpdateQty(UpdateQty(cart, id, qty), id, qty) == UpdateQty(cart, id, qty)
  {
    var r := UpdateQty(cart, id, qty);
    var rr := UpdateQty(r, id, qty);
    forall i | 0 <= i < |r| ensures rr[i] == r[i] {
      SetQuantityApply(qty, r[i]);
      SetQuantityApply(qty, cart[i]);
    }
  }

  lemma SetQuantityApply(qty: int, l: CartLine)
    ensures SetQuantity(qty)(l) == l.(quantity := if qty > 1 then qty else 1)
  {
  }

  /** Removing a product undoes adding it. */
  lemma RemoveUndoesAdd(cart: seq<CartLine>, p: PosProduct)
    ensures RemoveFromCart(AddToCart(cart, p), p.id) == RemoveFromCart(cart, p.id)
  {
    AddToCartFacts(cart, p);
  }

  /** Removing a product undoes scanning it. */
  lemma RemoveUndoesScan(cart: seq<CartLine>, p: PosProduct)
    ensures RemoveFromCart(ScanToCart(cart, Some(p)).0, p.id) == RemoveFromCart(cart, p.id)
  {
    if p.stock >= 1 {
      match LineIndex(cart, p.id)
      case Some(k) =>
        if cart[k].quantity + 1 <= p.stock {
          assert ScanToCart(cart, Some(p)).0 == MapId(cart, p.id, IncrementTo(p.stock));
          MapIdOthers(cart, p.id, IncrementTo(p.stock));
        }
      case None =>
        assert ScanToCart(cart, Some(p)).0 == cart + [NewLine(p)];
        FilterAppend(cart, [NewLine(p)], OtherId(p.id));
        assert Filter([NewLine(p)], OtherId(p.id)) == [];
    }
  }

  /** Removing a product undoes changing its quantity. */
  lemma RemoveUndoesUpdateQty(cart: seq<CartLine>, id: int, qty: int)
    ensures RemoveFromCart(UpdateQty(cart, id, qty), id) == RemoveFromCart(cart, id)
  {
    MapIdOthers(cart, id, SetQuantity(qty));
  }

  /** A click compares the line with the product list's stock, not with the
      line's own snapshot, and leaves the snapshot alone: after a scan stored a
      lower figure on the line, a click takes the line past it. */
  lemma AddToCartCanPassStock(cart: seq<CartLine>, p: PosProduct, k: nat)
    requires LineIndex(cart, p.id) == Some(k)
    requires cart[k].stock <= cart[k].quantity < p.stock
    ensures var r := AddToCart(cart, p);
      |r| == |cart| && r[k].quantity == cart[k].quantity + 1 > r[k].stock == cart[k].stock
  {
    MapIdFacts(cart, p.id, Increment);
  }

  /** The "+" button calls `updateQty` with one more only while the line is
      below its snapshot, so it never takes a line (which holds at least one)
      past it. */
  lemma PlusButtonWithinStock(cart: seq<CartLine>, id: int, k: nat)
    requires LineIndex(cart, id) == Some(k)
    requires 1 <= cart[k].quantity < cart[k].stock
    ensures var r := UpdateQty(cart, id, cart[k].quantity + 1);
      |r| == |cart| && r[k].quantity <= r[k].stock
  {
    assert HasId(id)(cart[k]);
    SetQuantityApply(cart[k].quantity + 1, cart[k]);
  }

  /** `updateQty` itself has no cap: whatever the snapshot, the line holds the
      quantity asked for. Only the "+" button's guard keeps it in bounds. */
  lemma UpdateQtyCanPassStock(cart: seq<CartLine>, id: int, qty: int, i: nat)
    requires LineIndex(cart, id) == Some(i)
    requires qty > cart[i].stock && qty >= 1
    ensures var r := UpdateQty(cart, id, qty);
      |r| == |cart| && r[i].quantity == qty > r[i].stock == cart[i].stock
  {
    UpdateQtyFacts(cart, id, qty);
  }

  // ---------------------------------------------------------------------------
  // The totals preview (the effect on cart, received amount and member).

  function Subtotal(cart: seq<CartLine>): real {
    Sum(cart, CartAmount)
  }

  datatype CartTotals = CartTotals(total: real, change: real, memberDiscount: real, pointsEarned: int)

  function SyncTotals(cart: seq<CartLine>, received: real, member: Option<Member>): (r: CartTotals)
    ensures r.total == Subtotal(cart)
    ensures r.change == received - (r.total - r.memberDiscount)
    ensures member.None? ==> r.memberDiscount == 0.0 && r.pointsEarned == 0
    ensures member.Some? ==> r.memberDiscount * 100.0 == r.total * member.value.discount
    ensures member.Some? ==>
      (r.pointsEarned as real) * 100.0 <= r.total - r.memberDiscount < (r.pointsEarned as real + 1.0) * 100.0
  {
    var subtotal := Subtotal(cart);
    match member
    case None => CartTotals(subtotal, received - subtotal, 0.0, 0)
    case Some(m) =>
      var discount := (subtotal * m.discount) / 100.0;
      CartTotals(subtotal, received - (subtotal - discount), discount, ((subtotal - discount) / 100.0).Floor)
  }

  /** The preview prices a cart exactly as the backend's sale handler prices its
      subtotal for the same member. */
  lemma PreviewMatchesBackend(cart: seq<CartLine>, received: real, member: Option<Member>)
    ensures var t := SyncTotals(cart, received, member);
      PriceSale(Subtotal(cart), member) == Pricing(t.total - t.memberDiscount, t.memberDiscount, t.pointsEarned)
  {
  }

  /** The payment entries; `cash` is the only one with arithmetic. */
  datatype PaymentDetails = PaymentDetails(
    cashReceived: real, cashChange: real,
    bank: string, transferReference: string,
    qrProvider: string, qrReference: string,
    cardType: string, last4: string)

  const FreshPayment := PaymentDetails(0.0, 0.0, "", "", "", "", "", "")

  /** The register state the cart handlers read and write. */
  datatype Register = Register(
    cart: seq<CartLine>, total: real, memberDiscount: real,
    payment: PaymentDetails, receivedAmount: real)

  /** Typing the cash received: the change is worked out against the total and
      member discount currently shown. */
  function EnterCash(reg: Register, received: real): (r: Register)
    ensures r.payment.cashReceived == received && r.receivedAmount == received
    ensures r.payment.cashChange == received - (reg.total - reg.memberDiscount)
    ensures r.cart == reg.cart && r.total == reg.total && r.memberDiscount == reg.memberDiscount
    ensures r.payment.(cashReceived := reg.payment.cashReceived, cashChange := reg.payment.cashChange) == reg.payment
  {
    reg.(payment := reg.payment.(cashReceived := received,
                                 cashChange := received - (reg.total - reg.memberDiscount)),
         receivedAmount := received)
  }

  /** When the shown totals are the preview's, the change on the cash form is
      the preview's change. */
  lemma CashChangeAgrees(reg: Register, received: real, member: Option<Member>, before: real)
    requires reg.total == SyncTotals(reg.cart, before, member).total
    requires reg.memberDiscount == SyncTotals(reg.cart, before, member).memberDiscount
    ensures EnterCash(reg, received).payment.cashChange == SyncTotals(reg.cart, received, member).change
  {
  }

  /** `resetCart`: empties the cart, zeroes the total and clears the payment
      entries; the received amount and the member discount are left as they were. */
  function ResetCart(reg: Register): (r: Register)
    ensures r.cart == [] && r.total == 0.0 && r.payment == FreshPayment
    ensures r.receivedAmount == reg.receivedAmount && r.memberDiscount == reg.memberDiscount
  {
    reg.(cart := [], total := 0.0, payment := FreshPayment)
  }

  /** After a reset the preview is all zeros but for the change, which still
      counts the last amount received. */
  lemma ResetPreview(reg: Register, member: Option<Member>)
    ensures var t := SyncTotals(ResetCart(reg).cart, reg.receivedAmount, member);
      t.total == 0.0 && t.memberDiscount == 0.0 && t.pointsEarned == 0 && t.change == reg.receivedAmount
  {
    var t := SyncTotals([], reg.receivedAmount, member);
    if member.Some? {
      assert t.memberDiscount * 100.0 == 0.0;
    }
  }

  // ---------------------------------------------------------------------------
  // Checkout.

  /** Which customer the select shows: walk-in or member. */
  datatype CustomerKind = WalkIn | MemberCustomer

  /** The body of `POST /api/sales`; `total` is the subtotal before any discount. */
  datatype SalePayload = SalePayload(
    items: seq<SaleItem>, total: real, paymentMethod: string, memberId: Option<int>)

  datatype Checkout = CashShort | OverStock(line: CartLine) | Send(stock: seq<StockLine>, sale: SalePayload)

  function IsOverStock(l: CartLine): bool { l.quantity > l.stock }

  function StockRequest(cart: seq<CartLine>): (r: seq<StockLine>)
    ensures |r| == |cart|
    ensures forall i :: 0 <= i < |r| ==> r[i] == StockLine(cart[i].id, cart[i].quantity)
  {
    seq(|cart|, i requires 0 <= i < |cart| => StockLine(cart[i].id, cart[i].quantity))
  }

  function SaleLines(cart: seq<CartLine>): (r: seq<SaleItem>)
    ensures |r| == |cart|
    ensures forall i :: 0 <= i < |r| ==>
      r[i] == SaleItem(cart[i].id, cart[i].name, cart[i].price, cart[i].quantity)
  {
    if cart == [] then []
    else [SaleItem(cart[0].id, cart[0].name, cart[0].price, cart[0].quantity)] + SaleLines(cart[1..])
  }

  function SaleItemAmount(i: SaleItem): real { i.price * i.quantity as real }

  /** The lines sent add up to the subtotal sent. */
  lemma {:induction false} SaleLinesTotal(cart: seq<CartLine>)
    ensures Sum(SaleLines(cart), SaleItemAmount) == Subtotal(cart)
  {
    if cart != [] {
      SaleLinesTotal(cart[1..]);
      assert SaleLines(cart)[1..] == SaleLines(cart[1..]);
    }
  }

  /** `handleCheckout` up to the requests: a cash payment short of the amount
      due stops it, then the first line over its stock snapshot does; otherwise
      the stock request and the sale are sent. `shown` is the register's total
      and member discount. */
  function CheckoutOf(cart: seq<CartLine>, shown: CartTotals, customer: CustomerKind, member: Option<Member>,
                      paymentMethod: string, cashReceived: real): Checkout
  {
    if paymentMethod == "cash" && cashReceived < shown.total - shown.memberDiscount then CashShort
    else match FindIndex(cart, IsOverStock)
      case Some(k) => OverStock(cart[k])
      case None =>
        var memberId := if customer == MemberCustomer && member.Some? then Some(member.value.id) else None;
        Send(StockRequest(cart), SalePayload(SaleLines(cart), Subtotal(cart), paymentMethod, memberId))
  }

  /** The checkout goes out exactly when neither guard trips; the cash guard is
      checked first and the stock guard names the first line over its stock. */
  lemma CheckoutGuards(cart: seq<CartLine>, shown: CartTotals, customer: CustomerKind, member: Option<Member>,
                       paymentMethod: string, cashReceived: real)
    ensures var c := CheckoutOf(cart, shown, customer, member, paymentMethod, cashReceived);
      && (c.CashShort? <==> paymentMethod == "cash" && cashReceived < shown.total - shown.memberDiscount)
      && (c.Send? <==>
            !(paymentMethod == "cash" && cashReceived < shown.total - shown.memberDiscount) &&
            forall l :: l in cart ==> l.quantity <= l.stock)
      && (c.OverStock? ==> c.line in cart && c.line.quantity > c.line.stock &&
                           exists k :: 0 <= k < |cart| && cart[k] == c.line &&
                             forall j :: 0 <= j < k ==> cart[j].quantity <= cart[j].stock)
  {
  }

  /** What is sent: one stock line and one sale line per cart line, the
      undiscounted subtotal (which the sale lines add up to) and the member id
      only for a member customer with a member picked. */
  lemma CheckoutPayload(cart: seq<CartLine>, shown: CartTotals, customer: CustomerKind, member: Option<Member>,
                        paymentMethod: string, cashReceived: real)
    ensures var c := CheckoutOf(cart, shown, customer, member, paymentMethod, cashReceived);
      c.Send? ==>
        && c.stock == StockRequest(cart)
        && |c.sale.items| == |cart|
        && (forall i :: 0 <= i < |cart| ==>
              c.sale.items[i].id == cart[i].id && c.sale.items[i].quantity == cart[i].quantity)
        && c.sale.total == Subtotal(cart) == Sum(c.sale.items, SaleItemAmount)
        && c.sale.paymentMethod == paymentMethod
        && (c.sale.memberId.Some? <==> customer == MemberCustomer && member.Some?)
        && (c.sale.memberId.Some? ==> c.sale.memberId.value == member.value.id)
  {
    SaleLinesTotal(cart);
  }

  /** With the shown totals in step with the cart, a sent checkout is charged by
      the backend what the preview showed: the backend looks the sent member id
      up among the member records and finds the member picked on the screen
      (a picked member only counts for a member customer). */
  lemma CheckoutChargesPreview(cart: seq<CartLine>, received: real, customer: CustomerKind, member: Option<Member>,
                               members: seq<Member>, paymentMethod: string, cashReceived: real)
    requires IncreasingIds(members, MemberIdOf)
    requires customer == MemberCustomer || member.None?
    requires member.Some? ==> member.value in members && member.value.id != 0
    ensures var shown := SyncTotals(cart, received, member);
      var c := CheckoutOf(cart, shown, customer, member, paymentMethod, cashReceived);
      c.Send? ==>
        var found := SaleMember(members, c.sale.memberId);
        && (found.Some? <==> member.Some?)
        && PriceSale(c.sale.total, if found.Some? then Some(members[found.value]) else None)
           == Pricing(shown.total - shown.memberDiscount, shown.memberDiscount, shown.pointsEarned)
  {
    var shown := SyncTotals(cart, received, member);
    var c := CheckoutOf(cart, shown, customer, member, paymentMethod, cashReceived);
    if c.Send? {
      CheckoutPayload(cart, shown, customer, member, paymentMethod, cashReceived);
      PreviewMatchesBackend(cart, received, member);
      var found := SaleMember(members, c.sale.memberId);
      if member.Some? {
        var k :| 0 <= k < |members| && members[k] == member.value;
        assert found.Some?;
        assert found.value == k;
      }
    }
  }

  /** The `for ... of cart` loop with its `break`: whether every line is within
      its stock snapshot, and the first line that is not. */
  method CheckStock(cart: seq<CartLine>) returns (hasStock: bool, blocking: Option<CartLine>)
    ensures hasStock <==> forall l :: l in cart ==> l.quantity <= l.stock
    ensures hasStock <==> blocking.None?
    ensures blocking.Some? ==> blocking == Some(cart[FindIndex(cart, IsOverStock).value])
  {
    hasStock, blocking := true, None;
    var i := 0;
    while i < |cart|
      invariant 0 <= i <= |cart|
      invariant forall j :: 0 <= j < i ==> cart[j].quantity <= cart[j].stock
    {
      if cart[i].quantity > cart[i].stock {
        hasStock, blocking := false, Some(cart[i]);
        break;
      }
      i := i + 1;
    }
  }

  /** The sale lines carry no `productId`, so the backend on port 5001, which
      looks products up by that field, takes no stock off for a checkout. */
  function AltLines(items: seq<SaleItem>): (r: seq<AltStore.AltSaleItem>)
    ensures |r| == |items|
    ensures forall i :: 0 <= i < |r| ==> r[i].productId.None?
  {
    seq(|items|, i requires 0 <= i < |items| => AltStore.AltSaleItem(None, items[i].price, items[i].quantity))
  }

  lemma {:induction false} CheckoutLeavesAltStock(ps: seq<AltStore.AltProduct>, ms: seq<AltStore.AltMovement>,
                                                  items: seq<AltStore.AltSaleItem>, now: int)
    requires forall i :: 0 <= i < |items| ==> items[i].productId.None?
    ensures AltStore.ApplySaleItems(ps, ms, items, now) == AltStore.SaleRun(ps, ms)
    decreases |items|
  {
    if items != [] {
      CheckoutLeavesAltStock(ps, ms, items[1..], now);
    }
  }
}
