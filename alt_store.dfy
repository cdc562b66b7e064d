/** The alternate backend (`backend/server.js`): products, sales and a movement
    log in module-level arrays. Its rules differ from the primary backend's:
    a body may carry any field (an `id` included), products are created with no
    stock, movements are typed `in`/`out`, and a sale takes stock off without
    checking that it is there. Nothing keeps product ids unique, so every lookup
    takes the first match. */
module AltStore {
  import opened Common
  import opened Aggregation

  /** A product record; the fields a request body may leave out are optional. */
  datatype AltProduct = AltProduct(
    id: int, name: Option<string>, barcode: Option<string>, price: Option<real>, stock: int)

  /** The product fields a create or update body carries (other keys are not modelled). */
  datatype AltBody = AltBody(
    id: Option<int>, name: Option<string>, barcode: Option<string>,
    price: Option<real>, stock: Option<int>)

  /** One entry of the movement log; its note is not modelled. */
  datatype AltMovement = AltMovement(id: int, productId: int, quantity: int, kind: string, at: int)

  /** A sold line; `productId` is `None` when the client leaves it out. */
  datatype AltSaleItem = AltSaleItem(productId: Option<int>, price: real, quantity: int)

  datatype AltSale = AltSale(
    id: int, items: seq<AltSaleItem>, discount: real, paymentMethod: Option<string>,
    timestamp: int, total: real)

  /** The products and the movement log after a sale's stock pass. */
  datatype SaleRun = SaleRun(products: seq<AltProduct>, movements: seq<AltMovement>)

  function AltMovementIdOf(m: AltMovement): int { m.id }
  function AltSaleIdOf(s: AltSale): int { s.id }
  function LineAmount(i: AltSaleItem): real { i.price * i.quantity as real }

  /** `products.findIndex(p => p.id === id)`; an absent id matches nothing. */
  function AltIndex(ps: seq<AltProduct>, id: Option<int>): (r: Option<nat>)
    ensures r.Some? ==> id.Some? && r.value < |ps| && ps[r.value].id == id.value
    ensures r.Some? ==> forall j :: 0 <= j < r.value ==> ps[j].id != id.value
    ensures r.None? <==> id.None? || forall j :: 0 <= j < |ps| ==> ps[j].id != id.value
  {
    match id
    case None => None
    case Some(v) => FindIndex(ps, (p: AltProduct) => p.id == v)
  }

  /** Two product lists with the same ids position by position give the same lookups. */
  lemma SameIdsSameIndex(ps: seq<AltProduct>, qs: seq<AltProduct>, id: Option<int>)
    requires |ps| == |qs| && forall i :: 0 <= i < |ps| ==> ps[i].id == qs[i].id
    ensures AltIndex(ps, id) == AltIndex(qs, id)
  {
  }

  /** The spread `{ id: length + 1, ...body, stock: 0 }`: a body id wins over the
      generated one, and the stock is always 0. */
  function NewProduct(count: nat, body: AltBody): (p: AltProduct)
    ensures p.stock == 0
    ensures p.id == (if body.id.Some? then body.id.value else count + 1)
    ensures p.name == body.name && p.barcode == body.barcode && p.price == body.price
  {
    AltProduct(body.id.GetOr(count + 1), body.name, body.barcode, body.price, 0)
  }

  /** The spread `{ ...product, ...body }`: every field the body carries wins. */
  function Merge(p: AltProduct, body: AltBody): (q: AltProduct)
    ensures q.id == body.id.GetOr(p.id) && q.stock == body.stock.GetOr(p.stock)
    ensures q.name == (if body.name.Some? then body.name else p.name)
    ensures q.barcode == (if body.barcode.Some? then body.barcode else p.barcode)
    ensures q.price == (if body.price.Some? then body.price else p.price)
    ensures body == AltBody(None, None, None, None, None) ==> q == p
  {
    AltProduct(
      body.id.GetOr(p.id),
      if body.name.Some? then body.name else p.name,
      if body.barcode.Some? then body.barcode else p.barcode,
      if body.price.Some? then body.price else p.price,
      body.stock.GetOr(p.stock))
  }

  function NotId(id: int): AltProduct -> bool {
    (p: AltProduct) => p.id != id
  }

  /** `POST /api/products/scan`: the first product whose barcode equals the
      body's, where an absent barcode equals an absent one. Nothing changes. */
  function AltScan(ps: seq<AltProduct>, barcode: Option<string>): (r: Reply<AltProduct>)
    ensures !r.BadRequest?
    ensures r.Ok? ==> r.value in ps && r.value.barcode == barcode
    ensures r.Ok? ==> exists k :: 0 <= k < |ps| && ps[k] == r.value &&
                        forall j :: 0 <= j < k ==> ps[j].barcode != barcode
    ensures r.NotFound? <==> forall p :: p in ps ==> p.barcode != barcode
  {
    match FindIndex(ps, (p: AltProduct) => p.barcode == barcode)
    case None => NotFound
    case Some(k) => Ok(ps[k])
  }

  /** `items.reduce((sum, item) => sum + item.price * item.quantity, 0) - (discount || 0)`. */
  function AltSaleTotal(items: seq<AltSaleItem>, discount: Option<real>): (r: real)
    ensures r + discount.GetOr(0.0) == Sum(items, LineAmount)
  {
    Sum(items, LineAmount) - discount.GetOr(0.0)
  }

  // ---------------------------------------------------------------------------
  // The stock pass of a sale: `items.forEach` decrementing the first product
  // with the item's id, without any check, and logging an `out` movement.

  function ApplySaleItems(ps: seq<AltProduct>, ms: seq<AltMovement>, items: seq<AltSaleItem>, now: int): SaleRun
    decreases |items|
  {
    if items == [] then SaleRun(ps, ms)
    else
      var item := items[0];
      match AltIndex(ps, item.productId)
      case None => ApplySaleItems(ps, ms, items[1..], now)
      case Some(k) =>
        ApplySaleItems(ps[k := ps[k].(stock := ps[k].stock - item.quantity)],
                       ms + [AltMovement(|ms| + 1, item.productId.value, item.quantity, "out", now)],
                       items[1..], now)
  }

  function Known(ps: seq<AltProduct>): AltSaleItem -> bool {
    (item: AltSaleItem) => AltIndex(ps, item.productId).Some?
  }

  /** The `out` movements logged for the given items, numbered from `first`. */
  function OutMovements(items: seq<AltSaleItem>, first: int, now: int): seq<AltMovement>
    decreases |items|
  {
    if items == [] then []
    else [AltMovement(first, items[0].productId.GetOr(0), items[0].quantity, "out", now)]
         + OutMovements(items[1..], first + 1, now)
  }

  /** Units of product `id` the items sell. */
  function QuantityFor(items: seq<AltSaleItem>, id: int): int
    decreases |items|
  {
    if items == [] then 0
    else (if items[0].productId == Some(id) then items[0].quantity else 0) + QuantityFor(items[1..], id)
  }

  predicate FirstWithId(ps: seq<AltProduct>, i: nat)
    requires i < |ps|
  {
    forall j :: 0 <= j < i ==> ps[j].id != ps[i].id
  }

  /** Which items name an existing product depends only on the ids. */
  lemma KnownSameIds(ps: seq<AltProduct>, qs: seq<AltProduct>, items: seq<AltSaleItem>)
    requires |ps| == |qs| && forall i :: 0 <= i < |ps| ==> ps[i].id == qs[i].id
    ensures Filter(items, Known(qs)) == Filter(items, Known(ps))
  {
    forall i | 0 <= i < |items| ensures Known(qs)(items[i]) == Known(ps)(items[i]) {
      SameIdsSameIndex(ps, qs, items[i].productId);
    }
    FilterAgrees(items, Known(qs), Known(ps));
  }

  lemma KnownApply(ps: seq<AltProduct>, item: AltSaleItem)
    ensures Known(ps)(item) == AltIndex(ps, item.productId).Some?
  {
    assert Known(ps)(item) == (AltIndex(ps, item.productId).Some?);
  }

  lemma OutMovementsCons(item: AltSaleItem, rest: seq<AltSaleItem>, first: int, now: int)
    ensures OutMovements([item] + rest, first, now)
         == [AltMovement(first, item.productId.GetOr(0), item.quantity, "out", now)] + OutMovements(rest, first + 1, now)
  {
    assert ([item] + rest)[0] == item && ([item] + rest)[1..] == rest;
  }

  /** One `out` movement per item whose product exists, in item order; items
      naming no product are skipped. */
  lemma {:induction false} SaleRunMovements(ps: seq<AltProduct>, ms: seq<AltMovement>, items: seq<AltSaleItem>, now: int)
    ensures ApplySaleItems(ps, ms, items, now).movements == ms + OutMovements(Filter(items, Known(ps)), |ms| + 1, now)
    decreases |items|
  {
    if items != [] {
      var item := items[0];
      KnownApply(ps, item);
      match AltIndex(ps, item.productId)
      case None =>
        assert ApplySaleItems(ps, ms, items, now) == ApplySaleItems(ps, ms, items[1..], now);
        SaleRunMovements(ps, ms, items[1..], now);
        assert Filter(items, Known(ps)) == Filter(items[1..], Known(ps));
      case Some(k) =>
        var ps' := ps[k := ps[k].(stock := ps[k].stock - item.quantity)];
        var ms' := ms + [AltMovement(|ms| + 1, item.productId.value, item.quantity, "out", now)];
        assert ApplySaleItems(ps, ms, items, now) == ApplySaleItems(ps', ms', items[1..], now);
        SaleRunMovements(ps', ms', items[1..], now);
        assert Filter(items, Known(ps)) == [item] + Filter(items[1..], Known(ps));
        KnownSameIds(ps, ps', items[1..]);
        OutMovementsCons(item, Filter(items[1..], Known(ps)), |ms| + 1, now);
    }
  }

  /** Only stocks change, and the first product with each id loses exactly the
      units the items sell of that id, with no floor at zero; a later product
      sharing that id is never touched. */
  lemma {:induction false} SaleRunStock(ps: seq<AltProduct>, ms: seq<AltMovement>, items: seq<AltSaleItem>, now: int)
    ensures var run := ApplySaleItems(ps, ms, items, now);
      && |run.products| == |ps|
      && forall i :: 0 <= i < |ps| ==>
           run.products[i] == ps[i].(stock := ps[i].stock - (if FirstWithId(ps, i) then QuantityFor(items, ps[i].id) else 0))
    decreases |items|
  {
    if items != [] {
      var item := items[0];
      match AltIndex(ps, item.productId)
      case None =>
        assert ApplySaleItems(ps, ms, items, now) == ApplySaleItems(ps, ms, items[1..], now);
        SaleRunStock(ps, ms, items[1..], now);
        forall i | 0 <= i < |ps| && FirstWithId(ps, i) ensures item.productId != Some(ps[i].id) { }
      case Some(k) =>
        var ps' := ps[k := ps[k].(stock := ps[k].stock - item.quantity)];
        var ms' := ms + [AltMovement(|ms| + 1, item.productId.value, item.quantity, "out", now)];
        assert ApplySaleItems(ps, ms, items, now) == ApplySaleItems(ps', ms', items[1..], now);
        SaleRunStock(ps', ms', items[1..], now);
        var run := ApplySaleItems(ps', ms', items[1..], now);
        forall i | 0 <= i < |ps|
          ensures run.products[i] ==
            ps[i].(stock := ps[i].stock - (if FirstWithId(ps, i) then QuantityFor(items, ps[i].id) else 0))
        {
          assert FirstWithId(ps', i) == FirstWithId(ps, i) by {
            assert forall j :: 0 <= j < |ps| ==> ps'[j].id == ps[j].id;
          }
          if i == k {
            assert FirstWithId(ps, i);
          } else {
            assert ps'[i] == ps[i];
            assert !(FirstWithId(ps, i) && item.productId == Some(ps[i].id));
          }
        }
    }
  }

  /** An item naming no product is skipped. */
  lemma ApplySaleItemsSkip(ps: seq<AltProduct>, ms: seq<AltMovement>, items: seq<AltSaleItem>, i: nat, now: int)
    requires i < |items| && AltIndex(ps, items[i].productId).None?
    ensures ApplySaleItems(ps, ms, items[i..], now) == ApplySaleItems(ps, ms, items[i + 1..], now)
  {
    assert items[i..][0] == items[i] && items[i..][1..] == items[i + 1..];
  }

  /** An item naming product `k` takes its units off and logs an `out` movement. */
  lemma ApplySaleItemsTake(ps: seq<AltProduct>, ms: seq<AltMovement>, items: seq<AltSaleItem>, i: nat, k: nat, now: int)
    requires i < |items| && AltIndex(ps, items[i].productId) == Some(k)
    ensures k < |ps|
    ensures ApplySaleItems(ps, ms, items[i..], now)
         == ApplySaleItems(ps[k := ps[k].(stock := ps[k].stock - items[i].quantity)],
                           ms + [AltMovement(|ms| + 1, items[i].productId.value, items[i].quantity, "out", now)],
                           items[i + 1..], now)
  {
    assert items[i..][0] == items[i] && items[i..][1..] == items[i + 1..];
  }

  /** Nothing stops a sale from overselling: a line for more units than the
      product holds leaves its stock negative, and the `out` movement is
      logged all the same. */
  lemma SaleCanOversell(ps: seq<AltProduct>, ms: seq<AltMovement>, item: AltSaleItem, k: nat, now: int)
    requires AltIndex(ps, item.productId) == Some(k)
    requires item.quantity > ps[k].stock
    ensures var run := ApplySaleItems(ps, ms, [item], now);
      && |run.products| == |ps|
      && run.products[k].stock == ps[k].stock - item.quantity < 0
      && run.movements == ms + [AltMovement(|ms| + 1, item.productId.value, item.quantity, "out", now)]
  {
    ApplySaleItemsTake(ps, ms, [item], 0, k, now);
    assert [item][1..] == [];
  }

  class Store {
    var products: seq<AltProduct>
    var sales: seq<AltSale>
    var movements: seq<AltMovement>

    /** The sale and movement logs are numbered 1, 2, 3, ... */
    ghost predicate Valid()
      reads this
    {
      Numbered(sales, AltSaleIdOf) && Numbered(movements, AltMovementIdOf)
    }

    constructor (seedProducts: seq<AltProduct>)
      ensures Valid()
      ensures products == seedProducts && sales == [] && movements == []
    {
      products, sales, movements := seedProducts, [], [];
    }

    /** `POST /api/products`: never fails. */
    method CreateProduct(body: AltBody) returns (p: AltProduct)
      requires Valid()
      modifies this
      ensures Valid()
      ensures p == NewProduct(|old(products)|, body)
      ensures products == old(products) + [p]
      ensures sales == old(sales) && movements == old(movements)
    {
      p := NewProduct(|products|, body);
      products := products + [p];
    }

    /** `PUT /api/products/:id`: the body is spread over the first product with that id. */
    method UpdateProduct(id: int, body: AltBody) returns (r: Reply<AltProduct>)
      requires Valid()
      modifies this
      ensures Valid()
      ensures var k := AltIndex(old(products), Some(id));
        && (k.None? <==> r.NotFound?)
        && (k.None? ==> products == old(products))
        && (k.Some? ==> r == Ok(Merge(old(products)[k.value], body)) &&
                        products == old(products)[k.value := r.value])
      ensures sales == old(sales) && movements == old(movements)
    {
      var k := AltIndex(products, Some(id));
      if k.None? {
        return NotFound;
      }
      var q := Merge(products[k.value], body);
      products := products[k.value := q];
      r := Ok(q);
    }

    /** `DELETE /api/products/:id`: drops every product with that id and always succeeds. */
    method DeleteProduct(id: int)
      requires Valid()
      modifies this
      ensures Valid()
      ensures products == Filter(old(products), NotId(id))
      ensures forall p :: p in products <==> p in old(products) && p.id != id
      ensures sales == old(sales) && movements == old(movements)
    {
      products := Filter(products, NotId(id));
    }

    /** `POST /api/stock/movement`: `in` adds, `out` takes off when there is
        enough, any other type changes nothing; the movement is logged unless
        the reply is an error. */
    method StockMovement(productId: int, quantity: int, kind: string, now: int) returns (r: Reply<AltMovement>)
      requires Valid()
      modifies this
      ensures Valid()
      ensures var k := AltIndex(old(products), Some(productId));
        && (k.None? ==> r.NotFound?)
        && (k.Some? && kind == "out" && old(products)[k.value].stock < quantity ==> r.BadRequest?)
        && (!r.Ok? ==> products == old(products) && movements == old(movements))
        && (r.Ok? <==> k.Some? && !(kind == "out" && old(products)[k.value].stock < quantity))
        && (r.Ok? ==>
              var p := old(products)[k.value];
              var delta := if kind == "in" then quantity else if kind == "out" then -quantity else 0;
              && r.value == AltMovement(|old(movements)| + 1, productId, quantity, kind, now)
              && movements == old(movements) + [r.value]
              && products == old(products)[k.value := p.(stock := p.stock + delta)])
      ensures r.Ok? && kind == "out" ==> products[AltIndex(old(products), Some(productId)).value].stock >= 0
      ensures sales == old(sales)
    {
      var k := AltIndex(products, Some(productId));
      if k.None? {
        return NotFound;
      }
      var m := AltMovement(|movements| + 1, productId, quantity, kind, now);
      var p := products[k.value];
      if kind == "in" {
        products := products[k.value := p.(stock := p.stock + quantity)];
      } else if kind == "out" {
        if p.stock < quantity {
          return BadRequest;
        }
        products := products[k.value := p.(stock := p.stock - quantity)];
      }
      movements := movements + [m];
      r := Ok(m);
    }

    /** `POST /api/sales`: record sale number `sales.length + 1` with its total,
        then run the stock pass over its items. */
    method RecordSale(items: seq<AltSaleItem>, discount: Option<real>, paymentMethod: Option<string>, now: int)
      returns (sale: AltSale)
      requires Valid()
      modifies this
      ensures Valid()
      ensures sale == AltSale(|old(sales)| + 1, items, discount.GetOr(0.0), paymentMethod, now,
                              AltSaleTotal(items, discount))
      ensures sales == old(sales) + [sale]
      ensures SaleRun(products, movements) == ApplySaleItems(old(products), old(movements), items, now)
    {
      sale := AltSale(|sales| + 1, items, discount.GetOr(0.0), paymentMethod, now, AltSaleTotal(items, discount));
      RunItems(items, now);
      sales := sales + [sale];
    }

    /** The stock pass of a sale: each item naming a product takes its units off
        the first product of that id and logs an `out` movement; others are skipped. */
    method RunItems(items: seq<AltSaleItem>, now: int)
      requires Numbered(movements, AltMovementIdOf)
      modifies this
      ensures Numbered(movements, AltMovementIdOf)
      ensures sales == old(sales)
      ensures SaleRun(products, movements) == ApplySaleItems(old(products), old(movements), items, now)
    {
      var ps, ms := products, movements;
      var i := 0;
      while i < |items|
        invariant 0 <= i <= |items|
        invariant Numbered(ms, AltMovementIdOf)
        invariant ApplySaleItems(products, movements, items, now) == ApplySaleItems(ps, ms, items[i..], now)
        invariant unchanged(this)
      {
        var item := items[i];
        var k := AltIndex(ps, item.productId);
        if k.None? {
          ApplySaleItemsSkip(ps, ms, items, i, now);
        } else {
          ApplySaleItemsTake(ps, ms, items, i, k.value, now);
          var m := AltMovement(|ms| + 1, item.productId.value, item.quantity, "out", now);
          NumberedAppend(ms, AltMovementIdOf, m);
          ps := ps[k.value := ps[k.value].(stock := ps[k.value].stock - item.quantity)];
          ms := ms + [m];
        }
        i := i + 1;
      }
      products, movements := ps, ms;
    }
  }
}
