/** The lines of a cart: merged adds, updates, build-guide bundles, and the requests
    that interleave on them. */
module CartItems {
  import opened Wrappers
  import opened Pricing

  const MAX_CART_ITEM_QTY := 1000
  const MAX_CART_LINES := 100

  datatype CartError =
    | CartClosed | BadQuantity | SkuNotFound | ProductUnavailable | DigitalProduct
    | QuantityCap | LineCap | ItemNotFound
    | GuideNotFound | NoBundle | NoComponents

  /** A row of the cart, in the order of creation. `pricedFrom` and `pricedAt` record
      where the stored price came from; no request reads them. */
  datatype Line = Line(id: nat, skuId: int, quantity: int, unitPriceSnapshot: nat, pricedFrom: Sku, pricedAt: int)

  datatype Cart = Cart(lines: seq<Line>, nextId: nat)

  datatype Shop = Shop(catalog: map<int, Sku>, now: int)

  ghost predicate ShopOk(shop: Shop) {
    forall k | k in shop.catalog :: shop.catalog[k].id == k
  }

  function IndexOf(lines: seq<Line>, skuId: int): (i: nat)
    ensures i <= |lines|
    ensures i < |lines| ==> lines[i].skuId == skuId
    ensures forall j | 0 <= j < i :: lines[j].skuId != skuId
  {
    if lines == [] then 0
    else if lines[0].skuId == skuId then 0
    else 1 + IndexOf(lines[1..], skuId)
  }

  function IndexOfId(lines: seq<Line>, id: nat): (i: nat)
    ensures i <= |lines|
    ensures i < |lines| ==> lines[i].id == id
    ensures forall j | 0 <= j < i :: lines[j].id != id
  {
    if lines == [] then 0
    else if lines[0].id == id then 0
    else 1 + IndexOfId(lines[1..], id)
  }

  function LoadPricingSku(shop: Shop, skuId: int): Result<Sku, CartError> {
    if skuId !in shop.catalog || !shop.catalog[skuId].isActive then Err(SkuNotFound)
    else if !shop.catalog[skuId].productStatus.ACTIVE? then Err(ProductUnavailable)
    else if shop.catalog[skuId].productType.DIGITAL? then Err(DigitalProduct)
    else Ok(shop.catalog[skuId])
  }

  function Reprice(l: Line, quantity: int, sku: Sku, now: int): Line {
    l.(quantity := quantity, unitPriceSnapshot := UnitPrice(sku, quantity, now), pricedFrom := sku, pricedAt := now)
  }

  function NewLine(id: nat, skuId: int, quantity: int, sku: Sku, now: int): Line {
    Line(id, skuId, quantity, UnitPrice(sku, quantity, now), sku, now)
  }

  // ----- adding to a cart, one request at a time

  datatype Addition = Addition(skuId: int, qty: int)

  function AddSku(c: Cart, shop: Shop, a: Addition): Result<Cart, CartError> {
    match LoadPricingSku(shop, a.skuId)
    case Err(e) => Err(e)
    case Ok(sku) =>
      var i := IndexOf(c.lines, a.skuId);
      var newQty := (if i < |c.lines| then c.lines[i].quantity else 0) + a.qty;
      if newQty > MAX_CART_ITEM_QTY then Err(QuantityCap)
      else if i < |c.lines| then Ok(c.(lines := c.lines[i := Reprice(c.lines[i], newQty, sku, shop.now)]))
      else if |c.lines| >= MAX_CART_LINES then Err(LineCap)
      else Ok(Cart(c.lines + [NewLine(c.nextId, a.skuId, newQty, sku, shop.now)], c.nextId + 1))
  }

  /** The cart reached, and the error that stopped the additions, if one did. */
  datatype Outcome = Outcome(cart: Cart, error: Option<CartError>)

  function AddAll(c: Cart, shop: Shop, adds: seq<Addition>): Outcome
    decreases |adds|
  {
    if adds == [] then Outcome(c, None)
    else
      match AddSku(c, shop, adds[0])
      case Ok(next) => AddAll(next, shop, adds[1..])
      case Err(e) => Outcome(c, Some(e))
  }

  /** An addition leaves the SKU's line at the live price of its new quantity, and every
      other line as it was. */
  lemma AddSkuPricesLive(c: Cart, shop: Shop, a: Addition)
    requires AddSku(c, shop, a).Ok?
    ensures a.skuId in shop.catalog
    ensures var lines, i := AddSku(c, shop, a).value.lines, IndexOf(c.lines, a.skuId);
      && |c.lines| <= |lines| && i < |lines|
      && |lines| == (if i < |c.lines| then |c.lines| else |c.lines| + 1)
      && lines[i].id == (if i < |c.lines| then c.lines[i].id else c.nextId)
      && lines[i].skuId == a.skuId
      && lines[i].quantity == (if i < |c.lines| then c.lines[i].quantity else 0) + a.qty
      && lines[i].unitPriceSnapshot == UnitPrice(shop.catalog[a.skuId], lines[i].quantity, shop.now)
      && forall j | 0 <= j < |c.lines| && j != i :: lines[j] == c.lines[j]
  {
  }

  /** Exactly when an addition goes through. */
  lemma AddSkuSucceedsExactly(c: Cart, shop: Shop, a: Addition)
    ensures AddSku(c, shop, a).Ok? <==>
      && a.skuId in shop.catalog && shop.catalog[a.skuId].Purchasable()
      && Quantity(c.lines, a.skuId) + a.qty <= 1000
      && ((exists l :: l in c.lines && l.skuId == a.skuId) || |c.lines| < 100)
  {
    var i := IndexOf(c.lines, a.skuId);
    assert i < |c.lines| ==> c.lines[i] in c.lines;
  }

  /** Why an addition is refused: the SKU first, then the quantity, then the room. */
  lemma AddSkuIsRefusedFor(c: Cart, shop: Shop, a: Addition)
    ensures var r, known := AddSku(c, shop, a), a.skuId in shop.catalog && shop.catalog[a.skuId].isActive;
      && (r == Err(SkuNotFound) <==> !known)
      && (r == Err(ProductUnavailable) <==> known && shop.catalog[a.skuId].productStatus != ProductStatus.ACTIVE)
      && (r == Err(DigitalProduct) <==>
            known && shop.catalog[a.skuId].productStatus == ProductStatus.ACTIVE && shop.catalog[a.skuId].productType == DIGITAL)
      && (r == Err(QuantityCap) <==>
            known && shop.catalog[a.skuId].Purchasable() && Quantity(c.lines, a.skuId) + a.qty > 1000)
      && (r == Err(LineCap) <==>
            known && shop.catalog[a.skuId].Purchasable() && a.qty <= 1000 && |c.lines| >= 100
            && forall l | l in c.lines :: l.skuId != a.skuId)
  {
    var i := IndexOf(c.lines, a.skuId);
    assert i < |c.lines| ==> c.lines[i] in c.lines;
  }

  // ----- what a series of additions amounts to

  /** How many of a SKU the cart holds. */
  function Quantity(lines: seq<Line>, skuId: int): int {
    var i := IndexOf(lines, skuId);
    if i < |lines| then lines[i].quantity else 0
  }

  /** How many of a SKU the additions ask for. */
  function Asked(adds: seq<Addition>, skuId: int): int {
    if adds == [] then 0 else (if adds[0].skuId == skuId then adds[0].qty else 0) + Asked(adds[1..], skuId)
  }

  /** How many of the additions go through before one fails. */
  function Applied(c: Cart, shop: Shop, adds: seq<Addition>): nat
    decreases |adds|
  {
    if adds == [] then 0
    else
      match AddSku(c, shop, adds[0])
      case Ok(next) => 1 + Applied(next, shop, adds[1..])
      case Err(_) => 0
  }

  lemma AddSkuQuantity(c: Cart, shop: Shop, a: Addition, skuId: int)
    requires AddSku(c, shop, a).Ok?
    ensures Quantity(AddSku(c, shop, a).value.lines, skuId)
         == Quantity(c.lines, skuId) + if skuId == a.skuId then a.qty else 0
  {
    var lines, at := AddSku(c, shop, a).value.lines, IndexOf(c.lines, skuId);
    IndexOfIs(lines, skuId, if at == |c.lines| && skuId != a.skuId then |lines| else at);
  }

  /** Each SKU ends up with what it had plus what the additions that went through asked
      for; without an error that is all of them. SKUs not asked for keep their quantity. */
  lemma {:induction false} AddAllQuantity(c: Cart, shop: Shop, adds: seq<Addition>, skuId: int)
    ensures var n, r := Applied(c, shop, adds), AddAll(c, shop, adds);
      && n <= |adds| && (r.error.None? <==> n == |adds|)
      && Quantity(r.cart.lines, skuId) == Quantity(c.lines, skuId) + Asked(adds[..n], skuId)
    decreases |adds|
  {
    if adds != [] && AddSku(c, shop, adds[0]).Ok? {
      var next, n := AddSku(c, shop, adds[0]).value, Applied(c, shop, adds);
      AddSkuQuantity(c, shop, adds[0], skuId);
      AddAllQuantity(next, shop, adds[1..], skuId);
      assert adds[..n][1..] == adds[1..][..n - 1];
    }
  }

  // ----- a build guide's components

  datatype BomItem = BomItem(skuId: Option<int>, quantity: int)

  /** The rows of the guide that name a SKU, as single additions. */
  function Rows(bom: seq<BomItem>): seq<Addition> {
    if bom == [] then []
    else
      var b := bom[|bom| - 1];
      Rows(bom[..|bom| - 1]) + if b.skuId.Some? then [Addition(b.skuId.value, Max(1, b.quantity))] else []
  }

  /** Setting a key of an insertion-ordered map to its old value plus `a.qty`. */
  function Merge(summed: seq<Addition>, a: Addition): seq<Addition> {
    if summed == [] then [a]
    else if summed[0].skuId == a.skuId then [Addition(a.skuId, summed[0].qty + a.qty)] + summed[1..]
    else [summed[0]] + Merge(summed[1..], a)
  }

  function Summed(rows: seq<Addition>): seq<Addition> {
    if rows == [] then [] else Merge(Summed(rows[..|rows| - 1]), rows[|rows| - 1])
  }

  datatype Guide = Guide(isPublished: bool, bundleSku: Option<int>, bundleActive: bool, bom: seq<BomItem>)
  datatype AddDiyMode = WHOLE_BUNDLE | COMPONENTS

  // ----- the invariant of the lines

  ghost predicate LineOk(l: Line) {
    && 1 <= l.quantity <= MAX_CART_ITEM_QTY
    && l.pricedFrom.id == l.skuId && l.pricedFrom.Purchasable()
    && l.unitPriceSnapshot == UnitPrice(l.pricedFrom, l.quantity, l.pricedAt)
  }

  /** Quantities in range, prices those of the stored quantity, one line a SKU. */
  ghost predicate CartOk(c: Cart) {
    && (forall i | 0 <= i < |c.lines| :: LineOk(c.lines[i]) && c.lines[i].id < c.nextId)
    && (forall i, j | 0 <= i < j < |c.lines| ::
          c.lines[i].skuId != c.lines[j].skuId && c.lines[i].id != c.lines[j].id)
  }

  lemma AddSkuKeepsCart(c: Cart, shop: Shop, a: Addition)
    requires CartOk(c) && ShopOk(shop) && a.qty >= 1 && AddSku(c, shop, a).Ok?
    ensures CartOk(AddSku(c, shop, a).value)
    ensures |c.lines| <= MAX_CART_LINES ==> |AddSku(c, shop, a).value.lines| <= MAX_CART_LINES
  {
  }

  lemma {:induction false} AddAllKeepsCart(c: Cart, shop: Shop, adds: seq<Addition>)
    requires CartOk(c) && ShopOk(shop) && forall k | 0 <= k < |adds| :: adds[k].qty >= 1
    ensures CartOk(AddAll(c, shop, adds).cart)
    ensures |c.lines| <= MAX_CART_LINES ==> |AddAll(c, shop, adds).cart.lines| <= MAX_CART_LINES
    decreases |adds|
  {
    if adds != [] && AddSku(c, shop, adds[0]).Ok? {
      AddSkuKeepsCart(c, shop, adds[0]);
      AddAllKeepsCart(AddSku(c, shop, adds[0]).value, shop, adds[1..]);
    }
  }

  // ----- summing duplicates first changes nothing

  /** The two outcomes fail together, or succeed with the same cart. */
  predicate Agree(x: Outcome, y: Outcome) {
    (x.error.None? <==> y.error.None?) && (x.error.None? ==> x.cart == y.cart)
  }

  lemma {:induction false} AddAllAppend(c: Cart, shop: Shop, xs: seq<Addition>, ys: seq<Addition>)
    ensures var x := AddAll(c, shop, xs);
            AddAll(c, shop, xs + ys) == if x.error.Some? then x else AddAll(x.cart, shop, ys)
    decreases |xs|
  {
    if xs == [] {
      assert xs + ys == ys;
    } else {
      assert (xs + ys)[1..] == xs[1..] + ys;
      if AddSku(c, shop, xs[0]).Ok? {
        AddAllAppend(AddSku(c, shop, xs[0]).value, shop, xs[1..], ys);
      }
    }
  }

  lemma AddAllPair(c: Cart, shop: Shop, a: Addition, b: Addition)
    ensures var r := AddSku(c, shop, a);
      && (r.Ok? ==> AddAll(c, shop, [a]) == Outcome(r.value, None)
                    && AddAll(c, shop, [a, b]) == AddAll(r.value, shop, [b]))
      && (r.Err? ==> AddAll(c, shop, [a]) == AddAll(c, shop, [a, b]) == Outcome(c, Some(r.error)))
  {
  }

  lemma IndexOfIs(lines: seq<Line>, skuId: int, i: nat)
    requires i <= |lines| && (i < |lines| ==> lines[i].skuId == skuId)
    requires forall j | 0 <= j < i :: lines[j].skuId != skuId
    ensures IndexOf(lines, skuId) == i
  {
  }

  /** Where `AddSku` writes, and what. */
  lemma AddSkuWrites(c: Cart, shop: Shop, a: Addition)
    requires LoadPricingSku(shop, a.skuId).Ok?
    ensures var i, r, sku := IndexOf(c.lines, a.skuId), AddSku(c, shop, a), LoadPricingSku(shop, a.skuId).value;
      && (i < |c.lines| ==>
            && (r.Ok? <==> c.lines[i].quantity + a.qty <= MAX_CART_ITEM_QTY)
            && (r.Ok? ==>
                  var l := Reprice(c.lines[i], c.lines[i].quantity + a.qty, sku, shop.now);
                  r.value == c.(lines := c.lines[i := l])))
      && (i == |c.lines| ==>
            && (r.Ok? <==> a.qty <= MAX_CART_ITEM_QTY && |c.lines| < MAX_CART_LINES)
            && (r.Ok? ==>
                  r.value == Cart(c.lines + [NewLine(c.nextId, a.skuId, a.qty, sku, shop.now)], c.nextId + 1)))
  {
  }

  lemma AddSkuTwice(c: Cart, shop: Shop, skuId: int, m: int, q: int)
    requires m >= 1 && q >= 1
    ensures var x, z := AddSku(c, shop, Addition(skuId, m)), AddSku(c, shop, Addition(skuId, m + q));
      && (x.Err? ==> z.Err?)
      && (x.Ok? ==> var y := AddSku(x.value, shop, Addition(skuId, q));
                    (y.Ok? <==> z.Ok?) && (y.Ok? ==> y.value == z.value))
  {
    if LoadPricingSku(shop, skuId).Ok? {
      AddSkuWrites(c, shop, Addition(skuId, m));
      AddSkuWrites(c, shop, Addition(skuId, m + q));
      var x, i := AddSku(c, shop, Addition(skuId, m)), IndexOf(c.lines, skuId);
      if x.Ok? {
        IndexOfIs(x.value.lines, skuId, i);
        AddSkuWrites(x.value, shop, Addition(skuId, q));
        var y, z := AddSku(x.value, shop, Addition(skuId, q)), AddSku(c, shop, Addition(skuId, m + q));
        assert y.Ok? ==> y.value.lines == z.value.lines;
      }
    }
  }

  /** Adding twice is adding the sum. */
  lemma AddsFuse(c: Cart, shop: Shop, skuId: int, m: int, q: int)
    requires m >= 1 && q >= 1
    ensures Agree(AddAll(c, shop, [Addition(skuId, m), Addition(skuId, q)]),
                  AddAll(c, shop, [Addition(skuId, m + q)]))
  {
    var a, b, ab := Addition(skuId, m), Addition(skuId, q), Addition(skuId, m + q);
    AddSkuTwice(c, shop, skuId, m, q);
    AddAllPair(c, shop, a, b);
    AddAllPair(c, shop, ab, b);
    if AddSku(c, shop, a).Ok? {
      AddAllPair(AddSku(c, shop, a).value, shop, b, b);
    }
  }

  /** Adding `a` leaves what adding `b` of another SKU finds as it was. */
  lemma AddSkuAfter(c: Cart, shop: Shop, a: Addition, b: Addition)
    requires a.skuId != b.skuId && AddSku(c, shop, a).Ok?
    requires IndexOf(c.lines, a.skuId) < |c.lines| || IndexOf(c.lines, b.skuId) < |c.lines|
    ensures IndexOf(AddSku(c, shop, a).value.lines, b.skuId) == IndexOf(c.lines, b.skuId)
    ensures AddSku(AddSku(c, shop, a).value, shop, b).Ok? <==> AddSku(c, shop, b).Ok?
  {
    var next := AddSku(c, shop, a).value;
    IndexOfIs(next.lines, b.skuId, IndexOf(c.lines, b.skuId));
    if LoadPricingSku(shop, b.skuId).Ok? {
      AddSkuWrites(c, shop, b);
      AddSkuWrites(next, shop, b);
    }
  }

  lemma AddSkuSwap(c: Cart, shop: Shop, a: Addition, b: Addition)
    requires a.skuId != b.skuId && IndexOf(c.lines, a.skuId) < |c.lines|
    ensures var x, y := AddSku(c, shop, a), AddSku(c, shop, b);
      && (x.Ok? ==> (AddSku(x.value, shop, b).Ok? <==> y.Ok?))
      && (y.Ok? ==> (AddSku(y.value, shop, a).Ok? <==> x.Ok?))
      && (x.Ok? && y.Ok? ==> AddSku(x.value, shop, b) == AddSku(y.value, shop, a))
  {
    var x, y := AddSku(c, shop, a), AddSku(c, shop, b);
    if x.Ok? {
      AddSkuAfter(c, shop, a, b);
    }
    if y.Ok? {
      AddSkuAfter(c, shop, b, a);
    }
    if x.Ok? && y.Ok? {
      AddSkuWrites(c, shop, a);
      AddSkuWrites(c, shop, b);
      AddSkuWrites(x.value, shop, b);
      AddSkuWrites(y.value, shop, a);
      assert AddSku(x.value, shop, b).value.lines == AddSku(y.value, shop, a).value.lines;
    }
  }

  /** Adding to a line that is there and adding another SKU can be swapped. */
  lemma AddsCommute(c: Cart, shop: Shop, a: Addition, b: Addition)
    requires a.skuId != b.skuId && IndexOf(c.lines, a.skuId) < |c.lines|
    ensures Agree(AddAll(c, shop, [a, b]), AddAll(c, shop, [b, a]))
  {
    AddSkuSwap(c, shop, a, b);
    AddAllPair(c, shop, a, b);
    AddAllPair(c, shop, b, a);
    if AddSku(c, shop, a).Ok? {
      AddAllPair(AddSku(c, shop, a).value, shop, b, b);
    }
    if AddSku(c, shop, b).Ok? {
      AddAllPair(AddSku(c, shop, b).value, shop, a, a);
    }
  }

  lemma AddKeepsLine(c: Cart, shop: Shop, a: Addition, skuId: int)
    requires AddSku(c, shop, a).Ok? && IndexOf(c.lines, skuId) < |c.lines|
    ensures IndexOf(AddSku(c, shop, a).value.lines, skuId) < |AddSku(c, shop, a).value.lines|
  {
    assert AddSku(c, shop, a).value.lines[IndexOf(c.lines, skuId)].skuId == skuId;
  }

  /** An addition to a line that is there can be put off past additions of other SKUs. */
  lemma {:induction false} AddSlides(c: Cart, shop: Shop, a: Addition, others: seq<Addition>)
    requires IndexOf(c.lines, a.skuId) < |c.lines| && forall k | 0 <= k < |others| :: others[k].skuId != a.skuId
    ensures Agree(AddAll(c, shop, [a] + others), AddAll(c, shop, others + [a]))
    decreases |others|
  {
    if others == [] {
      assert [a] + others == others + [a];
    } else {
      var b, rest := others[0], others[1..];
      assert [a] + others == [a, b] + rest && others + [a] == [b] + (rest + [a]);
      assert [b] + ([a] + rest) == [b, a] + rest;
      AddsCommute(c, shop, a, b);
      AddAllAppend(c, shop, [a, b], rest);
      AddAllAppend(c, shop, [b, a], rest);
      AddAllAppend(c, shop, [b], [a] + rest);
      AddAllAppend(c, shop, [b], rest + [a]);
      AddAllPair(c, shop, b, a);
      if AddSku(c, shop, b).Ok? {
        AddKeepsLine(c, shop, b, a.skuId);
        AddSlides(AddSku(c, shop, b).value, shop, a, rest);
      }
    }
  }

  ghost predicate Distinct(adds: seq<Addition>) {
    && (forall k | 0 <= k < |adds| :: adds[k].qty >= 1)
    && (forall k, l | 0 <= k < l < |adds| :: adds[k].skuId != adds[l].skuId)
  }

  lemma MergeKeepsDistinct(adds: seq<Addition>, a: Addition)
    requires Distinct(adds) && a.qty >= 1
    ensures Distinct(Merge(adds, a))
    ensures forall k | 0 <= k < |Merge(adds, a)| ::
              Merge(adds, a)[k].skuId == a.skuId || exists l :: 0 <= l < |adds| && adds[l].skuId == Merge(adds, a)[k].skuId
  {
  }

  /** The case where the merged addition meets its SKU at the front. */
  lemma FrontMergeAgrees(c: Cart, shop: Shop, b: Addition, rest: seq<Addition>, a: Addition)
    requires Distinct([b] + rest) && b.skuId == a.skuId && a.qty >= 1
    ensures Agree(AddAll(c, shop, [Addition(a.skuId, b.qty + a.qty)] + rest), AddAll(c, shop, [b] + (rest + [a])))
  {
    var ab := Addition(a.skuId, b.qty + a.qty);
    assert ([b] + rest)[0].qty >= 1;
    forall k | 0 <= k < |rest| ensures rest[k].skuId != a.skuId {
      assert ([b] + rest)[k + 1] == rest[k];
    }
    AddsFuse(c, shop, a.skuId, b.qty, a.qty);
    AddAllAppend(c, shop, [ab], rest);
    AddAllAppend(c, shop, [b, a], rest);
    AddAllAppend(c, shop, [b], [a] + rest);
    AddAllAppend(c, shop, [b], rest + [a]);
    assert [b] + ([a] + rest) == [b, a] + rest;
    AddAllPair(c, shop, b, a);
    if AddSku(c, shop, b).Ok? {
      var next := AddSku(c, shop, b).value;
      assert next.lines[IndexOf(c.lines, b.skuId)].skuId == a.skuId;
      AddSlides(next, shop, a, rest);
    }
  }

  lemma {:induction false} MergeAgrees(c: Cart, shop: Shop, adds: seq<Addition>, a: Addition)
    requires Distinct(adds) && a.qty >= 1
    ensures Agree(AddAll(c, shop, Merge(adds, a)), AddAll(c, shop, adds + [a]))
    decreases |adds|
  {
    if adds == [] {
      assert adds + [a] == [a];
    } else {
      var b, rest := adds[0], adds[1..];
      assert adds == [b] + rest && adds + [a] == [b] + (rest + [a]);
      if b.skuId == a.skuId {
        FrontMergeAgrees(c, shop, b, rest, a);
      } else {
        AddAllAppend(c, shop, [b], Merge(rest, a));
        AddAllAppend(c, shop, [b], rest + [a]);
        AddAllPair(c, shop, b, b);
        if AddSku(c, shop, b).Ok? {
          MergeAgrees(AddSku(c, shop, b).value, shop, rest, a);
        }
      }
    }
  }

  /** Adding a guide's rows with duplicates summed succeeds exactly when adding them one
      at a time does, and gives the same cart, line for line. */
  lemma {:induction false} SummingAgrees(c: Cart, shop: Shop, rows: seq<Addition>)
    requires forall k | 0 <= k < |rows| :: rows[k].qty >= 1
    ensures Distinct(Summed(rows))
    ensures Agree(AddAll(c, shop, Summed(rows)), AddAll(c, shop, rows))
    decreases |rows|
  {
    if rows != [] {
      var init, a := rows[..|rows| - 1], rows[|rows| - 1];
      assert rows == init + [a];
      SummingAgrees(c, shop, init);
      MergeKeepsDistinct(Summed(init), a);
      MergeAgrees(c, shop, Summed(init), a);
      AddAllAppend(c, shop, Summed(init), [a]);
      AddAllAppend(c, shop, init, [a]);
    }
  }

  lemma {:induction false} RowsArePositive(bom: seq<BomItem>)
    ensures forall k | 0 <= k < |Rows(bom)| :: Rows(bom)[k].qty >= 1
  {
    if bom != [] {
      RowsArePositive(bom[..|bom| - 1]);
    }
  }

  // ----- the service's methods

  function UpdateLine(c: Cart, shop: Shop, id: nat, qty: int): Result<Cart, CartError> {
    if qty <= 0 then Err(BadQuantity)
    else if qty > MAX_CART_ITEM_QTY then Err(QuantityCap)
    else
      var i := IndexOfId(c.lines, id);
      if i == |c.lines| then Err(ItemNotFound)
      else
        match LoadPricingSku(shop, c.lines[i].skuId)
        case Err(e) => Err(e)
        case Ok(sku) => Ok(c.(lines := c.lines[i := Reprice(c.lines[i], qty, sku, shop.now)]))
  }

  function Without(lines: seq<Line>, id: nat): seq<Line> {
    var i := IndexOfId(lines, id);
    if i == |lines| then lines else lines[..i] + lines[i + 1..]
  }

  /** An update leaves the named line at the quantity asked for and its live price, and
      every other line as it was. It takes a quantity from 1 to 1000, a line of that id and
      a SKU that can be bought. */
  lemma UpdatePricesLive(c: Cart, shop: Shop, id: nat, qty: int)
    ensures UpdateLine(c, shop, id, qty).Ok? <==>
      1 <= qty <= 1000 && IndexOfId(c.lines, id) < |c.lines|
      && var skuId := c.lines[IndexOfId(c.lines, id)].skuId; skuId in shop.catalog && shop.catalog[skuId].Purchasable()
    ensures UpdateLine(c, shop, id, qty).Ok? ==>
      var next, i := UpdateLine(c, shop, id, qty).value, IndexOfId(c.lines, id);
      && |next.lines| == |c.lines| && next.nextId == c.nextId
      && next.lines[i].id == id && next.lines[i].skuId == c.lines[i].skuId && next.lines[i].quantity == qty
      && next.lines[i].unitPriceSnapshot == UnitPrice(shop.catalog[c.lines[i].skuId], qty, shop.now)
      && forall j | 0 <= j < |c.lines| && j != i :: next.lines[j] == c.lines[j]
  {
  }

  lemma UpdateIsRefusedFor(c: Cart, shop: Shop, id: nat, qty: int)
    ensures var r, i := UpdateLine(c, shop, id, qty), IndexOfId(c.lines, id);
      && (r == Err(BadQuantity) <==> qty < 1)
      && (r == Err(QuantityCap) <==> qty > 1000)
      && (r == Err(ItemNotFound) <==> 1 <= qty <= 1000 && forall l | l in c.lines :: l.id != id)
      && (1 <= qty <= 1000 && i < |c.lines| ==>
            && (r == Err(SkuNotFound) <==>
                  c.lines[i].skuId !in shop.catalog || !shop.catalog[c.lines[i].skuId].isActive)
            && (r.Err? ==> r == AddSku(Cart([], 0), shop, Addition(c.lines[i].skuId, 1))))
  {
    var i := IndexOfId(c.lines, id);
    if i < |c.lines| {
      assert c.lines[i] in c.lines && c.lines[i].id == id;
    }
  }

  /** What is left without a line is every other line, in order. */
  lemma WithoutIsExact(lines: seq<Line>, id: nat, l: Line)
    requires forall i, j | 0 <= i < j < |lines| :: lines[i].id != lines[j].id
    ensures l in Without(lines, id) <==> l in lines && l.id != id
  {
    var i := IndexOfId(lines, id);
    if l in lines && l.id != id && i < |lines| {
      var j :| 0 <= j < |lines| && lines[j] == l;
      assert Without(lines, id)[if j < i then j else j - 1] == l;
    }
  }

  lemma WithoutKeepsCart(c: Cart, id: nat)
    requires CartOk(c)
    ensures CartOk(c.(lines := Without(c.lines, id)))
  {
  }

  /** What a guide adds in the chosen mode. */
  function Additions(guide: Option<Guide>, mode: AddDiyMode): Result<seq<Addition>, CartError> {
    if guide.None? || !guide.value.isPublished then Err(GuideNotFound)
    else if mode.WHOLE_BUNDLE? then
      if guide.value.bundleSku.None? || !guide.value.bundleActive then Err(NoBundle)
      else Ok([Addition(guide.value.bundleSku.value, 1)])
    else
      var summed := Summed(Rows(guide.value.bom));
      if summed == [] then Err(NoComponents) else Ok(summed)
  }

  /** How many of a SKU the rows of a guide call for, each row for one at least. */
  function CalledFor(bom: seq<BomItem>, skuId: int): int {
    if bom == [] then 0
    else
      CalledFor(bom[..|bom| - 1], skuId)
      + if bom[|bom| - 1].skuId != Some(skuId) then 0 else if bom[|bom| - 1].quantity < 1 then 1 else bom[|bom| - 1].quantity
  }

  lemma {:induction false} MergeAsks(adds: seq<Addition>, a: Addition, skuId: int)
    ensures Asked(Merge(adds, a), skuId) == Asked(adds, skuId) + if a.skuId == skuId then a.qty else 0
  {
    if adds != [] && adds[0].skuId != a.skuId {
      MergeAsks(adds[1..], a, skuId);
    }
  }

  lemma {:induction false} RowsAsk(bom: seq<BomItem>, skuId: int)
    ensures Asked(Summed(Rows(bom)), skuId) == CalledFor(bom, skuId)
  {
    if bom != [] {
      var init := bom[..|bom| - 1];
      RowsAsk(init, skuId);
      RowsStep(bom, |bom| - 1);
      assert bom[..|bom| - 1 + 1] == bom;
      if bom[|bom| - 1].skuId.Some? {
        MergeAsks(Summed(Rows(init)), Addition(bom[|bom| - 1].skuId.value, Max(1, bom[|bom| - 1].quantity)), skuId);
      }
    }
  }

  /** What a guide puts into the cart: one of its bundle, or of every SKU what its rows
      call for; and exactly when it has something to put there. */
  lemma GuideAsksExactly(guide: Guide, mode: AddDiyMode, skuId: int)
    ensures Additions(Some(guide), mode).Ok? ==>
      Asked(Additions(Some(guide), mode).value, skuId)
      == (match mode
          case WHOLE_BUNDLE => if guide.bundleSku == Some(skuId) then 1 else 0
          case COMPONENTS => CalledFor(guide.bom, skuId))
    ensures Additions(Some(guide), mode).Ok? <==>
      && guide.isPublished
      && (match mode
          case WHOLE_BUNDLE => guide.bundleActive && guide.bundleSku != None
          case COMPONENTS => exists b :: b in guide.bom && b.skuId != None)
    ensures Additions(None, mode) == Err(GuideNotFound)
    ensures !guide.isPublished ==> Additions(Some(guide), mode) == Err(GuideNotFound)
    ensures guide.isPublished && Additions(Some(guide), mode).Err? ==>
      Additions(Some(guide), mode) == Err(if mode == COMPONENTS then NoComponents else NoBundle)
  {
    RowsAsk(guide.bom, skuId);
    SummedIsEmptyExactly(guide.bom);
    if mode.WHOLE_BUNDLE? && guide.bundleSku.Some? {
      assert [Addition(guide.bundleSku.value, 1)][1..] == [];
    }
  }

  lemma {:induction false} SummedIsEmptyExactly(bom: seq<BomItem>)
    ensures Summed(Rows(bom)) != [] <==> exists b :: b in bom && b.skuId != None
  {
    if bom != [] {
      var init, last := bom[..|bom| - 1], bom[|bom| - 1];
      assert bom == init + [last] && last in bom;
      SummedIsEmptyExactly(init);
      RowsStep(bom, |bom| - 1);
      assert bom[..|bom| - 1 + 1] == bom;
    }
  }

  lemma AdditionsArePositive(guide: Option<Guide>, mode: AddDiyMode)
    requires Additions(guide, mode).Ok?
    ensures Distinct(Additions(guide, mode).value)
  {
    if mode.COMPONENTS? {
      RowsArePositive(guide.value.bom);
      SummingAgrees(Cart([], 0), Shop(map[], 0), Rows(guide.value.bom));
    }
  }

  class CartService {
    var lines: seq<Line>
    var nextId: nat
    var active: bool
    var expiresAt: Option<int>

    ghost predicate Valid() reads this { CartOk(Contents()) }
    function Contents(): Cart reads this { Cart(lines, nextId) }

    /** A cart takes changes while it is active, and up to its expiry if it has one. */
    predicate Closed(now: int): (closed: bool)
      reads this
      ensures !closed <==> active && forall until :: expiresAt == Some(until) ==> now <= until
    {
      (expiresAt.Some? && expiresAt.value < now) || !active
    }

    constructor (expiresAt: Option<int>)
      ensures Valid() && lines == []
    {
      lines, nextId, active := [], 0, true;
      this.expiresAt := expiresAt;
    }

    method AddSkuToCart(shop: Shop, skuId: int, qty: int) returns (error: Option<CartError>)
      modifies this`lines, this`nextId
      ensures AddAll(old(Contents()), shop, [Addition(skuId, qty)]) == Outcome(Contents(), error)
    {
      AddAllPair(Contents(), shop, Addition(skuId, qty), Addition(skuId, qty));
      var loaded := LoadPricingSku(shop, skuId);
      if loaded.Err? {
        return Some(loaded.error);
      }
      var sku := loaded.value;
      var existing := IndexOf(lines, skuId);
      var newQty := (if existing < |lines| then lines[existing].quantity else 0) + qty;
      if newQty > MAX_CART_ITEM_QTY {
        return Some(QuantityCap);
      }
      if existing < |lines| {
        lines := lines[existing := Reprice(lines[existing], newQty, sku, shop.now)];
        return None;
      }
      if |lines| >= MAX_CART_LINES {
        return Some(LineCap);
      }
      lines := lines + [NewLine(nextId, skuId, qty, sku, shop.now)];
      nextId := nextId + 1;
      return None;
    }

    method AddItem(shop: Shop, skuId: int, qty: int) returns (error: Option<CartError>)
      requires Valid() && ShopOk(shop)
      modifies this`lines, this`nextId
      ensures Valid() && (old(|lines|) <= MAX_CART_LINES ==> |lines| <= MAX_CART_LINES)
      ensures Outcome(Contents(), error) ==
        if qty <= 0 then Outcome(old(Contents()), Some(BadQuantity))
        else if Closed(shop.now) then Outcome(old(Contents()), Some(CartClosed))
        else AddAll(old(Contents()), shop, [Addition(skuId, qty)])
    {
      if qty <= 0 {
        return Some(BadQuantity);
      }
      if Closed(shop.now) {
        return Some(CartClosed);
      }
      AddAllKeepsCart(Contents(), shop, [Addition(skuId, qty)]);
      error := AddSkuToCart(shop, skuId, qty);
    }

    method UpdateItem(shop: Shop, id: nat, qty: int) returns (error: Option<CartError>)
      requires Valid() && ShopOk(shop)
      modifies this`lines
      ensures Valid() && |lines| == old(|lines|)
      ensures if 0 < qty <= MAX_CART_ITEM_QTY && Closed(shop.now) then error == Some(CartClosed) && lines == old(lines)
        else match UpdateLine(old(Contents()), shop, id, qty)
             case Ok(next) => error == None && Contents() == next
             case Err(e) => error == Some(e) && lines == old(lines)
    {
      if qty <= 0 {
        return Some(BadQuantity);
      }
      if qty > MAX_CART_ITEM_QTY {
        return Some(QuantityCap);
      }
      if Closed(shop.now) {
        return Some(CartClosed);
      }
      var i := IndexOfId(lines, id);
      if i == |lines| {
        return Some(ItemNotFound);
      }
      var loaded := LoadPricingSku(shop, lines[i].skuId);
      if loaded.Err? {
        return Some(loaded.error);
      }
      lines := lines[i := Reprice(lines[i], qty, loaded.value, shop.now)];
      return None;
    }

    method RemoveItem(now: int, id: nat) returns (error: Option<CartError>)
      requires Valid()
      modifies this`lines
      ensures Valid()
      ensures lines == if Closed(now) then old(lines) else Without(old(lines), id)
      ensures error == if Closed(now) then Some(CartClosed)
                       else if exists l :: l in old(lines) && l.id == id then None else Some(ItemNotFound)
    {
      if Closed(now) {
        return Some(CartClosed);
      }
      var i := IndexOfId(lines, id);
      if i == |lines| {
        return Some(ItemNotFound);
      }
      assert lines[i] in lines;
      WithoutKeepsCart(Contents(), id);
      lines := lines[..i] + lines[i + 1..];
      return None;
    }

    /** Adds the guide's purchase set; stops at the first addition that fails, keeping
        the ones before it. */
    method AddDiyBundle(shop: Shop, guide: Option<Guide>, mode: AddDiyMode) returns (error: Option<CartError>)
      requires Valid() && ShopOk(shop)
      modifies this`lines, this`nextId
      ensures Valid() && (old(|lines|) <= MAX_CART_LINES ==> |lines| <= MAX_CART_LINES)
      ensures Outcome(Contents(), error) ==
        if Closed(shop.now) then Outcome(old(Contents()), Some(CartClosed))
        else match Additions(guide, mode)
             case Err(e) => Outcome(old(Contents()), Some(e))
             case Ok(adds) => AddAll(old(Contents()), shop, adds)
    {
      if Closed(shop.now) {
        return Some(CartClosed);
      }
      if guide.None? || !guide.value.isPublished {
        return Some(GuideNotFound);
      }
      var additions: seq<Addition> := [];
      if mode.WHOLE_BUNDLE? {
        if guide.value.bundleSku.None? || !guide.value.bundleActive {
          return Some(NoBundle);
        }
        additions := [Addition(guide.value.bundleSku.value, 1)];
      } else {
        additions := SumComponents(guide.value.bom);
        if additions == [] {
          return Some(NoComponents);
        }
      }
      AdditionsArePositive(guide, mode);
      AddAllKeepsCart(Contents(), shop, additions);
      error := AddEach(shop, additions);
    }

    /** The loop over the additions. */
    method AddEach(shop: Shop, additions: seq<Addition>) returns (error: Option<CartError>)
      modifies this`lines, this`nextId
      ensures Outcome(Contents(), error) == AddAll(old(Contents()), shop, additions)
    {
      var k := 0;
      while k < |additions|
        invariant 0 <= k <= |additions|
        invariant AddAll(old(Contents()), shop, additions) == AddAll(Contents(), shop, additions[k..])
      {
        AddAllAppend(Contents(), shop, [additions[k]], additions[k + 1..]);
        assert [additions[k]] + additions[k + 1..] == additions[k..];
        error := AddSkuToCart(shop, additions[k].skuId, additions[k].qty);
        if error.Some? {
          return;
        }
        k := k + 1;
      }
      return None;
    }
  }

  /** The summing map, its entries in insertion order. */
  method SumComponents(bom: seq<BomItem>) returns (summed: seq<Addition>)
    ensures summed == Summed(Rows(bom))
  {
    summed := [];
    for i := 0 to |bom|
      invariant summed == Summed(Rows(bom[..i]))
    {
      RowsStep(bom, i);
      if bom[i].skuId.None? {
        continue;
      }
      summed := SetSum(summed, Addition(bom[i].skuId.value, Max(1, bom[i].quantity)));
    }
    assert bom[..|bom|] == bom;
  }

  lemma RowsStep(bom: seq<BomItem>, i: nat)
    requires i < |bom|
    ensures Summed(Rows(bom[..i + 1])) ==
      if bom[i].skuId.None? then Summed(Rows(bom[..i]))
      else Merge(Summed(Rows(bom[..i])), Addition(bom[i].skuId.value, Max(1, bom[i].quantity)))
  {
    assert bom[..i + 1][..i] == bom[..i];
    var rows := Rows(bom[..i]);
    if bom[i].skuId.Some? {
      var a := Addition(bom[i].skuId.value, Max(1, bom[i].quantity));
      assert Rows(bom[..i + 1]) == rows + [a] && (rows + [a])[..|rows|] == rows;
    } else {
      assert Rows(bom[..i + 1]) == rows;
    }
  }

  /** One `set` on the map: find the key, or append it. */
  method SetSum(summed: seq<Addition>, a: Addition) returns (next: seq<Addition>)
    ensures next == Merge(summed, a)
  {
    var at := 0;
    while at < |summed| && summed[at].skuId != a.skuId
      invariant 0 <= at <= |summed|
      invariant Merge(summed, a) == summed[..at] + Merge(summed[at..], a)
    {
      assert summed[at..][1..] == summed[at + 1..];
      at := at + 1;
    }
    if at < |summed| {
      assert summed[at..][1..] == summed[at + 1..];
      next := summed[at := Addition(a.skuId, summed[at].qty + a.qty)];
    } else {
      next := summed + [a];
    }
  }

  /** What a bundle request does to a cart is what adding the guide's rows one at a time
      would have done. */
  lemma ComponentsAddOneByOne(c: Cart, shop: Shop, guide: Guide)
    requires Additions(Some(guide), COMPONENTS).Ok?
    ensures Agree(AddAll(c, shop, Additions(Some(guide), COMPONENTS).value), AddAll(c, shop, Rows(guide.bom)))
  {
    RowsArePositive(guide.bom);
    SummingAgrees(c, shop, Rows(guide.bom));
  }
}
