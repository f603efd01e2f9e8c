/** The totals of a cart: live re-pricing, coupon, apportioned taxable base, tax. */
module Totals {
  import opened Wrappers
  import opened Pricing
  import opened Apportionment

  datatype CartLine = CartLine(id: int, skuId: int, quantity: nat, unitPriceSnapshot: int, sku: Sku)

  datatype LineView = LineView(itemId: int, skuId: int, quantity: nat, unitPrice: nat, lineSubtotal: nat,
                               taxClassId: Option<int>, hsnCode: Option<string>,
                               purchasable: bool, available: int, inStock: bool)

  datatype CartTotals = CartTotals(lines: seq<LineView>, subtotal: int, couponId: Option<int>,
                                   couponCode: Option<string>, couponDiscount: int, couponValid: bool,
                                   taxable: int, tax: int, grandTotal: int)

  /** What the totals depend on besides the lines: clock, buyer, stock on hand, the
      coupon table (`None` when the coupon module is absent) and the tax engine, which
      may fail to quote. */
  datatype Context = Context(now: int, isGuest: bool, stock: map<int, int>,
                             coupons: Option<map<int, Coupon>>, quoteTax: (seq<LineView>, seq<int>) -> Option<nat>)

  // ----- lines

  function ViewOf(it: CartLine, ctx: Context): LineView {
    var unitPrice := if it.sku.Purchasable() then UnitPrice(it.sku, it.quantity, ctx.now) else 0;
    var available := if it.sku.id in ctx.stock then ctx.stock[it.sku.id] else 0;
    LineView(it.id, it.sku.id, it.quantity, unitPrice, unitPrice * it.quantity, it.sku.taxClassId, it.sku.hsnCode,
             it.sku.Purchasable(), available, available >= it.quantity)
  }

  function Views(items: seq<CartLine>, ctx: Context): seq<LineView> {
    seq(|items|, i requires 0 <= i < |items| => ViewOf(items[i], ctx))
  }

  function Weights(lines: seq<LineView>): seq<int> {
    seq(|lines|, i requires 0 <= i < |lines| => lines[i].lineSubtotal)
  }

  function LineWorth(it: CartLine, now: int): nat {
    if it.sku.Purchasable() then UnitPrice(it.sku, it.quantity, now) * it.quantity else 0
  }

  /** The sum over purchasable lines alone, as the coupon pre-check takes it. */
  function Subtotal(items: seq<CartLine>, now: int): nat {
    if items == [] then 0 else Subtotal(items[..|items| - 1], now) + LineWorth(items[|items| - 1], now)
  }

  lemma SubtotalStep(items: seq<CartLine>, i: nat, now: int)
    requires i < |items|
    ensures Subtotal(items[..i + 1], now) == Subtotal(items[..i], now) + LineWorth(items[i], now)
  {
    assert items[..i + 1][..i] == items[..i];
  }

  method SubtotalOf(items: seq<CartLine>, now: int) returns (subtotal: nat)
    ensures subtotal == Subtotal(items, now)
  {
    subtotal := 0;
    for i := 0 to |items|
      invariant subtotal == Subtotal(items[..i], now)
    {
      SubtotalStep(items, i, now);
      var sku := items[i].sku;
      if !sku.Purchasable() {
        continue;
      }
      var unitPrice := ResolveUnitPrice(sku, items[i].quantity, now);
      subtotal := subtotal + unitPrice * items[i].quantity;
    }
    assert items[..|items|] == items;
  }

  // ----- coupon, taxable base, tax

  /** The code and discount of the attached coupon, if it qualifies. */
  function PreviewDiscount(couponId: Option<int>, subtotal: int, ctx: Context): Option<(string, int)> {
    if couponId.None? || subtotal <= 0 || ctx.coupons.None? || couponId.value !in ctx.coupons.value then None
    else
      var c := ctx.coupons.value[couponId.value];
      if Qualifies(c, subtotal, ctx.now, ctx.isGuest) then Some((c.code, CouponDiscount(c, subtotal))) else None
  }

  function PreviewTax(lines: seq<LineView>, taxables: seq<int>, ctx: Context): nat {
    match ctx.quoteTax(lines, taxables)
    case Some(tax) => tax
    case None => 0
  }

  function TotalsOf(items: seq<CartLine>, couponId: Option<int>, ctx: Context): CartTotals {
    var lines := Views(items, ctx);
    var subtotal := Sum(Weights(lines));
    var preview := PreviewDiscount(couponId, subtotal, ctx);
    var discount := if preview.Some? then Min(preview.value.1, subtotal) else 0;
    var taxable := Max(0, subtotal - discount);
    var tax := if taxable > 0 then PreviewTax(lines, Apportioned(Weights(lines), taxable), ctx) else 0;
    CartTotals(lines, subtotal, if preview.Some? then couponId else None,
               if preview.Some? then Some(preview.value.0) else None,
               discount, preview.Some?, taxable, tax, taxable + tax)
  }

  lemma ViewsAppend(items: seq<CartLine>, i: nat, ctx: Context)
    requires i < |items|
    ensures Views(items[..i + 1], ctx) == Views(items[..i], ctx) + [ViewOf(items[i], ctx)]
  {
  }

  lemma WeightsAppend(lines: seq<LineView>, v: LineView)
    ensures Sum(Weights(lines + [v])) == Sum(Weights(lines)) + v.lineSubtotal
  {
    assert Weights(lines + [v]) == Weights(lines) + [v.lineSubtotal];
    SumAppend(Weights(lines), v.lineSubtotal);
  }

  /** One turn of the per-line loop: re-price a line and read its availability. */
  method PriceLine(it: CartLine, ctx: Context) returns (view: LineView)
    ensures view == ViewOf(it, ctx)
  {
    var unitPrice: nat := 0;
    if it.sku.Purchasable() {
      unitPrice := ResolveUnitPrice(it.sku, it.quantity, ctx.now);
    }
    var available := if it.sku.id in ctx.stock then ctx.stock[it.sku.id] else 0;
    view := LineView(it.id, it.sku.id, it.quantity, unitPrice, unitPrice * it.quantity, it.sku.taxClassId,
                     it.sku.hsnCode, it.sku.Purchasable(), available, available >= it.quantity);
  }

  method ComputeLines(items: seq<CartLine>, ctx: Context) returns (lines: seq<LineView>, subtotal: int)
    ensures lines == Views(items, ctx) && subtotal == Sum(Weights(lines))
  {
    lines, subtotal := [], 0;
    for i := 0 to |items|
      invariant lines == Views(items[..i], ctx) && subtotal == Sum(Weights(lines))
    {
      var view := PriceLine(items[i], ctx);
      ViewsAppend(items, i, ctx);
      WeightsAppend(lines, view);
      subtotal := subtotal + view.lineSubtotal;
      lines := lines + [view];
    }
    assert items[..|items|] == items;
  }

  method ComputeTotals(items: seq<CartLine>, couponId: Option<int>, ctx: Context) returns (t: CartTotals)
    ensures t == TotalsOf(items, couponId, ctx)
  {
    if |items| == 0 {
      assert Views(items, ctx) == [] && Weights([]) == [];
      return CartTotals([], 0, None, None, 0, false, 0, 0, 0);
    }
    var lines, subtotal := ComputeLines(items, ctx);
    var couponDiscount, couponCode, couponValid := 0, None, false;
    if couponId.Some? && subtotal > 0 {
      var preview := PreviewDiscount(couponId, subtotal, ctx);
      if preview.Some? {
        couponDiscount := Min(preview.value.1, subtotal);
        couponCode := Some(preview.value.0);
        couponValid := true;
      }
    }
    var taxableTotal := Max(0, subtotal - couponDiscount);
    var lineTaxables := Apportion(Weights(lines), taxableTotal);
    var tax := 0;
    if taxableTotal > 0 {
      tax := PreviewTax(lines, lineTaxables[..], ctx);
    }
    return CartTotals(lines, subtotal, if couponValid then couponId else None, couponCode,
                      couponDiscount, couponValid, taxableTotal, tax, taxableTotal + tax);
  }

  // ----- the serialized cart

  datatype ItemView = ItemView(id: int, skuId: int, quantity: nat, unitPrice: int, lineSubtotal: int,
                               purchasable: bool, available: int, inStock: bool)

  /** The computed line of an item; the last one, should ids repeat. */
  function LineById(lines: seq<LineView>, id: int): (r: Option<LineView>)
    ensures r.Some? ==> r.value in lines && r.value.itemId == id
    ensures r.None? ==> forall l | l in lines :: l.itemId != id
  {
    if lines == [] then None
    else if lines[|lines| - 1].itemId == id then Some(lines[|lines| - 1])
    else
      assert lines == lines[..|lines| - 1] + [lines[|lines| - 1]];
      LineById(lines[..|lines| - 1], id)
  }

  function ItemViewOf(it: CartLine, totals: CartTotals): ItemView {
    match LineById(totals.lines, it.id)
    case Some(l) => ItemView(it.id, it.skuId, it.quantity, l.unitPrice, l.lineSubtotal, l.purchasable, l.available, l.inStock)
    case None => ItemView(it.id, it.skuId, it.quantity, it.unitPriceSnapshot, it.unitPriceSnapshot * it.quantity,
                          true, 0, false)
  }

  function SerializeItems(items: seq<CartLine>, totals: CartTotals): seq<ItemView> {
    seq(|items|, i requires 0 <= i < |items| => ItemViewOf(items[i], totals))
  }

  // ----- main results

  lemma {:induction false} SubtotalsAgree(items: seq<CartLine>, ctx: Context)
    ensures Sum(Weights(Views(items, ctx))) == Subtotal(items, ctx.now)
  {
    if items == [] {
      assert Weights(Views([], ctx)) == [];
    } else {
      var init, it := items[..|items| - 1], items[|items| - 1];
      SubtotalsAgree(init, ctx);
      assert Weights(Views(items, ctx)) == Weights(Views(init, ctx)) + [ViewOf(it, ctx).lineSubtotal];
      SumAppend(Weights(Views(init, ctx)), ViewOf(it, ctx).lineSubtotal);
    }
  }

  /** A coupon is reported exactly when it is attached, known and qualifies, and then
      the discount is the coupon's own. */
  lemma CouponIsReported(items: seq<CartLine>, couponId: Option<int>, ctx: Context)
    ensures var t := TotalsOf(items, couponId, ctx);
      && (t.couponValid <==>
            && couponId.Some? && ctx.coupons.Some? && couponId.value in ctx.coupons.value && t.subtotal > 0
            && Qualifies(ctx.coupons.value[couponId.value], t.subtotal, ctx.now, ctx.isGuest))
      && t.couponDiscount == (if t.couponValid then CouponDiscount(ctx.coupons.value[couponId.value], t.subtotal) else 0)
      && t.couponId == (if t.couponValid then couponId else None)
      && t.couponCode == (if t.couponValid then Some(ctx.coupons.value[couponId.value].code) else None)
  {
  }

  ghost function Differences(a: seq<int>, b: seq<int>): seq<int>
    requires |a| == |b|
  {
    seq(|a|, i requires 0 <= i < |a| => a[i] - b[i])
  }

  lemma {:induction false} SumOfDifferences(a: seq<int>, b: seq<int>)
    requires |a| == |b|
    ensures Sum(Differences(a, b)) == Sum(a) - Sum(b)
  {
    if a != [] {
      var n := |a| - 1;
      SumOfDifferences(a[..n], b[..n]);
      assert Differences(a, b)[..n] == Differences(a[..n], b[..n]);
    }
  }

  /** For every cart, coupon and context: the discount stays within the subtotal, the
      lines' taxable values sum to what is left, each line gives up between nothing and
      its own subtotal, the lines together give up the discount, and the grand total is
      taxable plus tax. */
  lemma {:induction false} DiscountIsConserved(items: seq<CartLine>, couponId: Option<int>, ctx: Context)
    ensures var t := TotalsOf(items, couponId, ctx);
            var weights := Weights(t.lines);
            var taxables := Apportioned(weights, t.taxable);
      && t.subtotal == Subtotal(items, ctx.now)
      && 0 <= t.couponDiscount <= t.subtotal && t.taxable == t.subtotal - t.couponDiscount
      && Sum(taxables) == t.taxable
      && (forall i | 0 <= i < |items| :: 0 <= weights[i] - taxables[i] <= weights[i])
      && Sum(Differences(weights, taxables)) == t.couponDiscount
      && t.grandTotal == t.taxable + t.tax && t.tax >= 0 && (t.taxable == 0 ==> t.tax == 0)
  {
    var t := TotalsOf(items, couponId, ctx);
    var weights := Weights(t.lines);
    SubtotalsAgree(items, ctx);
    CouponIsReported(items, couponId, ctx);
    if t.couponValid {
      DiscountIsBounded(ctx.coupons.value[couponId.value], t.subtotal);
    }
    WeightsAreNat(t.lines);
    TaxablesAreShares(weights, t.taxable);
  }

  lemma DiscountIsBounded(c: Coupon, subtotal: nat)
    ensures 0 <= CouponDiscount(c, subtotal) <= subtotal
  {
  }

  lemma WeightsAreNat(lines: seq<LineView>)
    ensures forall i | 0 <= i < |lines| :: Weights(lines)[i] >= 0
  {
  }

  lemma {:induction false} TaxablesAreShares(weights: seq<int>, taxable: nat)
    requires taxable <= Sum(weights) && forall i | 0 <= i < |weights| :: weights[i] >= 0
    ensures var taxables := Apportioned(weights, taxable);
      && Sum(taxables) == taxable
      && (forall i | 0 <= i < |weights| :: 0 <= weights[i] - taxables[i] <= weights[i])
      && Sum(Differences(weights, taxables)) == Sum(weights) - taxable
  {
    var taxables := Apportioned(weights, taxable);
    PartsSumToTotal(weights, taxable);
    SumOfDifferences(weights, taxables);
    forall i | 0 <= i < |weights| ensures 0 <= weights[i] - taxables[i] <= weights[i] {
      PartsAreBounded(weights, taxable, i);
    }
  }

  /** `parts` splits `taxable` over the lines: each part between nothing and its line's
      subtotal, and within one paisa of its exact share. */
  ghost predicate IsSplit(lines: seq<LineView>, taxable: int, parts: seq<int>) {
    && |parts| == |lines| && Sum(parts) == taxable
    && forall i | 0 <= i < |lines| ::
         && 0 <= parts[i] <= lines[i].lineSubtotal
         && (Sum(Weights(lines)) > 0 ==> Near(lines[i].lineSubtotal * taxable, Sum(Weights(lines)), parts[i]))
  }

  lemma ApportionedIsSplit(lines: seq<LineView>, taxable: nat)
    requires taxable <= Sum(Weights(lines))
    ensures IsSplit(lines, taxable, Apportioned(Weights(lines), taxable))
  {
    WeightsAreNat(lines);
    TaxablesAreShares(Weights(lines), taxable);
    forall i | 0 <= i < |lines| && Sum(Weights(lines)) > 0
      ensures Near(lines[i].lineSubtotal * taxable, Sum(Weights(lines)), Apportioned(Weights(lines), taxable)[i])
    {
      WithinOneOfQuota(Weights(lines), taxable, i);
    }
  }

  /** The tax is what the engine asks for these taxable values, or zero without a quote. */
  ghost predicate QuotedOn(t: CartTotals, ctx: Context, parts: seq<int>) {
    match ctx.quoteTax(t.lines, parts)
    case Some(tax) => t.tax == tax
    case None => t.tax == 0
  }

  /** Tax is quoted on the discounted lines: on a split of subtotal minus discount over
      them. With nothing left to tax it is zero. */
  lemma {:induction false} TaxIsQuotedOnSplit(items: seq<CartLine>, couponId: Option<int>, ctx: Context)
    ensures var t := TotalsOf(items, couponId, ctx);
      if t.subtotal == t.couponDiscount then t.tax == 0
      else exists parts :: IsSplit(t.lines, t.subtotal - t.couponDiscount, parts) && QuotedOn(t, ctx, parts)
  {
    var t := TotalsOf(items, couponId, ctx);
    DiscountIsConserved(items, couponId, ctx);
    ApportionedIsSplit(t.lines, t.taxable);
    var parts := Apportioned(Weights(t.lines), t.taxable);
    assert IsSplit(t.lines, t.subtotal - t.couponDiscount, parts);
    assert t.taxable > 0 ==> QuotedOn(t, ctx, parts);
  }

  /** So where the quote depends on the sum of the taxable values alone, the tax is the
      quote for subtotal minus discount. */
  lemma {:induction false} TaxFollowsDiscount(items: seq<CartLine>, couponId: Option<int>, ctx: Context, rate: int -> nat)
    requires forall lines, parts :: ctx.quoteTax(lines, parts) == Some(rate(Sum(parts)))
    ensures var t := TotalsOf(items, couponId, ctx);
            t.couponDiscount < t.subtotal ==>
              t.tax == rate(t.subtotal - t.couponDiscount)
              && t.grandTotal == t.subtotal - t.couponDiscount + rate(t.subtotal - t.couponDiscount)
  {
    var t := TotalsOf(items, couponId, ctx);
    TaxIsQuotedOnSplit(items, couponId, ctx);
    DiscountIsConserved(items, couponId, ctx);
  }

  /** Every line of the totals shows its item, in order, with the stock on hand. */
  lemma LinesShowItems(items: seq<CartLine>, couponId: Option<int>, ctx: Context, i: nat)
    requires i < |items|
    ensures var lines := TotalsOf(items, couponId, ctx).lines;
      && |lines| == |items|
      && lines[i].itemId == items[i].id && lines[i].skuId == items[i].sku.id && lines[i].quantity == items[i].quantity
      && lines[i].taxClassId == items[i].sku.taxClassId && lines[i].hsnCode == items[i].sku.hsnCode
      && (items[i].sku.id in ctx.stock ==> lines[i].available == ctx.stock[items[i].sku.id])
      && (items[i].sku.id !in ctx.stock ==> lines[i].available == 0)
      && (lines[i].inStock <==> items[i].quantity <= lines[i].available)
  {
  }

  ghost predicate SameButSnapshots(a: seq<CartLine>, b: seq<CartLine>) {
    |a| == |b| && forall i | 0 <= i < |a| :: b[i] == a[i].(unitPriceSnapshot := b[i].unitPriceSnapshot)
  }

  lemma ViewsIgnoreSnapshots(a: seq<CartLine>, b: seq<CartLine>, ctx: Context)
    requires SameButSnapshots(a, b)
    ensures Views(a, ctx) == Views(b, ctx)
  {
  }

  lemma EveryLineIsFound(items: seq<CartLine>, ctx: Context, i: nat)
    requires i < |items|
    ensures LineById(Views(items, ctx), items[i].id).Some?
  {
    assert Views(items, ctx)[i].itemId == items[i].id;
  }

  /** Stored prices reach neither the totals nor the serialized lines. */
  lemma StoredPricesAreIgnored(a: seq<CartLine>, b: seq<CartLine>, couponId: Option<int>, ctx: Context)
    requires SameButSnapshots(a, b)
    ensures TotalsOf(a, couponId, ctx) == TotalsOf(b, couponId, ctx)
    ensures SerializeItems(a, TotalsOf(a, couponId, ctx)) == SerializeItems(b, TotalsOf(b, couponId, ctx))
  {
    ViewsIgnoreSnapshots(a, b, ctx);
    ItemsIgnoreSnapshots(a, b, TotalsOf(a, couponId, ctx), ctx);
  }

  lemma ItemsIgnoreSnapshots(a: seq<CartLine>, b: seq<CartLine>, totals: CartTotals, ctx: Context)
    requires SameButSnapshots(a, b) && totals.lines == Views(a, ctx)
    ensures SerializeItems(a, totals) == SerializeItems(b, totals)
  {
    forall i | 0 <= i < |a| ensures ItemViewOf(a[i], totals) == ItemViewOf(b[i], totals) {
      EveryLineIsFound(a, ctx, i);
    }
  }

  /** An item without a computed line would show its stored price, out of stock. */
  lemma MissingLineShowsStored(it: CartLine, totals: CartTotals)
    requires forall l | l in totals.lines :: l.itemId != it.id
    ensures var v := ItemViewOf(it, totals);
      && v.unitPrice == it.unitPriceSnapshot && v.lineSubtotal == it.unitPriceSnapshot * it.quantity
      && v.purchasable && v.available == 0 && !v.inStock
  {
  }

  /** With distinct ids, every serialized line carries its own live price. */
  lemma SerializedPricesAreLive(items: seq<CartLine>, couponId: Option<int>, ctx: Context, i: nat)
    requires i < |items| && forall j, k | 0 <= j < k < |items| :: items[j].id != items[k].id
    ensures var v, it := SerializeItems(items, TotalsOf(items, couponId, ctx))[i], items[i];
      && v.id == it.id && v.skuId == it.skuId && v.quantity == it.quantity && v.purchasable == it.sku.Purchasable()
      && v.available == (if it.sku.id in ctx.stock then ctx.stock[it.sku.id] else 0)
      && (v.inStock <==> it.quantity <= v.available)
      && v.unitPrice == (if it.sku.Purchasable() then UnitPrice(it.sku, it.quantity, ctx.now) else 0)
      && v.lineSubtotal == v.unitPrice * v.quantity
  {
    var lines := Views(items, ctx);
    assert lines[i].itemId == items[i].id;
    var found := LineById(lines, items[i].id);
    var k :| 0 <= k < |lines| && lines[k] == found.value;
    assert k == i;
  }
}
