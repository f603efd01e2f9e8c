/** Unit prices (sale window, quantity tiers) and coupon discounts, in integer paise. */
module Pricing {
  import opened Wrappers

  datatype PriceTier = PriceTier(minQty: int, unitPrice: nat)
  datatype ProductStatus = DRAFT | ACTIVE | ARCHIVED
  datatype ProductType = STANDARD | BUNDLE | DIGITAL

  datatype Sku = Sku(id: int, basePrice: nat, salePrice: Option<nat>, saleStartsAt: Option<int>,
                     saleEndsAt: Option<int>, taxClassId: Option<int>, hsnCode: Option<string>,
                     isActive: bool, productStatus: ProductStatus, productType: ProductType,
                     priceTiers: seq<PriceTier>)
  {
    predicate Purchasable() { isActive && productStatus.ACTIVE? && !productType.DIGITAL? }
  }

  function EffectivePrice(sku: Sku, now: int): nat {
    var startsOk := sku.saleStartsAt.None? || sku.saleStartsAt.value <= now;
    var endsOk := sku.saleEndsAt.None? || sku.saleEndsAt.value >= now;
    if sku.salePrice.Some? && sku.salePrice.value < sku.basePrice && startsOk && endsOk
    then sku.salePrice.value else sku.basePrice
  }

  /** The sale price applies exactly in its window, if it is below the base price. */
  lemma SaleAppliesExactly(sku: Sku, now: int)
    ensures EffectivePrice(sku, now) <= sku.basePrice
    ensures EffectivePrice(sku, now) < sku.basePrice <==>
            && (exists sale :: sku.salePrice == Some(sale) && sale < sku.basePrice && EffectivePrice(sku, now) == sale)
            && (forall from :: sku.saleStartsAt == Some(from) ==> from <= now)
            && (forall until :: sku.saleEndsAt == Some(until) ==> now <= until)
    ensures sku.salePrice.Some? && sku.salePrice.value < sku.basePrice
            && (sku.saleStartsAt.Some? ==> sku.saleStartsAt.value <= now)
            && (sku.saleEndsAt.Some? ==> now <= sku.saleEndsAt.value)
            ==> EffectivePrice(sku, now) == sku.salePrice.value
  {
  }

  /** So a sale only lowers the price, and over one unbroken stretch of time. */
  lemma SaleIsOneStretch(sku: Sku, from: int, now: int, until: int)
    requires from <= now <= until
    requires EffectivePrice(sku, from) < sku.basePrice && EffectivePrice(sku, until) < sku.basePrice
    ensures EffectivePrice(sku, from) == EffectivePrice(sku, now) == EffectivePrice(sku, until)
  {
  }

  /** `price` is the least of `start` and the prices of the tiers that `qty` reaches. */
  ghost predicate IsBest(start: nat, tiers: seq<PriceTier>, qty: int, price: nat) {
    && price <= start
    && (forall t | t in tiers && qty >= t.minQty :: price <= t.unitPrice)
    && (price == start || exists t :: t in tiers && qty >= t.minQty && price == t.unitPrice)
  }

  function Best(start: nat, tiers: seq<PriceTier>, qty: int): nat {
    if tiers == [] then start
    else
      var tier, best := tiers[|tiers| - 1], Best(start, tiers[..|tiers| - 1], qty);
      if qty >= tier.minQty && tier.unitPrice < best then tier.unitPrice else best
  }

  function UnitPrice(sku: Sku, qty: int, now: int): nat {
    Best(EffectivePrice(sku, now), sku.priceTiers, qty)
  }

  lemma {:induction false} BestIsBest(start: nat, tiers: seq<PriceTier>, qty: int)
    ensures IsBest(start, tiers, qty, Best(start, tiers, qty))
  {
    if tiers != [] {
      var init, tier := tiers[..|tiers| - 1], tiers[|tiers| - 1];
      assert tiers == init + [tier];
      BestIsBest(start, init, qty);
      assert tier in tiers;
    }
  }

  /** The unit price is the least price the quantity qualifies for. */
  lemma UnitPriceIsBest(sku: Sku, qty: int, now: int)
    ensures IsBest(EffectivePrice(sku, now), sku.priceTiers, qty, UnitPrice(sku, qty, now))
  {
    BestIsBest(EffectivePrice(sku, now), sku.priceTiers, qty);
  }

  method ResolveUnitPrice(sku: Sku, qty: int, now: int) returns (best: nat)
    ensures best == UnitPrice(sku, qty, now)
    ensures IsBest(EffectivePrice(sku, now), sku.priceTiers, qty, best)
  {
    var effective := EffectivePrice(sku, now);
    best := effective;
    for i := 0 to |sku.priceTiers|
      invariant best == Best(effective, sku.priceTiers[..i], qty)
    {
      var tier := sku.priceTiers[i];
      assert sku.priceTiers[..i + 1][..i] == sku.priceTiers[..i];
      if qty >= tier.minQty && tier.unitPrice < best {
        best := tier.unitPrice;
      }
    }
    assert sku.priceTiers[..|sku.priceTiers|] == sku.priceTiers;
    UnitPriceIsBest(sku, qty, now);
  }

  lemma BestIsUnique(start: nat, a: seq<PriceTier>, b: seq<PriceTier>, qty: int, p: nat, q: nat)
    requires forall t :: t in a <==> t in b
    requires IsBest(start, a, qty, p) && IsBest(start, b, qty, q)
    ensures p == q
  {
  }

  /** The order in which the tiers are listed does not matter. */
  lemma TierOrderIsIrrelevant(sku: Sku, tiers: seq<PriceTier>, qty: int, now: int)
    requires multiset(tiers) == multiset(sku.priceTiers)
    ensures UnitPrice(sku.(priceTiers := tiers), qty, now) == UnitPrice(sku, qty, now)
  {
    forall t ensures t in tiers <==> t in sku.priceTiers {
      assert t in multiset(tiers) <==> t in multiset(sku.priceTiers);
    }
    UnitPriceIsBest(sku, qty, now);
    UnitPriceIsBest(sku.(priceTiers := tiers), qty, now);
    BestIsUnique(EffectivePrice(sku, now), tiers, sku.priceTiers, qty,
                 UnitPrice(sku.(priceTiers := tiers), qty, now), UnitPrice(sku, qty, now));
  }

  /** Buying more never raises the unit price. */
  lemma MoreIsNotDearer(sku: Sku, few: int, many: int, now: int)
    requires few <= many
    ensures UnitPrice(sku, many, now) <= UnitPrice(sku, few, now)
  {
    UnitPriceIsBest(sku, few, now);
    UnitPriceIsBest(sku, many, now);
  }

  // ----- coupons

  datatype CouponType = PERCENT | FIXED
  datatype CouponStatus = ACTIVE | DISABLED | EXPIRED

  datatype Coupon = Coupon(code: string, kind: CouponType, value: int, maxDiscount: Option<int>,
                           minOrderValue: int, status: CouponStatus, allowGuest: bool,
                           usageLimit: Option<int>, usedCount: int,
                           startsAt: Option<int>, expiresAt: Option<int>)

  function Min(a: int, b: int): int { if a <= b then a else b }
  function Max(a: int, b: int): int { if a >= b then a else b }

  function PercentOf(subtotal: int, bps: int): int { (subtotal * bps + 5000) / 10000 }

  function CouponDiscount(c: Coupon, subtotal: int): int {
    var discount :=
      if c.kind.PERCENT? then
        var percent := PercentOf(subtotal, c.value);
        if c.maxDiscount.Some? then Min(percent, c.maxDiscount.value) else percent
      else c.value;
    Max(0, Min(discount, subtotal))
  }

  /** The checks a cart preview applies to the attached coupon. */
  predicate Qualifies(c: Coupon, subtotal: int, now: int, isGuest: bool) {
    && c.status.ACTIVE?
    && !(c.startsAt.Some? && now < c.startsAt.value)
    && !(c.expiresAt.Some? && now > c.expiresAt.value)
    && !(subtotal < c.minOrderValue)
    && !(!c.allowGuest && isGuest)
    && !(c.usageLimit.Some? && c.usedCount >= c.usageLimit.value)
  }

  /** A coupon qualifies from its minimum order value on, through both ends of its window,
      while it is active and not used up, and for guests only if it says so. */
  lemma QualifiesExactly(c: Coupon, subtotal: int, now: int, isGuest: bool)
    ensures Qualifies(c, subtotal, now, isGuest) <==>
            && c.status == CouponStatus.ACTIVE && c.minOrderValue <= subtotal && (isGuest ==> c.allowGuest)
            && (forall limit :: c.usageLimit == Some(limit) ==> c.usedCount < limit)
            && (forall from :: c.startsAt == Some(from) ==> from <= now)
            && (forall until :: c.expiresAt == Some(until) ==> now <= until)
  {
  }

  /** May a coupon take `d` off an order? A percentage rounded half up allows what is at
      most half a paisa above the exact one. */
  predicate Allows(c: Coupon, subtotal: int, d: int) {
    && d <= subtotal
    && match c.kind
       case PERCENT => 10000 * d <= subtotal * c.value + 5000 && (c.maxDiscount.Some? ==> d <= c.maxDiscount.value)
       case FIXED => d <= c.value
  }

  /** The discount is the most that the coupon allows, or nothing. */
  lemma DiscountIsGreatest(c: Coupon, subtotal: nat, d: nat)
    ensures d <= CouponDiscount(c, subtotal) <==> d == 0 || Allows(c, subtotal, d)
  {
  }

  lemma PercentSteps(s: nat, bps: int, d: nat)
    ensures 0 <= bps ==> PercentOf(s, bps) <= PercentOf(s + d, bps)
    ensures bps <= 10000 ==> PercentOf(s + d, bps) <= PercentOf(s, bps) + d
  {
  }

  lemma PercentOutOfRange(s: nat, bps: int)
    ensures bps < 0 ==> PercentOf(s, bps) <= 0
    ensures bps > 10000 ==> PercentOf(s, bps) >= s
  {
    assert bps < 0 ==> s * bps <= 0;
    assert bps > 10000 ==> s * bps >= s * 10000;
  }

  /** A larger order never gets a smaller discount, and never ends up cheaper, whatever
      the coupon: rounding, cap and clamp included. */
  lemma DiscountIsMonotone(c: Coupon, a: nat, b: nat)
    requires a <= b
    ensures CouponDiscount(c, a) <= CouponDiscount(c, b)
    ensures a - CouponDiscount(c, a) <= b - CouponDiscount(c, b)
  {
    if c.kind.PERCENT? {
      PercentSteps(a, c.value, b - a);
      PercentOutOfRange(a, c.value);
      PercentOutOfRange(b, c.value);
      CappedIsMonotone(PercentOf(a, c.value), PercentOf(b, c.value), c.maxDiscount, a, b);
    }
  }

  lemma CappedIsMonotone(p: int, q: int, cap: Option<int>, a: nat, b: nat)
    requires a <= b
    requires p <= q <= p + b - a || (p <= 0 && q <= 0) || (p >= a && q >= b)
    ensures var d := if cap.Some? then Min(p, cap.value) else p;
            var e := if cap.Some? then Min(q, cap.value) else q;
            Max(0, Min(d, a)) <= Max(0, Min(e, b)) && a - Max(0, Min(d, a)) <= b - Max(0, Min(e, b))
  {
  }

  /** Within a percentage coupon's legal range and below its cap, the discount is the
      exact percentage rounded half up. */
  lemma PercentRoundsHalfUp(c: Coupon, s: nat)
    requires c.kind.PERCENT? && 0 <= c.value <= 10000
    requires c.maxDiscount.Some? ==> PercentOf(s, c.value) <= c.maxDiscount.value
    ensures s * c.value - 5000 < 10000 * CouponDiscount(c, s) <= s * c.value + 5000
  {
  }

  function Payable(c: Coupon, s: nat, now: int, isGuest: bool): int {
    s - if Qualifies(c, s, now, isGuest) then CouponDiscount(c, s) else 0
  }

  /** With the coupon attached, the larger of two orders is the cheaper one exactly when
      the minimum order value lies between them, the coupon qualifies there, and its
      discount on the larger order exceeds what that costs more. */
  lemma PayableDropsExactly(c: Coupon, a: nat, b: nat, now: int, isGuest: bool)
    requires a <= b
    ensures Payable(c, b, now, isGuest) < Payable(c, a, now, isGuest) <==>
            && a < c.minOrderValue <= b && Qualifies(c, c.minOrderValue, now, isGuest)
            && CouponDiscount(c, b) > b - a
  {
    DiscountIsMonotone(c, a, b);
  }

  /** Crossing the minimum can lower the amount to pay. */
  lemma PayableDropsAtMinimum()
    ensures exists c: Coupon, a: nat, b: nat :: a < b && Payable(c, b, 0, false) < Payable(c, a, 0, false)
  {
    var c := Coupon("TAKE500", FIXED, 500, None, 1000, CouponStatus.ACTIVE, true, None, 0, None, None);
    assert Payable(c, 999, 0, false) == 999 && Payable(c, 1000, 0, false) == 500;
  }
}
