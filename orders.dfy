/**
 * The pricing rules of `OrderService`: validation, line subtotals, shipping
 * by socio-economic stratum with a free-shipping threshold, the best of
 * three candidate discounts, and the clamped total.
 *
 * The service only reads its configuration, so it is a value and every
 * operation is a function of it. Amounts are reals; `Math.round` is
 * `Round` below.
 */
module Orders {
  import opened Wrappers

  // ------------------------------------------------------------------
  // Data (Api/src/types/index.ts)

  datatype Product = Product(id: string, name: string, price: real, quantity: real)

  /** `socioeconomicStratum` is optional; `deliveryAddress` plays no part in pricing. */
  datatype OrderRequest = OrderRequest(products: seq<Product>, socioeconomicStratum: Option<int>)

  datatype LineItem = LineItem(id: string, name: string, price: real, quantity: real, subtotal: real)

  datatype ShippingCost = ShippingCost(baseCost: int, stratumMultiplier: real, finalCost: int)

  /** The `type` of a discount: "volume", "total_amount" or "stratum". */
  datatype DiscountKind = Volume | TotalAmount | Stratum

  datatype Discount = Discount(percentage: int, amount: int, kind: DiscountKind)

  datatype OrderCalculation = OrderCalculation(
    subtotal: real,
    shipping: ShippingCost,
    discount: Option<Discount>,
    total: real,
    products: seq<LineItem>)

  /** The errors `validateOrderRequest` throws, in the order it checks them. */
  datatype OrderError =
    | EmptyProducts
    | StratumOutOfRange
    | MissingIdOrName
    | NegativePrice
    | NonPositiveQuantity

  // ------------------------------------------------------------------
  // Configuration (Api/src/config/environment.ts, defaults)

  /** A volume tier (`minQuantity`) or an amount tier (`minAmount`). */
  datatype Tier = Tier(minimum: int, percentage: int)

  datatype StratumTier = StratumTier(stratum: int, percentage: int)

  datatype DiscountConfig = DiscountConfig(
    volumeDiscounts: seq<Tier>,
    totalAmountDiscounts: seq<Tier>,
    stratumDiscounts: seq<StratumTier>)

  datatype ShippingConfig = ShippingConfig(baseCost: int, stratumMultipliers: map<int, real>)

  /**
   * The service's read-only state, plus the free-shipping threshold that
   * it reads from the environment configuration at each call.
   */
  datatype OrderService = OrderService(
    discountConfig: DiscountConfig,
    shippingConfig: ShippingConfig,
    freeShippingThreshold: int)

  const DefaultStratum: int := 4

  /** The configuration with no environment overrides. */
  const DefaultService: OrderService := OrderService(
    DiscountConfig(
      [Tier(10, 5), Tier(25, 10), Tier(50, 15), Tier(100, 20)],
      [Tier(100000, 5), Tier(250000, 10), Tier(500000, 15), Tier(1000000, 20)],
      [StratumTier(1, 10), StratumTier(2, 8), StratumTier(3, 5)]),
    ShippingConfig(8000, map[1 := 0.5, 2 := 0.7, 3 := 0.8, 4 := 1.0, 5 := 1.2, 6 := 1.5]),
    200000)

  /**
   * A configuration under which the arithmetic stays sensible: costs and
   * multipliers are not negative and no discount exceeds half the order.
   */
  ghost predicate ValidConfig(svc: OrderService) {
    && svc.shippingConfig.baseCost >= 0
    && (forall s :: s in svc.shippingConfig.stratumMultipliers ==> svc.shippingConfig.stratumMultipliers[s] >= 0.0)
    && ValidDiscounts(svc.discountConfig)
  }

  /** Every configured discount percentage lies between 0 and 50. */
  ghost predicate ValidDiscounts(cfg: DiscountConfig) {
    && (forall t :: t in cfg.volumeDiscounts ==> 0 <= t.percentage <= 50)
    && (forall t :: t in cfg.totalAmountDiscounts ==> 0 <= t.percentage <= 50)
    && (forall t :: t in cfg.stratumDiscounts ==> 0 <= t.percentage <= 50)
  }

  lemma DefaultServiceIsValid()
    ensures ValidConfig(DefaultService)
  {
    var m := DefaultService.shippingConfig.stratumMultipliers;
    forall s | s in m ensures m[s] >= 0.0 {
      assert s in {1, 2, 3, 4, 5, 6};
    }
  }

  // ------------------------------------------------------------------
  // Rounding

  /** `Math.round`: the nearest integer, halves rounded up. */
  function Round(x: real): (r: int)
    ensures r as real - 0.5 <= x < r as real + 0.5
  {
    (x + 0.5).Floor
  }

  // ------------------------------------------------------------------
  // Validation (lines 56-82)

  /** The first failing check on one product, or none. */
  function ProductError(p: Product): Option<OrderError> {
    if p.id == "" || p.name == "" then Some(MissingIdOrName)
    else if p.price < 0.0 then Some(NegativePrice)
    else if p.quantity <= 0.0 then Some(NonPositiveQuantity)
    else None
  }

  /** The error of the first failing product, scanning in order. */
  function FirstProductError(ps: seq<Product>): Option<OrderError> {
    if ps == [] then None
    else if ProductError(ps[0]).Some? then ProductError(ps[0])
    else FirstProductError(ps[1..])
  }

  lemma {:induction false} FirstProductErrorIsFirst(ps: seq<Product>)
    ensures var r := FirstProductError(ps);
      && (r.None? <==> forall i :: 0 <= i < |ps| ==> ProductError(ps[i]).None?)
      && (r.Some? ==> exists i :: 0 <= i < |ps| && ProductError(ps[i]) == r
                                  && forall j :: 0 <= j < i ==> ProductError(ps[j]).None?)
  {
    if ps != [] && ProductError(ps[0]).None? {
      FirstProductErrorIsFirst(ps[1..]);
      assert forall i :: 1 <= i < |ps| ==> ps[i] == ps[1..][i - 1];
      var r := FirstProductError(ps);
      if r.Some? {
        var i :| 0 <= i < |ps[1..]| && ProductError(ps[1..][i]) == r
                 && forall j :: 0 <= j < i ==> ProductError(ps[1..][j]).None?;
        assert ProductError(ps[i + 1]) == r;
      }
    } else if ps != [] {
      assert ProductError(ps[0]) == FirstProductError(ps);
    }
  }

  /** A stratum is rejected when truthy (present and non-zero) and outside 1..6. */
  predicate StratumRejected(s: Option<int>) {
    s.Some? && s.value != 0 && (s.value < 1 || s.value > 6)
  }

  function ValidateOrderRequest(req: OrderRequest): Outcome<OrderError> {
    if |req.products| == 0 then Fail(EmptyProducts)
    else if StratumRejected(req.socioeconomicStratum) then Fail(StratumOutOfRange)
    else match FirstProductError(req.products)
      case Some(e) => Fail(e)
      case None => Pass
  }

  /** A request passes exactly when it has products, an acceptable stratum and only valid products. */
  lemma ValidationPasses(req: OrderRequest)
    ensures ValidateOrderRequest(req).Pass? <==>
      && |req.products| > 0
      && !StratumRejected(req.socioeconomicStratum)
      && forall i :: 0 <= i < |req.products| ==> ProductError(req.products[i]).None?
  {
    FirstProductErrorIsFirst(req.products);
  }

  /**
   * Which error is reported: the empty list before the stratum, the stratum
   * before any product, and otherwise the first failing product's first
   * failing check.
   */
  lemma ValidationOrder(req: OrderRequest)
    ensures |req.products| == 0 ==> ValidateOrderRequest(req) == Fail(EmptyProducts)
    ensures |req.products| > 0 && StratumRejected(req.socioeconomicStratum) ==>
      ValidateOrderRequest(req) == Fail(StratumOutOfRange)
    ensures ValidateOrderRequest(req).Fail? && ValidateOrderRequest(req).error != EmptyProducts
            && ValidateOrderRequest(req).error != StratumOutOfRange ==>
      exists i :: 0 <= i < |req.products| && ProductError(req.products[i]) == Some(ValidateOrderRequest(req).error)
        && forall j :: 0 <= j < i ==> ProductError(req.products[j]).None?
  {
    FirstProductErrorIsFirst(req.products);
  }

  /** A zero stratum is falsy: it is never rejected, whatever else holds. */
  lemma StratumZeroIsAccepted(products: seq<Product>)
    ensures ValidateOrderRequest(OrderRequest(products, Some(0))) == ValidateOrderRequest(OrderRequest(products, None))
  {
  }

  // ------------------------------------------------------------------
  // Subtotals (lines 28-32, 84-91)

  function CalculateProductSubtotals(products: seq<Product>): (r: seq<LineItem>)
    ensures |r| == |products|
    ensures forall i :: 0 <= i < |r| ==>
      && r[i].id == products[i].id && r[i].name == products[i].name
      && r[i].price == products[i].price && r[i].quantity == products[i].quantity
      && r[i].subtotal == products[i].price * products[i].quantity
  {
    seq(|products|, i requires 0 <= i < |products| =>
      var p := products[i];
      LineItem(p.id, p.name, p.price, p.quantity, p.price * p.quantity))
  }

  /** The `reduce` summing line subtotals. */
  function SumSubtotals(items: seq<LineItem>): real {
    if items == [] then 0.0 else SumSubtotals(items[..|items| - 1]) + items[|items| - 1].subtotal
  }

  /** The `reduce` summing quantities. */
  function TotalQuantity(products: seq<Product>): real {
    if products == [] then 0.0 else TotalQuantity(products[..|products| - 1]) + products[|products| - 1].quantity
  }

  /** Valid products give a non-negative order subtotal. */
  lemma {:induction false} SubtotalNonNegative(products: seq<Product>)
    requires forall i :: 0 <= i < |products| ==> ProductError(products[i]).None?
    ensures SumSubtotals(CalculateProductSubtotals(products)) >= 0.0
  {
    if products != [] {
      var n := |products| - 1;
      var items := CalculateProductSubtotals(products);
      var prev := CalculateProductSubtotals(products[..n]);
      forall i | 0 <= i < n ensures items[..n][i] == prev[i] {
        assert products[..n][i] == products[i];
      }
      assert items[..n] == prev;
      SubtotalNonNegative(products[..n]);
      var p := products[n];
      assert ProductError(p).None?;
      assert p.price >= 0.0 && p.quantity > 0.0;
      assert p.price * p.quantity >= 0.0;
    }
  }

  // ------------------------------------------------------------------
  // Shipping (lines 94-118)

  /** `stratumMultipliers[stratum] ?? 1.0`. */
  function Multiplier(cfg: ShippingConfig, stratum: int): (m: real)
    ensures stratum in cfg.stratumMultipliers ==> m == cfg.stratumMultipliers[stratum]
    ensures stratum !in cfg.stratumMultipliers ==> m == 1.0
  {
    if stratum in cfg.stratumMultipliers then cfg.stratumMultipliers[stratum] else 1.0
  }

  /** With non-negative configured multipliers the multiplier is never negative. */
  lemma MultiplierNonNegative(cfg: ShippingConfig, stratum: int)
    requires forall s :: s in cfg.stratumMultipliers ==> cfg.stratumMultipliers[s] >= 0.0
    ensures Multiplier(cfg, stratum) >= 0.0
  {
  }

  function CalculateShippingCost(svc: OrderService, stratum: int, subtotal: real): (r: ShippingCost)
    ensures r.baseCost == svc.shippingConfig.baseCost
    ensures r.stratumMultiplier == Multiplier(svc.shippingConfig, stratum)
    ensures subtotal >= svc.freeShippingThreshold as real ==> r.finalCost == 0
    ensures subtotal < svc.freeShippingThreshold as real ==>
      r.finalCost as real - 0.5 <= r.baseCost as real * r.stratumMultiplier < r.finalCost as real + 0.5
  {
    var multiplier := Multiplier(svc.shippingConfig, stratum);
    var baseCost := svc.shippingConfig.baseCost;
    if subtotal >= svc.freeShippingThreshold as real then ShippingCost(baseCost, multiplier, 0)
    else ShippingCost(baseCost, multiplier, Round(baseCost as real * multiplier))
  }

  /** Under a valid configuration shipping never costs less than nothing. */
  lemma ShippingNonNegative(svc: OrderService, stratum: int, subtotal: real)
    requires ValidConfig(svc)
    ensures CalculateShippingCost(svc, stratum, subtotal).finalCost >= 0
  {
    MultiplierNonNegative(svc.shippingConfig, stratum);
    var m := Multiplier(svc.shippingConfig, stratum);
    assert svc.shippingConfig.baseCost as real * m >= 0.0;
  }

  // ------------------------------------------------------------------
  // Candidate discounts (lines 164-210)

  /** Percentages of the tiers whose minimum `x` reaches (the `filter`). */
  function Reached(tiers: seq<Tier>, x: real): seq<int> {
    if tiers == [] then []
    else if x >= tiers[0].minimum as real then [tiers[0].percentage] + Reached(tiers[1..], x)
    else Reached(tiers[1..], x)
  }

  lemma {:induction false} ReachedPercentages(tiers: seq<Tier>, x: real)
    ensures forall p :: p in Reached(tiers, x) <==> exists t :: t in tiers && x >= t.minimum as real && p == t.percentage
  {
    if tiers != [] {
      ReachedPercentages(tiers[1..], x);
      assert forall t :: t in tiers <==> t == tiers[0] || t in tiers[1..];
    }
  }

  /** The largest element: the head after sorting by descending percentage. */
  function Max(s: seq<int>): int
    requires |s| > 0
  {
    if |s| == 1 then s[0]
    else
      var rest := Max(s[1..]);
      if s[0] >= rest then s[0] else rest
  }

  lemma {:induction false} MaxIsLargest(s: seq<int>)
    requires |s| > 0
    ensures Max(s) in s
    ensures forall x :: x in s ==> x <= Max(s)
  {
    if |s| > 1 {
      MaxIsLargest(s[1..]);
      assert forall x :: x in s ==> x == s[0] || x in s[1..];
    }
  }

  /**
   * `getVolumeDiscount` and `getTotalAmountDiscount`: the highest
   * percentage among the tiers reached, or none when none is.
   */
  function BestTier(tiers: seq<Tier>, x: real, kind: DiscountKind): Option<Discount> {
    var reached := Reached(tiers, x);
    if |reached| == 0 then None else Some(Discount(Max(reached), 0, kind))
  }

  lemma BestTierIsHighestReached(tiers: seq<Tier>, x: real, kind: DiscountKind)
    ensures var r := BestTier(tiers, x, kind);
      && (r.None? <==> forall t :: t in tiers ==> x < t.minimum as real)
      && (r.Some? ==> r.value.kind == kind && r.value.amount == 0)
      && (r.Some? ==> exists t :: t in tiers && x >= t.minimum as real && t.percentage == r.value.percentage)
      && (r.Some? ==> forall t :: t in tiers && x >= t.minimum as real ==> t.percentage <= r.value.percentage)
  {
    var reached := Reached(tiers, x);
    ReachedPercentages(tiers, x);
    if |reached| == 0 {
      forall t | t in tiers ensures x < t.minimum as real {
        assert t.percentage !in reached;
      }
    } else {
      assert reached[0] in reached;
      MaxIsLargest(reached);
      var m := Max(reached);
      forall t | t in tiers && x >= t.minimum as real ensures t.percentage <= m {
        assert t.percentage in reached;
      }
    }
  }

  function GetVolumeDiscount(cfg: DiscountConfig, totalQuantity: real): Option<Discount> {
    BestTier(cfg.volumeDiscounts, totalQuantity, Volume)
  }

  function GetTotalAmountDiscount(cfg: DiscountConfig, subtotal: real): Option<Discount> {
    BestTier(cfg.totalAmountDiscounts, subtotal, TotalAmount)
  }

  /** `getStratumDiscount`: the first tier (`find`) for exactly this stratum. */
  function GetStratumDiscount(cfg: DiscountConfig, stratum: int): Option<Discount> {
    match FindStratum(cfg.stratumDiscounts, stratum)
    case None => None
    case Some(tier) => Some(Discount(tier.percentage, 0, Stratum))
  }

  lemma GetStratumDiscountIsFirst(cfg: DiscountConfig, stratum: int)
    ensures var r := GetStratumDiscount(cfg, stratum);
      && (r.None? <==> forall i :: 0 <= i < |cfg.stratumDiscounts| ==> cfg.stratumDiscounts[i].stratum != stratum)
      && (r.Some? ==> r.value.kind == Stratum && r.value.amount == 0)
      && (r.Some? ==> exists i :: (0 <= i < |cfg.stratumDiscounts|
        && cfg.stratumDiscounts[i].stratum == stratum && cfg.stratumDiscounts[i].percentage == r.value.percentage
        && forall j :: 0 <= j < i ==> cfg.stratumDiscounts[j].stratum != stratum))
  {
    FindStratumIsFirst(cfg.stratumDiscounts, stratum);
  }

  /** `Array.prototype.find`: the first tier for exactly this stratum. */
  function FindStratum(tiers: seq<StratumTier>, stratum: int): Option<StratumTier> {
    if tiers == [] then None
    else if tiers[0].stratum == stratum then Some(tiers[0])
    else FindStratum(tiers[1..], stratum)
  }

  lemma {:induction false} FindStratumIsFirst(tiers: seq<StratumTier>, stratum: int)
    ensures var r := FindStratum(tiers, stratum);
      && (r.None? <==> forall i :: 0 <= i < |tiers| ==> tiers[i].stratum != stratum)
      && (r.Some? ==> exists i :: (0 <= i < |tiers| && tiers[i] == r.value && tiers[i].stratum == stratum
        && forall j :: 0 <= j < i ==> tiers[j].stratum != stratum))
  {
    if tiers != [] && tiers[0].stratum != stratum {
      FindStratumIsFirst(tiers[1..], stratum);
      assert forall i :: 1 <= i < |tiers| ==> tiers[i] == tiers[1..][i - 1];
      var r := FindStratum(tiers, stratum);
      if r.Some? {
        var i :| 0 <= i < |tiers[1..]| && tiers[1..][i] == r.value && tiers[1..][i].stratum == stratum
          && forall j :: 0 <= j < i ==> tiers[1..][j].stratum != stratum;
        assert tiers[i + 1] == r.value;
        assert forall j :: 1 <= j < i + 1 ==> tiers[j].stratum != stratum;
      }
    } else if tiers != [] {
      assert tiers[0] == FindStratum(tiers, stratum).value;
    }
  }

  // ------------------------------------------------------------------
  // The best discount (lines 120-162)

  function AsSeq<T>(o: Option<T>): seq<T> {
    if o.Some? then [o.value] else []
  }

  /** The candidates in the order they are pushed: volume, total amount, stratum. */
  function Candidates(cfg: DiscountConfig, products: seq<Product>, subtotal: real, stratum: int): seq<Discount> {
    AsSeq(GetVolumeDiscount(cfg, TotalQuantity(products)))
      + AsSeq(GetTotalAmountDiscount(cfg, subtotal))
      + AsSeq(GetStratumDiscount(cfg, stratum))
  }

  /** The `reduce` keeping the current candidate only when strictly better. */
  function KeepBest(best: Discount, rest: seq<Discount>): Discount
    decreases |rest|
  {
    if rest == [] then best
    else KeepBest(if rest[0].percentage > best.percentage then rest[0] else best, rest[1..])
  }

  /** `r` has the highest percentage in `s` and is the earliest that has it. */
  ghost predicate IsFirstMaximum(s: seq<Discount>, r: Discount) {
    && (forall x :: x in s ==> x.percentage <= r.percentage)
    && exists i :: 0 <= i < |s| && s[i] == r && forall j :: 0 <= j < i ==> s[j].percentage < r.percentage
  }

  lemma {:induction false} KeepBestIsFirstMaximum(best: Discount, rest: seq<Discount>)
    ensures IsFirstMaximum([best] + rest, KeepBest(best, rest))
    decreases |rest|
  {
    var r := KeepBest(best, rest);
    if rest == [] {
      assert ([best] + rest)[0] == r;
    } else {
      var b' := if rest[0].percentage > best.percentage then rest[0] else best;
      KeepBestIsFirstMaximum(b', rest[1..]);
      var s, s' := [best] + rest, [b'] + rest[1..];
      var i' :| 0 <= i' < |s'| && s'[i'] == r && forall j :: 0 <= j < i' ==> s'[j].percentage < r.percentage;
      assert b' in s';
      forall x | x in s ensures x.percentage <= r.percentage {
        if x != best && x != rest[0] {
          assert x in rest[1..];
        }
      }
      if i' == 0 {
        if b' == best {
          assert s[0] == r;
        } else {
          assert s[1] == r;
        }
      } else {
        assert s[i' + 1] == r;
        forall j | 0 <= j < i' + 1 ensures s[j].percentage < r.percentage {
          if j >= 2 {
            assert s[j] == s'[j - 1];
          }
        }
      }
    }
  }

  /** `percentage` percent of `subtotal`, rounded. */
  function Portion(subtotal: real, percentage: int): int {
    Round(subtotal * percentage as real / 100.0)
  }

  /** `d` is the first best of `cands`, priced at its percentage of `subtotal`. */
  ghost predicate ChosenFrom(cands: seq<Discount>, d: Discount, subtotal: real) {
    exists c :: c in cands && IsFirstMaximum(cands, c) && d == c.(amount := Portion(subtotal, c.percentage))
  }

  lemma BestIsChosen(discounts: seq<Discount>, subtotal: real)
    requires discounts != []
    ensures var best := KeepBest(discounts[0], discounts[1..]);
      ChosenFrom(discounts, best.(amount := Portion(subtotal, best.percentage)), subtotal)
  {
    var best := KeepBest(discounts[0], discounts[1..]);
    KeepBestIsFirstMaximum(discounts[0], discounts[1..]);
    assert [discounts[0]] + discounts[1..] == discounts;
    assert best in discounts && IsFirstMaximum(discounts, best);
    var d := best.(amount := Portion(subtotal, best.percentage));
    assert best in discounts && IsFirstMaximum(discounts, best) && d == best.(amount := Portion(subtotal, best.percentage));
  }

  /**
   * `calculateDiscount`: none when no candidate exists; otherwise the
   * earliest candidate with the highest percentage, its amount that
   * percentage of the subtotal, rounded.
   */
  function CalculateDiscount(cfg: DiscountConfig, products: seq<Product>, subtotal: real, stratum: int): Option<Discount> {
    var discounts := Candidates(cfg, products, subtotal, stratum);
    if discounts == [] then None
    else
      var best := KeepBest(discounts[0], discounts[1..]);
      Some(best.(amount := Portion(subtotal, best.percentage)))
  }

  lemma CalculateDiscountIsFirstBest(cfg: DiscountConfig, products: seq<Product>, subtotal: real, stratum: int)
    ensures var r := CalculateDiscount(cfg, products, subtotal, stratum);
      && (r.None? <==> Candidates(cfg, products, subtotal, stratum) == [])
      && (r.Some? ==> ChosenFrom(Candidates(cfg, products, subtotal, stratum), r.value, subtotal))
  {
    var discounts := Candidates(cfg, products, subtotal, stratum);
    if discounts != [] {
      BestIsChosen(discounts, subtotal);
    }
  }

  // ------------------------------------------------------------------
  // The order (lines 25-54)

  function StratumOrDefault(s: Option<int>): int {
    if s.Some? then s.value else DefaultStratum
  }

  /** `discount?.amount ?? 0`. */
  function DiscountAmount(d: Option<Discount>): int {
    if d.Some? then d.value.amount else 0
  }

  /** `Math.max(0, total)`. */
  function Clamp(total: real): (r: real)
    ensures r >= 0.0 && r >= total
    ensures r == total || r == 0.0
  {
    if total < 0.0 then 0.0 else total
  }

  function CalculateOrder(svc: OrderService, req: OrderRequest): (r: Result<OrderCalculation, OrderError>)
    ensures r.Failure? <==> ValidateOrderRequest(req).Fail?
    ensures r.Failure? ==> r.error == ValidateOrderRequest(req).error
    ensures r.Success? ==> r.value.total >= 0.0
    ensures r.Success? ==> |r.value.products| == |req.products|
  {
    match ValidateOrderRequest(req)
    case Fail(e) => Failure(e)
    case Pass =>
      var products := CalculateProductSubtotals(req.products);
      var subtotal := SumSubtotals(products);
      var stratum := StratumOrDefault(req.socioeconomicStratum);
      var shipping := CalculateShippingCost(svc, stratum, subtotal);
      var discount := CalculateDiscount(svc.discountConfig, req.products, subtotal, stratum);
      var total := subtotal + shipping.finalCost as real - DiscountAmount(discount) as real;
      Success(OrderCalculation(subtotal, shipping, discount, Clamp(total), products))
  }

  /** A discount of at most half the subtotal never rounds above the subtotal. */
  lemma DiscountWithinSubtotal(subtotal: real, percentage: int)
    requires subtotal >= 0.0 && 0 <= percentage <= 50
    ensures 0 <= Portion(subtotal, percentage) <= subtotal.Floor
  {
    var y := subtotal * percentage as real / 100.0;
    assert 0.0 <= y by {
      assert subtotal * percentage as real >= 0.0;
    }
    assert y <= subtotal / 2.0 by {
      assert subtotal * percentage as real <= subtotal * 50.0;
    }
    var r := Round(y);
    if r >= 1 {
      assert r as real <= y + 0.5 <= 2.0 * y <= subtotal;
    }
  }

  /** Under percentages of at most 50, the chosen discount lies between 0 and the subtotal. */
  lemma ChosenDiscountWithinSubtotal(cfg: DiscountConfig, products: seq<Product>, subtotal: real, stratum: int)
    requires ValidDiscounts(cfg) && subtotal >= 0.0
    ensures 0.0 <= DiscountAmount(CalculateDiscount(cfg, products, subtotal, stratum)) as real <= subtotal
  {
    var r := CalculateDiscount(cfg, products, subtotal, stratum);
    CalculateDiscountIsFirstBest(cfg, products, subtotal, stratum);
    if r.Some? {
      var cands := Candidates(cfg, products, subtotal, stratum);
      CandidatesAtMostHalf(cfg, products, subtotal, stratum);
      var d :| d in cands && IsFirstMaximum(cands, d) && r.value == d.(amount := Portion(subtotal, d.percentage));
      DiscountWithinSubtotal(subtotal, d.percentage);
    }
  }

  lemma CandidatesAtMostHalf(cfg: DiscountConfig, products: seq<Product>, subtotal: real, stratum: int)
    requires ValidDiscounts(cfg)
    ensures forall d :: d in Candidates(cfg, products, subtotal, stratum) ==> 0 <= d.percentage <= 50
  {
    BestTierIsHighestReached(cfg.volumeDiscounts, TotalQuantity(products), Volume);
    BestTierIsHighestReached(cfg.totalAmountDiscounts, subtotal, TotalAmount);
    GetStratumDiscountIsFirst(cfg, stratum);
  }

  /**
   * Under a valid configuration the clamp at zero never takes effect: the
   * total is the subtotal plus shipping minus the discount.
   */
  lemma ClampNeverBinds(svc: OrderService, req: OrderRequest)
    requires ValidConfig(svc)
    requires CalculateOrder(svc, req).Success?
    ensures var c := CalculateOrder(svc, req).value;
      c.total == c.subtotal + c.shipping.finalCost as real - DiscountAmount(c.discount) as real
  {
    OrderParts(svc, req);
    ValidationPasses(req);
    var subtotal := SumSubtotals(CalculateProductSubtotals(req.products));
    var stratum := StratumOrDefault(req.socioeconomicStratum);
    SubtotalNonNegative(req.products);
    ShippingNonNegative(svc, stratum, subtotal);
    ChosenDiscountWithinSubtotal(svc.discountConfig, req.products, subtotal, stratum);
  }

  /**
   * A zero stratum passes validation and stays zero after `?? 4`: it gets
   * the neutral multiplier and no stratum discount. An absent one is 4.
   */
  lemma StratumZeroPricing(products: seq<Product>, subtotal: real)
    ensures StratumOrDefault(Some(0)) == 0 && StratumOrDefault(None) == 4
    ensures CalculateShippingCost(DefaultService, 0, subtotal).stratumMultiplier == 1.0
    ensures GetStratumDiscount(DefaultService.discountConfig, 0) == None
    ensures GetStratumDiscount(DefaultService.discountConfig, 4) == None
  {
    assert 0 !in DefaultService.shippingConfig.stratumMultipliers;
  }

  // ------------------------------------------------------------------
  // The examples of Api/src/tests/OrderService.test.ts

  function Single(price: real, quantity: real): seq<Product> {
    [Product("1", "Producto 1", price, quantity)]
  }

  /** The result of a valid request, field by field. */
  lemma OrderParts(svc: OrderService, req: OrderRequest)
    requires ValidateOrderRequest(req).Pass?
    ensures var r := CalculateOrder(svc, req);
      var subtotal := SumSubtotals(CalculateProductSubtotals(req.products));
      var stratum := StratumOrDefault(req.socioeconomicStratum);
      && r.Success?
      && r.value.products == CalculateProductSubtotals(req.products)
      && r.value.subtotal == subtotal
      && r.value.shipping == CalculateShippingCost(svc, stratum, subtotal)
      && r.value.discount == CalculateDiscount(svc.discountConfig, req.products, subtotal, stratum)
      && r.value.total == Clamp(subtotal + r.value.shipping.finalCost as real - DiscountAmount(r.value.discount) as real)
  {
  }

  /** The discount once the candidates and the winner of the `reduce` are known. */
  lemma DiscountOf(cfg: DiscountConfig, ps: seq<Product>, subtotal: real, stratum: int, cands: seq<Discount>, best: Discount)
    requires Candidates(cfg, ps, subtotal, stratum) == cands && cands != [] && KeepBest(cands[0], cands[1..]) == best
    ensures CalculateDiscount(cfg, ps, subtotal, stratum) == Some(best.(amount := Portion(subtotal, best.percentage)))
  {
  }

  lemma SingleSubtotal(price: real, quantity: real)
    ensures SumSubtotals(CalculateProductSubtotals(Single(price, quantity))) == price * quantity
    ensures TotalQuantity(Single(price, quantity)) == quantity
  {
    assert CalculateProductSubtotals(Single(price, quantity))[..0] == [];
    assert Single(price, quantity)[..0] == [];
  }

  /** A valid one-product order, field by field. */
  lemma SingleOrder(svc: OrderService, price: real, quantity: real, stratum: Option<int>)
    requires price >= 0.0 && quantity > 0.0 && !StratumRejected(stratum)
    ensures var r := CalculateOrder(svc, OrderRequest(Single(price, quantity), stratum));
      var s := StratumOrDefault(stratum);
      && r.Success?
      && r.value.subtotal == price * quantity
      && r.value.shipping == CalculateShippingCost(svc, s, price * quantity)
      && r.value.discount == CalculateDiscount(svc.discountConfig, Single(price, quantity), price * quantity, s)
      && r.value.total == Clamp(price * quantity + r.value.shipping.finalCost as real - DiscountAmount(r.value.discount) as real)
  {
    assert Single(price, quantity)[1..] == [];
    assert FirstProductError(Single(price, quantity)) == None;
    SingleSubtotal(price, quantity);
    OrderParts(svc, OrderRequest(Single(price, quantity), stratum));
  }

  /** A valid one-product order, once its shipping and its discount are known. */
  lemma SingleOrderWith(svc: OrderService, price: real, quantity: real, stratum: Option<int>,
                        shipping: ShippingCost, discount: Option<Discount>)
    requires price >= 0.0 && quantity > 0.0 && !StratumRejected(stratum)
    requires CalculateShippingCost(svc, StratumOrDefault(stratum), price * quantity) == shipping
    requires CalculateDiscount(svc.discountConfig, Single(price, quantity), price * quantity, StratumOrDefault(stratum)) == discount
    ensures var r := CalculateOrder(svc, OrderRequest(Single(price, quantity), stratum));
      && r.Success?
      && r.value.subtotal == price * quantity
      && r.value.shipping == shipping
      && r.value.discount == discount
      && r.value.total == Clamp(price * quantity + shipping.finalCost as real - DiscountAmount(discount) as real)
  {
    SingleOrder(svc, price, quantity, stratum);
  }

  /** The default volume tiers as a step function of the quantity. */
  lemma DefaultVolumeTiers(quantity: real)
    ensures GetVolumeDiscount(DefaultService.discountConfig, quantity) ==
      if quantity < 10.0 then None
      else if quantity < 25.0 then Some(Discount(5, 0, Volume))
      else if quantity < 50.0 then Some(Discount(10, 0, Volume))
      else if quantity < 100.0 then Some(Discount(15, 0, Volume))
      else Some(Discount(20, 0, Volume))
  {
    var tiers := DefaultService.discountConfig.volumeDiscounts;
    TiersByRange(tiers, quantity);
  }

  /** The default total-amount tiers as a step function of the subtotal. */
  lemma DefaultAmountTiers(subtotal: real)
    ensures GetTotalAmountDiscount(DefaultService.discountConfig, subtotal) ==
      if subtotal < 100000.0 then None
      else if subtotal < 250000.0 then Some(Discount(5, 0, TotalAmount))
      else if subtotal < 500000.0 then Some(Discount(10, 0, TotalAmount))
      else if subtotal < 1000000.0 then Some(Discount(15, 0, TotalAmount))
      else Some(Discount(20, 0, TotalAmount))
  {
    var tiers := DefaultService.discountConfig.totalAmountDiscounts;
    TiersByRange(tiers, subtotal);
  }

  /** Four tiers of increasing minimum and percentage: the best reached one, by range. */
  lemma TiersByRange(tiers: seq<Tier>, x: real)
    requires |tiers| == 4
    requires tiers[0].minimum < tiers[1].minimum < tiers[2].minimum < tiers[3].minimum
    requires tiers[0].percentage < tiers[1].percentage < tiers[2].percentage < tiers[3].percentage
    ensures Reached(tiers, x) == [] <==> x < tiers[0].minimum as real
    ensures x >= tiers[0].minimum as real ==>
      Max(Reached(tiers, x)) == (
      if x < tiers[1].minimum as real then tiers[0].percentage
      else if x < tiers[2].minimum as real then tiers[1].percentage
      else if x < tiers[3].minimum as real then tiers[2].percentage
      else tiers[3].percentage)
  {
    ReachedOfFour(tiers, x);
    if x >= tiers[0].minimum as real {
      var r := Reached(tiers, x);
      MaxIsLargest(r);
      assert r[|r| - 1] in r;
    }
  }

  /** Over four tiers the filter keeps, in order, the percentage of each tier reached. */
  lemma ReachedOfFour(tiers: seq<Tier>, x: real)
    requires |tiers| == 4
    ensures Reached(tiers, x) ==
      (if x >= tiers[0].minimum as real then [tiers[0].percentage] else [])
      + (if x >= tiers[1].minimum as real then [tiers[1].percentage] else [])
      + (if x >= tiers[2].minimum as real then [tiers[2].percentage] else [])
      + (if x >= tiers[3].minimum as real then [tiers[3].percentage] else [])
  {
    var t1, t2, t3 := tiers[1..], tiers[2..], tiers[3..];
    assert t1[1..] == t2 && t2[1..] == t3 && t3[1..] == [];
    assert Reached(t3, x) == (if x >= tiers[3].minimum as real then [tiers[3].percentage] else []);
    assert Reached(t2, x) == (if x >= tiers[2].minimum as real then [tiers[2].percentage] else []) + Reached(t3, x);
    assert Reached(t1, x) == (if x >= tiers[1].minimum as real then [tiers[1].percentage] else []) + Reached(t2, x);
  }

  /** The default stratum discounts: 10%, 8% and 5% for strata 1 to 3, none otherwise. */
  lemma DefaultStratumTiers(stratum: int)
    ensures GetStratumDiscount(DefaultService.discountConfig, stratum) ==
      if stratum == 1 then Some(Discount(10, 0, Stratum))
      else if stratum == 2 then Some(Discount(8, 0, Stratum))
      else if stratum == 3 then Some(Discount(5, 0, Stratum))
      else None
  {
    var tiers := DefaultService.discountConfig.stratumDiscounts;
    var t1, t2, t3 := tiers[1..], tiers[2..], tiers[3..];
    assert t1[1..] == t2 && t2[1..] == t3 && t3 == [];
    assert FindStratum(t2, stratum) == if stratum == 3 then Some(t2[0]) else None;
    assert FindStratum(t1, stratum) == if stratum == 2 then Some(t1[0]) else if stratum == 3 then Some(t2[0]) else None;
  }

  /** One product at `price` in `stratum`: the candidates under the default tiers. */
  lemma SingleCandidates(price: real, quantity: real, stratum: int, cands: seq<Discount>)
    requires cands == AsSeq(GetVolumeDiscount(DefaultService.discountConfig, quantity))
      + AsSeq(GetTotalAmountDiscount(DefaultService.discountConfig, price * quantity))
      + AsSeq(GetStratumDiscount(DefaultService.discountConfig, stratum))
    ensures Candidates(DefaultService.discountConfig, Single(price, quantity), price * quantity, stratum) == cands
  {
    SingleSubtotal(price, quantity);
  }

  lemma ExampleSubtotal()
    ensures var r := CalculateOrder(DefaultService, OrderRequest(
        [Product("1", "Producto 1", 10000.0, 2.0), Product("2", "Producto 2", 15000.0, 1.0)], None));
      r.Success? && r.value.subtotal == 35000.0 && |r.value.products| == 2
      && r.value.products[0].subtotal == 20000.0 && r.value.products[1].subtotal == 15000.0
  {
    var ps := [Product("1", "Producto 1", 10000.0, 2.0), Product("2", "Producto 2", 15000.0, 1.0)];
    var items := CalculateProductSubtotals(ps);
    assert items[..1][..0] == [];
    assert items[..1] == [items[0]];
    assert SumSubtotals(items[..1]) == 20000.0;
    assert SumSubtotals(items) == 35000.0;
    assert ps[1..][1..] == [];
    OrderParts(DefaultService, OrderRequest(ps, None));
  }

  /** Above the threshold shipping is free but the base cost is still reported. */
  lemma ExampleFreeShipping()
    ensures var r := CalculateOrder(DefaultService, OrderRequest(Single(250000.0, 1.0), None));
      r.Success? && r.value.shipping.finalCost == 0 && r.value.shipping.baseCost == 8000
  {
    SingleOrder(DefaultService, 250000.0, 1.0, None);
  }

  lemma ExampleShippingStratum1()
    ensures var r := CalculateOrder(DefaultService, OrderRequest(Single(50000.0, 1.0), Some(1)));
      r.Success? && r.value.shipping.stratumMultiplier == 0.5 && r.value.shipping.finalCost == 4000
  {
    SingleOrder(DefaultService, 50000.0, 1.0, Some(1));
  }

  lemma ExampleShippingStratum6()
    ensures var r := CalculateOrder(DefaultService, OrderRequest(Single(50000.0, 1.0), Some(6)));
      r.Success? && r.value.shipping.stratumMultiplier == 1.5 && r.value.shipping.finalCost == 12000
  {
    SingleOrder(DefaultService, 50000.0, 1.0, Some(6));
  }

  /** With no stratum the multiplier of stratum 4 applies. */
  lemma ExampleShippingDefaultStratum()
    ensures var r := CalculateOrder(DefaultService, OrderRequest(Single(50000.0, 1.0), None));
      r.Success? && r.value.shipping.stratumMultiplier == 1.0 && r.value.shipping.finalCost == 8000
  {
    SingleOrder(DefaultService, 50000.0, 1.0, None);
  }

  /** A 5% volume tier and a 5% amount tier with no stratum discount: the volume one, pushed first, wins. */
  lemma VolumeWinsTie(price: real, quantity: real)
    requires 10.0 <= quantity < 25.0 && 100000.0 <= price * quantity < 250000.0
    ensures CalculateDiscount(DefaultService.discountConfig, Single(price, quantity), price * quantity, 4)
         == Some(Discount(5, Portion(price * quantity, 5), Volume))
  {
    var subtotal := price * quantity;
    var cands := [Discount(5, 0, Volume), Discount(5, 0, TotalAmount)];
    assert Candidates(DefaultService.discountConfig, Single(price, quantity), subtotal, 4) == cands by {
      DefaultVolumeTiers(quantity);
      DefaultAmountTiers(subtotal);
      DefaultStratumTiers(4);
      SingleCandidates(price, quantity, 4, cands);
    }
    DiscountOf(DefaultService.discountConfig, Single(price, quantity), subtotal, 4, cands, Discount(5, 0, Volume));
  }

  /** Only the 5% amount tier is reached. */
  lemma AmountTierOnly(price: real, quantity: real)
    requires quantity < 10.0 && 100000.0 <= price * quantity < 250000.0
    ensures CalculateDiscount(DefaultService.discountConfig, Single(price, quantity), price * quantity, 4)
         == Some(Discount(5, Portion(price * quantity, 5), TotalAmount))
  {
    var subtotal := price * quantity;
    var cands := [Discount(5, 0, TotalAmount)];
    assert Candidates(DefaultService.discountConfig, Single(price, quantity), subtotal, 4) == cands by {
      DefaultVolumeTiers(quantity);
      DefaultAmountTiers(subtotal);
      DefaultStratumTiers(4);
      SingleCandidates(price, quantity, 4, cands);
    }
    DiscountOf(DefaultService.discountConfig, Single(price, quantity), subtotal, 4, cands, Discount(5, 0, TotalAmount));
  }

  /** No tier is reached: stratum 1 alone gives its 10%. */
  lemma StratumOnly(price: real, quantity: real)
    requires quantity < 10.0 && price * quantity < 100000.0
    ensures CalculateDiscount(DefaultService.discountConfig, Single(price, quantity), price * quantity, 1)
         == Some(Discount(10, Portion(price * quantity, 10), Stratum))
  {
    var subtotal := price * quantity;
    var cands := [Discount(10, 0, Stratum)];
    assert Candidates(DefaultService.discountConfig, Single(price, quantity), subtotal, 1) == cands by {
      DefaultVolumeTiers(quantity);
      DefaultAmountTiers(subtotal);
      DefaultStratumTiers(1);
      SingleCandidates(price, quantity, 1, cands);
    }
    DiscountOf(DefaultService.discountConfig, Single(price, quantity), subtotal, 1, cands, Discount(10, 0, Stratum));
  }

  /** No tier is reached and stratum 4 has no discount: there is none. */
  lemma NoCandidate(price: real, quantity: real)
    requires quantity < 10.0 && price * quantity < 100000.0
    ensures CalculateDiscount(DefaultService.discountConfig, Single(price, quantity), price * quantity, 4)
         == None
  {
    var subtotal := price * quantity;
    var cands := [];
    assert Candidates(DefaultService.discountConfig, Single(price, quantity), subtotal, 4) == cands by {
      DefaultVolumeTiers(quantity);
      DefaultAmountTiers(subtotal);
      DefaultStratumTiers(4);
      SingleCandidates(price, quantity, 4, cands);
    }
  }

  /** The 10% of stratum 1 beats the 5% amount tier. */
  lemma StratumBeatsAmount(price: real, quantity: real)
    requires quantity < 10.0 && 100000.0 <= price * quantity < 250000.0
    ensures CalculateDiscount(DefaultService.discountConfig, Single(price, quantity), price * quantity, 1)
         == Some(Discount(10, Portion(price * quantity, 10), Stratum))
  {
    var subtotal := price * quantity;
    var cands := [Discount(5, 0, TotalAmount), Discount(10, 0, Stratum)];
    assert Candidates(DefaultService.discountConfig, Single(price, quantity), subtotal, 1) == cands by {
      DefaultVolumeTiers(quantity);
      DefaultAmountTiers(subtotal);
      DefaultStratumTiers(1);
      SingleCandidates(price, quantity, 1, cands);
    }
    DiscountOf(DefaultService.discountConfig, Single(price, quantity), subtotal, 1, cands, Discount(10, 0, Stratum));
  }

  /** The 20% amount tier beats a 10% volume tier and the 10% of stratum 1. */
  lemma AmountBeatsVolumeAndStratum(price: real, quantity: real)
    requires 25.0 <= quantity < 50.0 && 1000000.0 <= price * quantity
    ensures CalculateDiscount(DefaultService.discountConfig, Single(price, quantity), price * quantity, 1)
         == Some(Discount(20, Portion(price * quantity, 20), TotalAmount))
  {
    var subtotal := price * quantity;
    var cands := [Discount(10, 0, Volume), Discount(20, 0, TotalAmount), Discount(10, 0, Stratum)];
    assert Candidates(DefaultService.discountConfig, Single(price, quantity), subtotal, 1) == cands by {
      DefaultVolumeTiers(quantity);
      DefaultAmountTiers(subtotal);
      DefaultStratumTiers(1);
      SingleCandidates(price, quantity, 1, cands);
    }
    assert KeepBest(cands[0], cands[1..]) == Discount(20, 0, TotalAmount) by {
      assert cands[1..] == [Discount(20, 0, TotalAmount), Discount(10, 0, Stratum)];
      assert KeepBest(Discount(20, 0, TotalAmount), [Discount(10, 0, Stratum)]) == Discount(20, 0, TotalAmount);
    }
    DiscountOf(DefaultService.discountConfig, Single(price, quantity), subtotal, 1, cands, Discount(20, 0, TotalAmount));
  }

  /** Ten units at 10000 reach both a 5% volume and a 5% amount tier: the volume one wins the tie. */
  lemma ExampleVolumeDiscount()
    ensures var r := CalculateOrder(DefaultService, OrderRequest(Single(10000.0, 10.0), None));
      r.Success? && r.value.discount == Some(Discount(5, 5000, Volume))
  {
    VolumeWinsTie(10000.0, 10.0);
    assert Portion(10000.0 * 10.0, 5) == 5000;
    SingleOrderWith(DefaultService, 10000.0, 10.0, None, CalculateShippingCost(DefaultService, 4, 100000.0),
                    Some(Discount(5, Portion(10000.0 * 10.0, 5), Volume)));
  }

  lemma ExampleAmountDiscount()
    ensures var r := CalculateOrder(DefaultService, OrderRequest(Single(120000.0, 1.0), None));
      r.Success? && r.value.discount == Some(Discount(5, 6000, TotalAmount))
  {
    AmountTierOnly(120000.0, 1.0);
    assert Portion(120000.0 * 1.0, 5) == 6000;
    SingleOrderWith(DefaultService, 120000.0, 1.0, None, CalculateShippingCost(DefaultService, 4, 120000.0),
                    Some(Discount(5, Portion(120000.0 * 1.0, 5), TotalAmount)));
  }

  lemma ExampleStratumDiscount()
    ensures var r := CalculateOrder(DefaultService, OrderRequest(Single(50000.0, 1.0), Some(1)));
      r.Success? && r.value.discount == Some(Discount(10, 5000, Stratum))
  {
    StratumOnly(50000.0, 1.0);
    assert Portion(50000.0 * 1.0, 10) == 5000;
    SingleOrderWith(DefaultService, 50000.0, 1.0, Some(1), CalculateShippingCost(DefaultService, 1, 50000.0),
                    Some(Discount(10, Portion(50000.0 * 1.0, 10), Stratum)));
  }

  lemma ExampleNoDiscount()
    ensures var r := CalculateOrder(DefaultService, OrderRequest(Single(50000.0, 1.0), Some(4)));
      r.Success? && r.value.discount == None
  {
    NoCandidate(50000.0, 1.0);
    SingleOrderWith(DefaultService, 50000.0, 1.0, Some(4), CalculateShippingCost(DefaultService, 4, 50000.0), None);
  }

  /** 25 units at 100000 in stratum 1: the 20% amount tier beats the 10% ones. */
  lemma ExampleHighestDiscount()
    ensures var r := CalculateOrder(DefaultService, OrderRequest(Single(100000.0, 25.0), Some(1)));
      r.Success? && r.value.discount == Some(Discount(20, 500000, TotalAmount))
  {
    AmountBeatsVolumeAndStratum(100000.0, 25.0);
    assert Portion(100000.0 * 25.0, 20) == 500000;
    SingleOrderWith(DefaultService, 100000.0, 25.0, Some(1), CalculateShippingCost(DefaultService, 1, 2500000.0),
                    Some(Discount(20, Portion(100000.0 * 25.0, 20), TotalAmount)));
  }

  /** Subtotal 100000 in stratum 1: shipping 4000, discount 10000, total 94000. */
  lemma ExampleTotal()
    ensures var r := CalculateOrder(DefaultService, OrderRequest(Single(100000.0, 1.0), Some(1)));
      r.Success? && r.value.total == 94000.0
  {
    StratumBeatsAmount(100000.0, 1.0);
    assert Portion(100000.0 * 1.0, 10) == 10000;
    SingleOrderWith(DefaultService, 100000.0, 1.0, Some(1), ShippingCost(8000, 0.5, 4000),
                    Some(Discount(10, Portion(100000.0 * 1.0, 10), Stratum)));
  }

  /** Subtotal 1000 in stratum 1: 1000 + 4000 - 100. */
  lemma ExampleSmallTotal()
    ensures var r := CalculateOrder(DefaultService, OrderRequest(Single(1000.0, 1.0), Some(1)));
      r.Success? && r.value.total == 4900.0
  {
    StratumOnly(1000.0, 1.0);
    assert Portion(1000.0 * 1.0, 10) == 100;
    SingleOrderWith(DefaultService, 1000.0, 1.0, Some(1), ShippingCost(8000, 0.5, 4000),
                    Some(Discount(10, Portion(1000.0 * 1.0, 10), Stratum)));
  }

  lemma ExampleValidationErrors()
    ensures CalculateOrder(DefaultService, OrderRequest([], None)) == Failure(EmptyProducts)
    ensures CalculateOrder(DefaultService, OrderRequest(Single(10000.0, 1.0), Some(7))) == Failure(StratumOutOfRange)
    ensures CalculateOrder(DefaultService, OrderRequest(Single(-1000.0, 1.0), None)) == Failure(NegativePrice)
    ensures CalculateOrder(DefaultService, OrderRequest(Single(10000.0, 0.0), None)) == Failure(NonPositiveQuantity)
  {
    assert Single(-1000.0, 1.0)[1..] == [];
    assert Single(10000.0, 0.0)[1..] == [];
  }
}
