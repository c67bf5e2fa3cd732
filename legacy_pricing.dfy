/**
 * The older price calculation of the stand-alone calculator (quotool.py). It
 * differs from the one in module Pricing: the insurance fee, the promotion and
 * the tariff are all rates on the cost price and are ADDED to it, a combined
 * 30% markup gives the unit price in yuan, and a fixed exchange rate of 7.3
 * gives the unit price in dollars. The dollar total is reported only for a
 * positive quantity; otherwise the source shows the placeholder "-", modelled
 * as `None`.
 *
 * Exact `real` arithmetic; the source's `round(x, 4)` of each figure is not
 * modelled.
 */
module LegacyPricing {

  import opened Wrappers

  /** The fixed insurance fee rate (3%). */
  const InsuranceFeeRate: real := 0.03

  /** The fixed profit margin (30%), applied as a factor 1 + margin. */
  const ProfitMargin: real := 0.3

  /** Yuan per dollar. */
  const ExchangeRate: real := 7.3

  /** The four figures the calculator reports. */
  datatype LegacyQuote = LegacyQuote(
    totalCost: real,
    cnyUnitPrice: real,
    usdUnitPrice: real,
    usdTotalPrice: Option<real>)

  /**
   * The calculation. The contract gives the total cost in closed form, the
   * yuan price as 130% of it, the dollar price as its exact inverse under the
   * exchange rate, and says precisely when a dollar total is reported.
   */
  function CalculatePrice(costPrice: real, promotionRate: real, tariffRate: real,
                          accessoriesCost: real, quantity: real): (r: LegacyQuote)
    ensures r.totalCost == costPrice * (1.03 + promotionRate + tariffRate) + accessoriesCost
    ensures r.cnyUnitPrice == 1.3 * r.totalCost
    ensures r.usdUnitPrice * 7.3 == r.cnyUnitPrice
    ensures r.usdTotalPrice.Some? <==> quantity > 0.0
    ensures r.usdTotalPrice.Some? ==> r.usdTotalPrice.value == r.usdUnitPrice * quantity
  {
    var insuranceFee := costPrice * InsuranceFeeRate;
    var promotion := costPrice * promotionRate;
    var tariff := costPrice * tariffRate;
    var totalCost := costPrice + insuranceFee + promotion + tariff + accessoriesCost;
    var cnyUnitPrice := totalCost * (1.0 + ProfitMargin);
    var usdUnitPrice := cnyUnitPrice / ExchangeRate;
    var usdTotalPrice := if quantity > 0.0 then usdUnitPrice * quantity else 0.0;
    LegacyQuote(totalCost, cnyUnitPrice, usdUnitPrice,
                if quantity > 0.0 then Some(usdTotalPrice) else None)
  }

  /** The quantity affects only the dollar total, never the three unit figures. */
  lemma QuantityOnlyAffectsTotal(costPrice: real, promotionRate: real, tariffRate: real,
                                 accessoriesCost: real, quantity: real, otherQuantity: real)
    ensures var r := CalculatePrice(costPrice, promotionRate, tariffRate, accessoriesCost, quantity);
            var s := CalculatePrice(costPrice, promotionRate, tariffRate, accessoriesCost, otherQuantity);
      r.totalCost == s.totalCost && r.cnyUnitPrice == s.cnyUnitPrice && r.usdUnitPrice == s.usdUnitPrice
  {
  }

  /** With non-negative inputs every reported figure is non-negative. */
  lemma NonNegativeFigures(costPrice: real, promotionRate: real, tariffRate: real,
                           accessoriesCost: real, quantity: real)
    requires costPrice >= 0.0 && accessoriesCost >= 0.0
    requires promotionRate >= 0.0 && tariffRate >= 0.0
    ensures var r := CalculatePrice(costPrice, promotionRate, tariffRate, accessoriesCost, quantity);
      && r.totalCost >= 0.0 && r.cnyUnitPrice >= 0.0 && r.usdUnitPrice >= 0.0
      && (r.usdTotalPrice.Some? ==> r.usdTotalPrice.value >= 0.0)
  {
  }

  /**
   * Unlike the calculation in module Pricing, a larger promotion rate never
   * lowers the total cost here (for a non-negative cost price).
   */
  lemma PromotionRaisesCost(costPrice: real, promotionRate: real, largerRate: real,
                            tariffRate: real, accessoriesCost: real, quantity: real)
    requires costPrice >= 0.0 && promotionRate <= largerRate
    ensures CalculatePrice(costPrice, promotionRate, tariffRate, accessoriesCost, quantity).totalCost
         <= CalculatePrice(costPrice, largerRate, tariffRate, accessoriesCost, quantity).totalCost
  {
  }
}
