/**
 * The price calculation of the combined quotation tool (comb.py): a promotion
 * lowers the purchase cost, a tariff is added once, accessories are charged per
 * unit, and a fixed profit margin and insurance fee are laid on the total cost.
 *
 * All arithmetic is over Dafny's exact `real`; the source computes in IEEE-754
 * doubles, so the identities proved here hold of the exact values only.
 */
module Pricing {

  /** The fixed profit margin (30%). */
  const ProfitMargin: real := 0.30

  /** The fixed insurance (escrow) fee rate (3%). */
  const InsuranceFeeRate: real := 0.03

  /** The seven figures the calculation reports, in the order it reports them. */
  datatype PriceBreakdown = PriceBreakdown(
    discountedCostPrice: real,
    tariff: real,
    totalAccessoriesCost: real,
    totalCost: real,
    profit: real,
    insuranceFee: real,
    salePrice: real)

  /**
   * The step-by-step calculation. The contract says what the figures amount to:
   * the total cost in closed form (with the tariff counted once, not per unit)
   * and the sale price as a fixed 133% of the total cost.
   */
  function CalculatePrice(costPrice: real, promotionRate: real, tariffRate: real,
                          accessoriesCost: real, quantity: real): (r: PriceBreakdown)
    ensures r.discountedCostPrice == costPrice - costPrice * promotionRate
    ensures r.tariff == r.discountedCostPrice * tariffRate
    ensures r.totalAccessoriesCost == accessoriesCost * quantity
    ensures r.totalCost == r.discountedCostPrice * (quantity + tariffRate) + accessoriesCost * quantity
    ensures r.profit == 0.30 * r.totalCost
    ensures r.insuranceFee == 0.03 * r.totalCost
    ensures r.salePrice == 1.33 * r.totalCost
  {
    var discountedCostPrice := costPrice * (1.0 - promotionRate);
    var tariff := discountedCostPrice * tariffRate;
    var totalAccessoriesCost := accessoriesCost * quantity;
    var totalCostPrice := discountedCostPrice * quantity;
    var totalCost := totalCostPrice + tariff + totalAccessoriesCost;
    var profit := totalCost * ProfitMargin;
    var insuranceFee := totalCost * InsuranceFeeRate;
    var salePrice := totalCost + profit + insuranceFee;
    PriceBreakdown(discountedCostPrice, tariff, totalAccessoriesCost, totalCost,
                   profit, insuranceFee, salePrice)
  }

  /**
   * With non-negative cost, accessories and quantity and both rates in [0, 1],
   * every reported figure is non-negative.
   */
  lemma NonNegativeFigures(costPrice: real, promotionRate: real, tariffRate: real,
                           accessoriesCost: real, quantity: real)
    requires costPrice >= 0.0 && accessoriesCost >= 0.0 && quantity >= 0.0
    requires 0.0 <= promotionRate <= 1.0 && 0.0 <= tariffRate <= 1.0
    ensures var r := CalculatePrice(costPrice, promotionRate, tariffRate, accessoriesCost, quantity);
      && r.discountedCostPrice >= 0.0 && r.tariff >= 0.0 && r.totalAccessoriesCost >= 0.0
      && r.totalCost >= 0.0 && r.profit >= 0.0 && r.insuranceFee >= 0.0 && r.salePrice >= 0.0
  {
  }

  /**
   * The tariff is charged once, not per unit: it does not depend on the
   * quantity, and with a quantity of zero the total cost is the tariff alone
   * (not zero).
   */
  lemma TariffChargedOnce(costPrice: real, promotionRate: real, tariffRate: real,
                          accessoriesCost: real, quantity: real, otherQuantity: real)
    ensures CalculatePrice(costPrice, promotionRate, tariffRate, accessoriesCost, quantity).tariff
         == CalculatePrice(costPrice, promotionRate, tariffRate, accessoriesCost, otherQuantity).tariff
    ensures var r := CalculatePrice(costPrice, promotionRate, tariffRate, accessoriesCost, 0.0);
      r.totalCost == r.tariff && r.salePrice == 1.33 * r.tariff
  {
  }

  /** No promotion leaves the cost price as it is; a 100% promotion makes it zero. */
  lemma PromotionExtremes(costPrice: real, tariffRate: real, accessoriesCost: real, quantity: real)
    ensures CalculatePrice(costPrice, 0.0, tariffRate, accessoriesCost, quantity).discountedCostPrice == costPrice
    ensures CalculatePrice(costPrice, 1.0, tariffRate, accessoriesCost, quantity).discountedCostPrice == 0.0
  {
  }

  /** With a non-negative cost price, a larger promotion never raises the discounted cost. */
  lemma PromotionLowersCost(costPrice: real, promotionRate: real, largerRate: real,
                            tariffRate: real, accessoriesCost: real, quantity: real)
    requires costPrice >= 0.0 && promotionRate <= largerRate
    ensures CalculatePrice(costPrice, largerRate, tariffRate, accessoriesCost, quantity).discountedCostPrice
         <= CalculatePrice(costPrice, promotionRate, tariffRate, accessoriesCost, quantity).discountedCostPrice
  {
  }

  /** A worked example: cost 100, promotion 10%, tariff 5%, accessories 2, quantity 3. */
  lemma WorkedExample()
    ensures CalculatePrice(100.0, 0.1, 0.05, 2.0, 3.0)
         == PriceBreakdown(90.0, 4.5, 6.0, 280.5, 84.15, 8.415, 373.065)
  {
  }
}
