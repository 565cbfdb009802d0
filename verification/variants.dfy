/**
 The four programs run the same pipeline (select meals, ask dine-in, pick a
 tax by the flag, pick a discount, bill tax-first) and differ only in how the
 discount is picked. `Checkout` is that pipeline, parameterised by the
 discount rule; each program's own composition is written out as that
 program writes it and proved equal to the pipeline with its rule.
 */
module Variants {

  import opened Meals
  import opened Orders
  import opened Pricing

  /** How a program's `main` picks the discount strategy. */
  datatype DiscountRule =
    | PromoPrompt       // ask for a promo code; 'y' or 'Y' gives 10% off
    | AlwaysPercentage  // always 10% off
    | AlwaysNone        // never a discount

  function SelectDiscount(rule: DiscountRule, promo: char): DiscountStrategy {
    match rule
    case PromoPrompt => DiscountForPromo(promo)
    case AlwaysPercentage => PercentageDiscount
    case AlwaysNone => NoDiscount
  }

  /** The price of the meals an order ends up with, by the reference definition. */
  function OrderSubtotal(menu: seq<Meal>, choices: seq<int>): real {
    Subtotal(ChosenMeals(menu, ChoicesBeforeStop(choices)))
  }

  /**
   The shared pipeline. The total is the reference subtotal scaled by the
   chosen rates; with a menu of non-negative prices it lies between 90% and
   105% of that subtotal.
   */
  function Checkout(rule: DiscountRule, menu: seq<Meal>, choices: seq<int>, dineIn: bool, promo: char): (total: real)
    ensures total == OrderSubtotal(menu, choices)
      * (1.0 + TaxRate(TaxStrategyFor(dineIn))) * (1.0 - DiscountRate(SelectDiscount(rule, promo)))
    ensures PricesNonNegative(menu) ==>
      0.9 * OrderSubtotal(menu, choices) <= total <= 1.05 * OrderSubtotal(menu, choices)
  {
    SelectMealsMatchesChosen(menu, EmptyOrder, choices);
    assert PricesNonNegative(menu) ==> PlacedOrder(menu, choices, dineIn).totalPrice >= 0.0 by {
      if PricesNonNegative(menu) {
        PlacedOrderNonNegative(menu, choices, dineIn);
      }
    }
    CalculateTotal(PlacedOrder(menu, choices, dineIn), TaxStrategyFor(dineIn), SelectDiscount(rule, promo))
  }

  // ----- SRP.cpp: Billing::applyTax, then Discount::applyDiscount -----

  /** SRP `Billing::applyTax`: the tax strategy is picked inline from the order's flag. */
  function SrpApplyTax(order: Order): (r: real)
    ensures r == CalculateTax(TaxStrategyFor(order.dineIn), order.totalPrice)
    ensures order.totalPrice > 0.0 ==> (r > order.totalPrice <==> order.dineIn)
  {
    if order.dineIn then CalculateTax(DineInTax, order.totalPrice) else CalculateTax(NoTax, order.totalPrice)
  }

  /** SRP `Discount::applyDiscount`, with the promo answer given as input. */
  function SrpApplyDiscount(price: real, promo: char): (r: real)
    ensures r == ApplyDiscount(DiscountForPromo(promo), price)
    ensures price > 0.0 ==> (r < price <==> promo == 'y' || promo == 'Y')
  {
    if promo == 'y' || promo == 'Y' then price * 0.9 else price
  }

  /** SRP `main`: tax the placed order, then discount the taxed total. */
  function SrpCheckout(menu: seq<Meal>, choices: seq<int>, dineIn: bool, promo: char): (total: real)
    ensures total == OrderSubtotal(menu, choices)
      * (if dineIn then 1.05 else 1.0) * (if promo == 'y' || promo == 'Y' then 0.9 else 1.0)
  {
    SelectMealsMatchesChosen(menu, EmptyOrder, choices);
    SrpApplyDiscount(SrpApplyTax(PlacedOrder(menu, choices, dineIn)), promo)
  }

  lemma SrpMatchesPipeline(menu: seq<Meal>, choices: seq<int>, dineIn: bool, promo: char)
    ensures SrpCheckout(menu, choices, dineIn, promo) == Checkout(PromoPrompt, menu, choices, dineIn, promo)
  {
  }

  // ----- OCP.cpp: factory tax, promo-driven discount, Billing::calculateTotal -----

  /** OCP `main`: the discount is picked inline from the promo answer. */
  function OcpCheckout(menu: seq<Meal>, choices: seq<int>, dineIn: bool, promo: char): (total: real)
    ensures total == OrderSubtotal(menu, choices)
      * (if dineIn then 1.05 else 1.0) * (if promo == 'y' || promo == 'Y' then 0.9 else 1.0)
  {
    SelectMealsMatchesChosen(menu, EmptyOrder, choices);
    var order := PlacedOrder(menu, choices, dineIn);
    var discount := if promo == 'y' || promo == 'Y' then PercentageDiscount else NoDiscount;
    CalculateTotal(order, TaxStrategyFor(order.dineIn), discount)
  }

  lemma OcpMatchesPipeline(menu: seq<Meal>, choices: seq<int>, dineIn: bool, promo: char)
    ensures OcpCheckout(menu, choices, dineIn, promo) == Checkout(PromoPrompt, menu, choices, dineIn, promo)
  {
  }

  /** One Steak, dine-in, with a promo code: taxed to 42, billed at 37.8. */
  lemma OcpSteakScenario()
    ensures PlacedOrder(Menu, [10, 0], true).totalPrice == 40.0
    ensures CalculateTax(DineInTax, 40.0) == 42.0
    ensures OcpCheckout(Menu, [10, 0], true, 'y') == 37.8
  {
  }

  /** A subtotal of 100 (Steak, Steak, Pasta) under each tax and promo answer. */
  lemma OcpHundredScenarios()
    ensures OcpCheckout(Menu, [10, 10, 5, 0], true, 'n') == 105.0
    ensures OcpCheckout(Menu, [10, 10, 5, 0], false, 'y') == 90.0
    ensures OcpCheckout(Menu, [0], true, 'y') == 0.0
  {
  }

  // ----- ISP.cpp: factory tax, a PercentageDiscount always -----

  /** ISP `main`: the discount is always the percentage discount. */
  function IspCheckout(menu: seq<Meal>, choices: seq<int>, dineIn: bool): (total: real)
    ensures dineIn ==> total == 0.945 * OrderSubtotal(menu, choices)
    ensures !dineIn ==> total == 0.9 * OrderSubtotal(menu, choices)
  {
    SelectMealsMatchesChosen(menu, EmptyOrder, choices);
    var order := PlacedOrder(menu, choices, dineIn);
    CalculateTotal(order, TaxStrategyFor(order.dineIn), PercentageDiscount)
  }

  lemma IspMatchesPipeline(menu: seq<Meal>, choices: seq<int>, dineIn: bool, promo: char)
    ensures IspCheckout(menu, choices, dineIn) == Checkout(AlwaysPercentage, menu, choices, dineIn, promo)
  {
  }

  // ----- dip.cpp: inline tax choice, a NoDiscount always -----

  /** DIP `main`: the tax calculator is picked inline and there is never a discount. */
  function DipCheckout(menu: seq<Meal>, choices: seq<int>, dineIn: bool): (total: real)
    ensures dineIn ==> total == 1.05 * OrderSubtotal(menu, choices)
    ensures !dineIn ==> total == OrderSubtotal(menu, choices)
  {
    SelectMealsMatchesChosen(menu, EmptyOrder, choices);
    var order := PlacedOrder(menu, choices, dineIn);
    var tax := if order.dineIn then DineInTax else NoTax;
    CalculateTotal(order, tax, NoDiscount)
  }

  lemma DipMatchesPipeline(menu: seq<Meal>, choices: seq<int>, dineIn: bool, promo: char)
    ensures DipCheckout(menu, choices, dineIn) == Checkout(AlwaysNone, menu, choices, dineIn, promo)
  {
  }

  /**
   The programs disagree on a customer without a promo code: for any order
   with a positive subtotal, the ISP program charges less than OCP, and DIP
   charges what OCP charges.
   */
  lemma VariantsDisagreeWithoutPromo(menu: seq<Meal>, choices: seq<int>, dineIn: bool)
    requires OrderSubtotal(menu, choices) > 0.0
    ensures IspCheckout(menu, choices, dineIn) < OcpCheckout(menu, choices, dineIn, 'n')
    ensures DipCheckout(menu, choices, dineIn) == OcpCheckout(menu, choices, dineIn, 'n')
  {
  }
}
