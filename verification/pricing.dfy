/**
 Tax and discount strategies and the billing step that composes them. A tax
 strategy is chosen by the dine-in flag (5% for dine-in, none for takeaway); a
 discount strategy is either a flat 10% off or nothing. Billing always taxes
 first and discounts the taxed amount.
 */
module Pricing {

  import opened Orders

  datatype TaxStrategy = DineInTax | NoTax

  datatype DiscountStrategy = NoDiscount | PercentageDiscount

  /** Reference definition: the fraction of the amount levied as tax. */
  function TaxRate(t: TaxStrategy): real {
    match t
    case DineInTax => 0.05
    case NoTax => 0.0
  }

  /** Reference definition: the fraction of the amount taken off. */
  function DiscountRate(d: DiscountStrategy): real {
    match d
    case NoDiscount => 0.0
    case PercentageDiscount => 0.10
  }

  /** `calculateTax`: the amount plus the tax the strategy levies on it. */
  function CalculateTax(t: TaxStrategy, amount: real): (r: real)
    ensures r == amount + amount * TaxRate(t)
    ensures t == NoTax ==> r == amount
    ensures amount >= 0.0 ==> amount <= r
  {
    match t
    case DineInTax => amount * 1.05
    case NoTax => amount
  }

  /** `applyDiscount`: the price less the fraction the strategy takes off. */
  function ApplyDiscount(d: DiscountStrategy, price: real): (r: real)
    ensures r == price - price * DiscountRate(d)
    ensures d == NoDiscount ==> r == price
    ensures price >= 0.0 ==> 0.0 <= r <= price
  {
    match d
    case NoDiscount => price
    case PercentageDiscount => price * 0.9
  }

  /** `TaxStrategyFactory::getTaxStrategy`: dine-in orders are taxed, takeaway orders are not. */
  function TaxStrategyFor(dineIn: bool): (t: TaxStrategy)
    ensures t == DineInTax <==> dineIn
    ensures TaxRate(t) > 0.0 <==> dineIn
  {
    if dineIn then DineInTax else NoTax
  }

  /** The promo prompt: 'y' or 'Y' unlocks the percentage discount, any other answer does not. */
  function DiscountForPromo(promo: char): (d: DiscountStrategy)
    ensures d == PercentageDiscount <==> promo == 'y' || promo == 'Y'
    ensures DiscountRate(d) > 0.0 <==> promo == 'y' || promo == 'Y'
  {
    if promo == 'y' || promo == 'Y' then PercentageDiscount else NoDiscount
  }

  /**
   `Billing::calculateTotal`: tax the order's running total, then discount the
   taxed amount. The result is the subtotal scaled by both rates, and for a
   non-negative subtotal it lies between 90% and 105% of it.
   */
  function CalculateTotal(order: Order, t: TaxStrategy, d: DiscountStrategy): (r: real)
    ensures r == order.totalPrice * (1.0 + TaxRate(t)) * (1.0 - DiscountRate(d))
    ensures order.totalPrice >= 0.0 ==> 0.9 * order.totalPrice <= r <= 1.05 * order.totalPrice
    ensures r == 0.0 <==> order.totalPrice == 0.0
  {
    var taxed := CalculateTax(t, order.totalPrice);
    ApplyDiscount(d, taxed)
  }

  /** Takeaway without a promo charges exactly the subtotal. */
  lemma NoTaxNoDiscountIdentity(amount: real)
    ensures ApplyDiscount(NoDiscount, CalculateTax(NoTax, amount)) == amount
  {
  }

  /**
   In exact arithmetic the two strategies commute, so the fixed tax-first order
   affects only floating-point rounding, not the mathematical total.
   */
  lemma TaxAndDiscountCommute(t: TaxStrategy, d: DiscountStrategy, amount: real)
    ensures ApplyDiscount(d, CalculateTax(t, amount)) == CalculateTax(t, ApplyDiscount(d, amount))
  {
  }

  /** The total is monotone in the subtotal, for every pair of strategies. */
  lemma CalculateTotalMonotone(a: Order, b: Order, t: TaxStrategy, d: DiscountStrategy)
    requires a.totalPrice <= b.totalPrice
    ensures CalculateTotal(a, t, d) <= CalculateTotal(b, t, d)
  {
  }
}
