# Restaurant order pricing, modelled in Dafny

The restaurant management system comes as four near-identical console programs. Each one illustrates a
different design principle: `SRP.cpp`, `OCP.cpp`, `ISP.cpp` and `dip.cpp`. All four share an
order-pricing pipeline:

1. **Meal selection.** A fixed menu of ten meals. The customer types menu numbers. `0` ends the selection.
   A number in `1..10` appends that meal and adds its price to the order's `totalPrice`. Any other number is
   rejected and leaves the order unchanged.
2. **Tax.** The order's dine-in flag picks the tax strategy. `DineInTax` multiplies by 1.05. `NoTax` is
   the identity.
3. **Discount.** `PercentageDiscount` multiplies by 0.9. `NoDiscount` is the identity.
4. **Billing.** Tax is always applied first, then the discount to the taxed amount.

The programs differ only in how the discount is picked:
- SRP and OCP ask for a promo code, and `y` or `Y` unlocks the discount.
- ISP always applies `PercentageDiscount`.
- DIP always applies `NoDiscount`.

SRP also has a small hiring rule: only Managers and Chefs can be hired.

The model is functional:
- Meals and orders are immutable datatypes, and prices are exact `real`s.
- The tax and discount strategies are enumerations with pure functions.
- The selection loop is a fold over the sequence of typed choices. It is also written as a loop
  (`Orders.PlaceOrder`) and proved equal to the fold.
- `Variants.Checkout` is the shared pipeline, parameterised by the discount rule. Each program's own
  composition is proved equal to it.

Files:
- `optional.dfy`: `Option`, which stands in for a possibly-null object reference.
- `meals.dfy`: `Meal`, the menu, and the subtotal of a list of meals.
- `orders.dfy`: `Order`, `addMeal`, and the selection loop with its reference definition.
- `pricing.dfy`: the tax and discount strategies, the tax factory, the promo rule, and `calculateTotal`.
- `variants.dfy`: the shared pipeline and each program's `main` composition.
- `staff.dfy`: `HiringManager::hireStaff`.

Inputs that the programs read from the console are parameters here:
- the sequence of menu choices;
- the dine-in flag;
- the promo character;
- the hiring answers.

## Model

| member | source | states |
|---|---|---|
| Meals.MenuShape | SRP.cpp:16-20 | The menu has exactly ten meals, all with non-negative prices and distinct names. It starts with Fries at 5 and ends with Steak at 40. |
| Meals.SubtotalAppend | SRP.cpp:50-53 | The sum of prices over a concatenation of meal lists is the sum of the two parts. This is what keeps a running total equal to the sum as meals are appended. |
| Meals.SubtotalNonNegative | OCP.cpp:16-20 | Meals with non-negative prices never add up to a negative subtotal. |
| Orders.AddMeal | SRP.cpp:50-53 | Appends exactly the given meal and raises `totalPrice` by its price. It leaves the dine-in flag alone and preserves "total equals the sum of the selected prices". |
| Orders.ApplyChoice | SRP.cpp:65-70 | A choice in 1..size appends `menu[choice-1]` and adds its price. Any other non-zero choice leaves the order exactly as it was. Both preserve the sum invariant. |
| Orders.SelectMeals | SRP.cpp:63-71 | The selection loop never changes the dine-in flag. It only appends, so earlier meals stay a prefix. It keeps `totalPrice` equal to the sum of the selected prices. |
| Orders.SelectionStep | OCP.cpp:56-65 | A 0 stops the loop with the order unchanged. A valid choice adds the meal and continues. An invalid non-zero choice continues with the order unchanged. |
| Orders.StopIgnoresRest | ISP.cpp:55-58 | Choices typed after the first 0 are never read: the result depends only on the choices before it. |
| Orders.SelectMealsMatchesChosen | ISP.cpp:55-64 | The loop appends exactly the meals named by the valid choices before the first 0, in order. It raises the total by exactly their prices. |
| Orders.ChosenFromMenu | dip.cpp:59-61 | Every meal the selection picks is a meal of the menu. When every menu price is non-negative, so is every picked meal's price. |
| Orders.PlacedOrderNonNegative | dip.cpp:56-65 | A placed order is consistent and its `totalPrice` is non-negative. |
| Orders.PlaceOrder | dip.cpp:51-68 | The loop version of `placeOrder` selects exactly the meals named by the valid choices before the first 0. It keeps the total equal to their sum, records the dine-in answer, and stops at a 0 or the end of the input. It equals the fold. |
| Pricing.CalculateTax | ISP.cpp:77-89 | The taxed amount is the amount plus amount × rate, where the rate is 5% for `DineInTax` and 0 for `NoTax`. `NoTax` is the identity, and tax never lowers a non-negative amount. |
| Pricing.ApplyDiscount | ISP.cpp:106-118 | The discounted price is the price less price × rate, where the rate is 10% for `PercentageDiscount` and 0 for `NoDiscount`. `NoDiscount` is the identity. A non-negative price stays between 0 and itself. |
| Pricing.TaxStrategyFor | OCP.cpp:93-97 | The factory returns `DineInTax` if and only if the order is dine-in, and otherwise `NoTax`. |
| Pricing.DiscountForPromo | OCP.cpp:204-207 | The promo answer yields `PercentageDiscount` if and only if it is 'y' or 'Y', and otherwise `NoDiscount`. |
| Pricing.CalculateTotal | OCP.cpp:124-127 | The bill is the order's `totalPrice` scaled by (1 + tax rate) and then by (1 − discount rate). For a non-negative subtotal it lies between 0.9× and 1.05× the subtotal. It is zero exactly when the subtotal is zero. |
| Pricing.NoTaxNoDiscountIdentity | dip.cpp:87-107 | `NoTax` followed by `NoDiscount` returns the amount unchanged. |
| Pricing.TaxAndDiscountCommute | dip.cpp:120-123 | In exact arithmetic, applying the discount before the tax gives the same result as the code's tax-first order. |
| Pricing.CalculateTotalMonotone | ISP.cpp:123-126 | A larger order subtotal never gives a smaller bill under the same strategies. |
| Variants.Checkout | OCP.cpp:197-210 | The shared pipeline's total equals the subtotal of the selected meals × (1 + tax rate of the dine-in flag) × (1 − discount rate of the rule). For a menu with non-negative prices it lies between 0.9× and 1.05× that subtotal. |
| Variants.SrpApplyTax | SRP.cpp:104-109 | SRP's `applyTax` equals the factory-chosen tax on `totalPrice`. For a positive total it raises the price if and only if the order is dine-in. |
| Variants.SrpApplyDiscount | SRP.cpp:115-124 | SRP's `applyDiscount` equals the promo-chosen discount strategy. For a positive price it lowers the price if and only if the answer is 'y' or 'Y'. |
| Variants.SrpCheckout | SRP.cpp:251-256 | SRP's total equals the selected subtotal × 1.05 when dine-in, then × 0.9 when the promo answer is 'y' or 'Y'. |
| Variants.SrpMatchesPipeline | SRP.cpp:255-256 | SRP's tax-then-discount sequence equals the shared pipeline with the promo rule. |
| Variants.OcpCheckout | OCP.cpp:198-210 | OCP's total equals the selected subtotal × 1.05 when dine-in, then × 0.9 when the promo answer is 'y' or 'Y'. |
| Variants.OcpMatchesPipeline | OCP.cpp:201-210 | OCP's `main` composition equals the shared pipeline with the promo rule. |
| Variants.OcpSteakScenario | OCP.cpp:19 | One Steak (choices 10 then 0) gives a subtotal of 40. Dine-in taxes it to 42, and a promo bills it at 37.8. |
| Variants.OcpHundredScenarios | OCP.cpp:124-127 | A subtotal of 100 is billed 105 for dine-in without a promo and 90 for takeaway with a promo. An empty order is billed 0. |
| Variants.IspCheckout | ISP.cpp:235-241 | With the fixed `PercentageDiscount`, the total is 0.945× the selected subtotal for dine-in and 0.9× for takeaway. |
| Variants.IspMatchesPipeline | ISP.cpp:237-238 | ISP's `main` equals the shared pipeline with the always-discount rule, whatever the promo answer. |
| Variants.DipCheckout | dip.cpp:220-230 | With the fixed `NoDiscount`, the total is the taxed subtotal: 1.05× for dine-in and 1× for takeaway. |
| Variants.DipMatchesPipeline | dip.cpp:223-226 | DIP's inline tax choice with `NoDiscount` equals the shared pipeline with the never-discount rule. |
| Variants.VariantsDisagreeWithoutPromo | ISP.cpp:238 | For a customer without a promo code and a positive subtotal, the ISP program charges strictly less than OCP, and DIP charges the same as OCP. |
| Staff.HireStaff | SRP.cpp:182-202 | Hiring succeeds if and only if the role is "Manager" or "Chef". The hire keeps the typed name and salary and has the typed role. A Manager works "Full Day" and a Chef "Morning". |
| Staff.HireIgnoresShift | SRP.cpp:191-197 | The shift typed in never changes the outcome of hiring. |

## Left out

- Console I/O is not modelled. This covers the prompts, `displayMeals`, `CustomerDetails::inputDetails`, `Payment::processPayment` and the "Invalid choice" message. The values these routines read become parameters.
- The choices are taken as a sequence of unbounded integers, already read. A failed `cin >> choice` is not modelled. The three ways it can fail follow.
- End of input during meal selection is not modelled. At end of input, a failed `cin >> choice` leaves `choice` at its last value, so the loop can repeat forever. The model treats the end of the choice sequence as a stop.
- A non-numeric token during meal selection is not modelled. Under C++11, `cin >> choice` stores 0 and sets failbit, so the loop ends as if 0 had been typed. The dine-in and promo reads that follow then fail too.
- A number outside the range of `int` during meal selection is not modelled. The stream stores `INT_MAX` or `INT_MIN` and sets failbit. Every later read then fails and leaves `choice` unchanged, so the loop reports an invalid choice forever. The model instead reads such a number as one invalid choice and goes on to the next.
- Console conversion of the dine-in and promo answers is not modelled. For example, `cin >> bool` given a value other than 0 or 1 is outside the model. The model takes the dine-in answer as a `bool` and the promo answer as a `char`.
- Pricing.CalculateTax, Pricing.ApplyDiscount, Pricing.CalculateTotal: these are exact rational arithmetic. They do not reproduce IEEE-754 double rounding of `* 1.05`, `* 0.9` or the running `+=`.
- Pricing.CalculateTax, Pricing.ApplyDiscount, Pricing.CalculateTotal: no amount is required to be non-negative. The code does not check it, so the bounds are stated only for non-negative amounts.
- The feedback store and display are not modelled (`FeedbackRepository`, `FeedbackManager`). They are a global list appended from console input, with no other logic.
- Staff display and the ISP staff interfaces are not modelled (`displayInfo`, `ICookingStaff`, `IManagementStaff`, `StaffManagement`). They only print fixed data.
- Heap allocation, `delete`, virtual dispatch and the top-level menu loop of each `main` are not modelled.
- The customer details held by the OCP and DIP orders are not modelled, because no pricing depends on them.
- The uninitialised `dineIn` field of the ISP, OCP and DIP orders is not modelled as undefined behaviour. `placeOrder` always sets it before billing, and the model's empty order starts with `false`, as SRP's does.
