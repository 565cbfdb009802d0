/**
 An order and the meal-selection loop shared by every variant: the customer
 types menu numbers, 0 ends the selection, a number in 1..|menu| adds that
 meal, and any other number is rejected without changing the order.
 */
module Orders {

  import opened Meals

  datatype Order = Order(selectedMeals: seq<Meal>, totalPrice: real, dineIn: bool)

  /** A freshly constructed order: no meals, price 0, not dine-in. */
  const EmptyOrder: Order := Order([], 0.0, false)

  /** The running total agrees with the meals selected so far. */
  predicate Consistent(o: Order) {
    o.totalPrice == Subtotal(o.selectedMeals)
  }

  /** Whether `choice` names a meal of `menu` (1-based). */
  predicate ValidChoice(menu: seq<Meal>, choice: int) {
    1 <= choice <= |menu|
  }

  /** Appends `meal` to the order and charges its price. */
  function AddMeal(o: Order, meal: Meal): (r: Order)
    ensures r.selectedMeals == o.selectedMeals + [meal]
    ensures r.totalPrice - o.totalPrice == meal.price
    ensures r.dineIn == o.dineIn
    ensures Consistent(o) ==> Consistent(r)
  {
    SubtotalAppend(o.selectedMeals, [meal]);
    assert Subtotal([meal]) == meal.price;
    Order(o.selectedMeals + [meal], o.totalPrice + meal.price, o.dineIn)
  }

  /** One non-zero choice of the selection loop: add the named meal or reject. */
  function ApplyChoice(menu: seq<Meal>, o: Order, choice: int): (r: Order)
    requires choice != 0
    ensures ValidChoice(menu, choice) ==> r.selectedMeals == o.selectedMeals + [menu[choice - 1]]
    ensures ValidChoice(menu, choice) ==> r.totalPrice == o.totalPrice + menu[choice - 1].price
    ensures !ValidChoice(menu, choice) ==> r == o
    ensures r.dineIn == o.dineIn
    ensures Consistent(o) ==> Consistent(r)
  {
    if ValidChoice(menu, choice) then AddMeal(o, menu[choice - 1]) else o
  }

  /**
   The selection loop as a fold over the typed choices: it stops at the first
   0, or when the choices run out.
   */
  function SelectMeals(menu: seq<Meal>, o: Order, choices: seq<int>): (r: Order)
    ensures r.dineIn == o.dineIn
    ensures Consistent(o) ==> Consistent(r)
    ensures |o.selectedMeals| <= |r.selectedMeals| && r.selectedMeals[..|o.selectedMeals|] == o.selectedMeals
    decreases |choices|
  {
    if |choices| == 0 || choices[0] == 0 then o
    else SelectMeals(menu, ApplyChoice(menu, o, choices[0]), choices[1..])
  }

  /** The choices the loop reads before it stops: everything before the first 0. */
  function ChoicesBeforeStop(choices: seq<int>): seq<int> {
    if |choices| == 0 || choices[0] == 0 then [] else [choices[0]] + ChoicesBeforeStop(choices[1..])
  }

  /** Reference definition: the meals named by the valid entries of `choices`, in order. */
  function ChosenMeals(menu: seq<Meal>, choices: seq<int>): seq<Meal> {
    if |choices| == 0 then []
    else (if ValidChoice(menu, choices[0]) then [menu[choices[0] - 1]] else []) + ChosenMeals(menu, choices[1..])
  }

  /** What `placeOrder` leaves behind: the selection from an empty order, then the dine-in answer. */
  function PlacedOrder(menu: seq<Meal>, choices: seq<int>, dineIn: bool): Order {
    SelectMeals(menu, EmptyOrder, choices).(dineIn := dineIn)
  }

  /** The three cases of one iteration of the loop body. */
  lemma SelectionStep(menu: seq<Meal>, o: Order, c: int, rest: seq<int>)
    ensures c == 0 ==> SelectMeals(menu, o, [c] + rest) == o
    ensures ValidChoice(menu, c) ==>
      SelectMeals(menu, o, [c] + rest) == SelectMeals(menu, AddMeal(o, menu[c - 1]), rest)
    ensures c != 0 && !ValidChoice(menu, c) ==>
      SelectMeals(menu, o, [c] + rest) == SelectMeals(menu, o, rest)
  {
  }

  /** Whatever follows the first 0 is never read. */
  lemma {:induction false} StopIgnoresRest(menu: seq<Meal>, o: Order, choices: seq<int>)
    ensures SelectMeals(menu, o, ChoicesBeforeStop(choices)) == SelectMeals(menu, o, choices)
    decreases |choices|
  {
    if |choices| > 0 && choices[0] != 0 {
      var prefix := ChoicesBeforeStop(choices);
      assert prefix[0] == choices[0] && prefix[1..] == ChoicesBeforeStop(choices[1..]);
      StopIgnoresRest(menu, ApplyChoice(menu, o, choices[0]), choices[1..]);
    }
  }

  /**
   The fold agrees with the reference: it appends exactly the meals named by
   the valid choices before the first 0 and raises the total by their prices.
   */
  lemma {:induction false} SelectMealsMatchesChosen(menu: seq<Meal>, o: Order, choices: seq<int>)
    ensures SelectMeals(menu, o, choices).selectedMeals
      == o.selectedMeals + ChosenMeals(menu, ChoicesBeforeStop(choices))
    ensures SelectMeals(menu, o, choices).totalPrice
      == o.totalPrice + Subtotal(ChosenMeals(menu, ChoicesBeforeStop(choices)))
    decreases |choices|
  {
    if |choices| > 0 && choices[0] != 0 {
      var c := choices[0];
      var o' := ApplyChoice(menu, o, c);
      var stop := ChoicesBeforeStop(choices);
      var later := ChosenMeals(menu, ChoicesBeforeStop(choices[1..]));
      var here := if ValidChoice(menu, c) then [menu[c - 1]] else [];
      assert stop[0] == c && stop[1..] == ChoicesBeforeStop(choices[1..]);
      assert ChosenMeals(menu, stop) == here + later;
      SelectMealsMatchesChosen(menu, o', choices[1..]);
      assert o'.selectedMeals == o.selectedMeals + here;
      assert o'.totalPrice == o.totalPrice + Subtotal(here);
      assert o.selectedMeals + here + later == o.selectedMeals + (here + later);
      SubtotalAppend(here, later);
    }
  }

  /** Selecting from menu meals only ever raises the total by a non-negative amount. */
  lemma PlacedOrderNonNegative(menu: seq<Meal>, choices: seq<int>, dineIn: bool)
    requires PricesNonNegative(menu)
    ensures Consistent(PlacedOrder(menu, choices, dineIn))
    ensures PlacedOrder(menu, choices, dineIn).totalPrice >= 0.0
  {
    var chosen := ChosenMeals(menu, ChoicesBeforeStop(choices));
    SelectMealsMatchesChosen(menu, EmptyOrder, choices);
    ChosenFromMenu(menu, ChoicesBeforeStop(choices));
    SubtotalNonNegative(chosen);
  }

  /**
   Every meal the reference picks is a meal of the menu, so it has a
   non-negative price when every menu price is non-negative.
   */
  lemma {:induction false} ChosenFromMenu(menu: seq<Meal>, choices: seq<int>)
    ensures forall m :: m in ChosenMeals(menu, choices) ==> m in menu
    ensures PricesNonNegative(menu) ==> PricesNonNegative(ChosenMeals(menu, choices))
    decreases |choices|
  {
    if |choices| > 0 {
      ChosenFromMenu(menu, choices[1..]);
    }
  }

  /**
   The selection loop written as a loop: reads choices until a 0 or the end
   of the input, then records the dine-in answer.
   */
  method PlaceOrder(menu: seq<Meal>, choices: seq<int>, dineIn: bool) returns (order: Order, read: nat)
    ensures order.selectedMeals == ChosenMeals(menu, ChoicesBeforeStop(choices))
    ensures Consistent(order)
    ensures order.dineIn == dineIn
    ensures order == PlacedOrder(menu, choices, dineIn)
    ensures read <= |choices| && forall k :: 0 <= k < read ==> choices[k] != 0
    ensures read == |choices| || choices[read] == 0
  {
    order := EmptyOrder;
    read := 0;
    while read < |choices| && choices[read] != 0
      invariant read <= |choices|
      invariant forall k :: 0 <= k < read ==> choices[k] != 0
      invariant Consistent(order) && !order.dineIn
      invariant SelectMeals(menu, order, choices[read..]) == SelectMeals(menu, EmptyOrder, choices)
      decreases |choices| - read
    {
      var choice := choices[read];
      assert choices[read..][1..] == choices[read + 1..];
      if ValidChoice(menu, choice) {
        order := AddMeal(order, menu[choice - 1]);
      }
      read := read + 1;
    }
    SelectMealsMatchesChosen(menu, EmptyOrder, choices);
    order := order.(dineIn := dineIn);
  }
}
