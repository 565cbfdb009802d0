/**
 The restaurant's catalog: a meal is a name with a price, and the menu is a
 fixed list of ten meals that every variant of the program declares
 identically. Prices are exact rationals.
 */
module Meals {

  datatype Meal = Meal(name: string, price: real)

  /** The menu, in display order; choice `k` on screen names `Menu[k - 1]`. */
  const Menu: seq<Meal> := [
    Meal("Fries", 5.0), Meal("Burger", 15.0), Meal("Wrap", 25.0), Meal("Pizza", 30.0),
    Meal("Pasta", 20.0), Meal("Salad", 10.0), Meal("Nuggets", 12.0), Meal("Sandwich", 18.0),
    Meal("Soup", 8.0), Meal("Steak", 40.0)
  ]

  /** Every meal of `menu` has a price of at least zero. */
  predicate PricesNonNegative(menu: seq<Meal>) {
    forall i :: 0 <= i < |menu| ==> menu[i].price >= 0.0
  }

  /** Sum of the prices of `meals`, first meal first. */
  function Subtotal(meals: seq<Meal>): real {
    if |meals| == 0 then 0.0 else meals[0].price + Subtotal(meals[1..])
  }

  /** The menu has ten meals, none with a negative price, ending with Steak at 40. */
  lemma MenuShape()
    ensures |Menu| == 10
    ensures PricesNonNegative(Menu)
    ensures Menu[0] == Meal("Fries", 5.0)
    ensures Menu[9] == Meal("Steak", 40.0)
    ensures forall i, j :: 0 <= i < j < |Menu| ==> Menu[i].name != Menu[j].name
  {
  }

  /** The subtotal of a concatenation is the sum of the subtotals. */
  lemma {:induction false} SubtotalAppend(a: seq<Meal>, b: seq<Meal>)
    ensures Subtotal(a + b) == Subtotal(a) + Subtotal(b)
    decreases |a|
  {
    if |a| == 0 {
      assert a + b == b;
    } else {
      assert (a + b)[1..] == a[1..] + b;
      SubtotalAppend(a[1..], b);
    }
  }

  /** Meals with non-negative prices add up to a non-negative subtotal. */
  lemma {:induction false} SubtotalNonNegative(meals: seq<Meal>)
    requires PricesNonNegative(meals)
    ensures Subtotal(meals) >= 0.0
    decreases |meals|
  {
    if |meals| > 0 {
      assert PricesNonNegative(meals[1..]) by {
        forall i | 0 <= i < |meals[1..]|
          ensures meals[1..][i].price >= 0.0
        {
          assert meals[1..][i] == meals[i + 1];
        }
      }
      SubtotalNonNegative(meals[1..]);
    }
  }
}
