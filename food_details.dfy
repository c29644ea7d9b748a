/** The food-detail screen: the order builder's local state (extras, food
    quantity, favourite flag, order-created flag) and the pure computations
    its handlers and derived values are made of. Prices and extra values are
    integer cents. */
module FoodDetails {

  /** An add-on of a food: a unit value in cents and the selected quantity. */
  datatype Extra = Extra(id: int, name: string, value: int, quantity: int)

  /** A food as GET /foods/:id returns it; formattedPrice is filled in on load. */
  datatype Food = Food(
    id: int,
    name: string,
    description: string,
    price: int,
    category: int,
    thumbnailUrl: string,
    imageUrl: string,
    formattedPrice: string,
    extras: seq<Extra>)

  /** The record POSTed to /orders. */
  datatype Order = Order(
    productId: int,
    name: string,
    description: string,
    price: int,
    category: int,
    thumbnailUrl: string,
    extras: seq<Extra>)

  /** The request a favourite toggle sends: DELETE /favorites/:id or POST /favorites. */
  datatype FavoriteRequest = DeleteFavorite(foodId: int) | PostFavorite(body: Food)

  /** How GET /favorites/:id ended. */
  datatype Lookup = Found | NotFound | RequestFailed

  predicate QuantitiesNonNegative(extras: seq<Extra>) {
    forall i :: 0 <= i < |extras| ==> extras[i].quantity >= 0
  }

  predicate QuantitiesZero(extras: seq<Extra>) {
    forall i :: 0 <= i < |extras| ==> extras[i].quantity == 0
  }

  /** Two extras describe the same catalogue entry (the quantity may differ). */
  predicate SameItem(a: Extra, b: Extra) {
    a.id == b.id && a.name == b.name && a.value == b.value
  }

  function Max(a: int, b: int): int {
    if a >= b then a else b
  }

  // ---------------------------------------------------------------------
  // Loading

  /** The food as stored on load: the response with its display price. */
  function WithFormattedPrice(response: Food, format: int -> string): Food {
    response.(formattedPrice := format(response.price))
  }

  /** The extras state set on load: every extra of the food, quantity forced to 0. */
  function ResetQuantities(extras: seq<Extra>): (r: seq<Extra>)
    ensures |r| == |extras|
    ensures forall i :: 0 <= i < |extras| ==> SameItem(r[i], extras[i]) && r[i].quantity == 0
  {
    if extras == [] then [] else [extras[0].(quantity := 0)] + ResetQuantities(extras[1..])
  }

  // ---------------------------------------------------------------------
  // Extras

  /** One element of handleIncrementExtra's map. */
  function IncrementedEntry(e: Extra, id: int): Extra {
    if e.id != id then e else e.(quantity := e.quantity + 1)
  }

  /** One element of handleDecrementExtra's map: a quantity of exactly 0 stays 0. */
  function DecrementedEntry(e: Extra, id: int): Extra {
    if e.id != id then e else e.(quantity := if e.quantity == 0 then 0 else e.quantity - 1)
  }

  /** handleIncrementExtra's update: every extra with this id gets one more. */
  function IncrementExtra(extras: seq<Extra>, id: int): (r: seq<Extra>)
    ensures |r| == |extras|
    ensures forall i :: 0 <= i < |extras| && extras[i].id != id ==> r[i] == extras[i]
    ensures forall i :: 0 <= i < |extras| && extras[i].id == id ==>
      SameItem(r[i], extras[i]) && r[i].quantity == extras[i].quantity + 1
    ensures (forall i :: 0 <= i < |extras| ==> extras[i].id != id) ==> r == extras
    ensures QuantitiesNonNegative(extras) ==> QuantitiesNonNegative(r)
  {
    if extras == [] then [] else [IncrementedEntry(extras[0], id)] + IncrementExtra(extras[1..], id)
  }

  /** handleDecrementExtra's update: every extra with this id gets one less,
      except that a quantity of exactly 0 stays 0. */
  function DecrementExtra(extras: seq<Extra>, id: int): (r: seq<Extra>)
    ensures |r| == |extras|
    ensures forall i :: 0 <= i < |extras| && extras[i].id != id ==> r[i] == extras[i]
    ensures forall i :: 0 <= i < |extras| && extras[i].id == id ==>
      SameItem(r[i], extras[i]) &&
      r[i].quantity == (if extras[i].quantity == 0 then 0 else extras[i].quantity - 1)
    ensures (forall i :: 0 <= i < |extras| ==> extras[i].id != id) ==> r == extras
    ensures QuantitiesNonNegative(extras) ==> QuantitiesNonNegative(r)
  {
    if extras == [] then [] else [DecrementedEntry(extras[0], id)] + DecrementExtra(extras[1..], id)
  }

  /** On non-negative quantities the decrement is max(q - 1, 0). */
  lemma DecrementIsClampedAtZero(extras: seq<Extra>, id: int, i: int)
    requires QuantitiesNonNegative(extras)
    requires 0 <= i < |extras| && extras[i].id == id
    ensures DecrementExtra(extras, id)[i].quantity == Max(extras[i].quantity - 1, 0)
  {
  }

  /** Decrementing an id right after incrementing it gives back the same list. */
  lemma DecrementUndoesIncrement(extras: seq<Extra>, id: int)
    requires QuantitiesNonNegative(extras)
    ensures DecrementExtra(IncrementExtra(extras, id), id) == extras
  {
  }

  // ---------------------------------------------------------------------
  // Cart total

  /** What one extra adds to the total of one portion. */
  function LineValue(e: Extra): int {
    e.value * e.quantity
  }

  /** Σ value × quantity over the extras: the reference definition. */
  function ExtrasValue(extras: seq<Extra>): int {
    if extras == [] then 0 else LineValue(extras[0]) + ExtrasValue(extras[1..])
  }

  /** Σ value over the extras with this id: what one increment adds. */
  function MatchingValue(extras: seq<Extra>, id: int): int {
    if extras == [] then 0
    else (if extras[0].id == id then extras[0].value else 0) + MatchingValue(extras[1..], id)
  }

  /** Σ value over the extras with this id and a non-zero quantity: what one decrement removes. */
  function DecrementableValue(extras: seq<Extra>, id: int): int {
    if extras == [] then 0
    else
      (if extras[0].id == id && extras[0].quantity != 0 then extras[0].value else 0)
      + DecrementableValue(extras[1..], id)
  }

  /** The `map(extra => extra.value * extra.quantity)` step of cartTotal. */
  function LineTotals(extras: seq<Extra>): (r: seq<int>)
    ensures |r| == |extras|
    ensures forall i :: 0 <= i < |extras| ==> r[i] == extras[i].value * extras[i].quantity
  {
    if extras == [] then [] else [LineValue(extras[0])] + LineTotals(extras[1..])
  }

  /** The `reduce` step of cartTotal: a left fold whose callback adds each
      element to the running accumulator, starting from acc. */
  function Reduce(xs: seq<int>, acc: int): int {
    if xs == [] then acc else Reduce(xs[1..], xs[0] + acc)
  }

  lemma {:induction false} ReduceIsSum(extras: seq<Extra>, acc: int)
    ensures Reduce(LineTotals(extras), acc) == acc + ExtrasValue(extras)
  {
    if extras != [] {
      assert LineTotals(extras)[1..] == LineTotals(extras[1..]);
      ReduceIsSum(extras[1..], LineValue(extras[0]) + acc);
    }
  }

  /** cartTotal: (Σ value × quantity + price) × food quantity. */
  function CartTotal(extras: seq<Extra>, price: int, foodQuantity: int): (r: int)
    ensures r == (ExtrasValue(extras) + price) * foodQuantity
  {
    ReduceIsSum(extras, 0);
    (Reduce(LineTotals(extras), 0) + price) * foodQuantity
  }

  lemma {:induction false} UnselectedExtrasAddNothing(extras: seq<Extra>)
    requires QuantitiesZero(extras)
    ensures ExtrasValue(extras) == 0
  {
    if extras != [] {
      UnselectedExtrasAddNothing(extras[1..]);
    }
  }

  /** With no extras chosen the total is price × quantity. */
  lemma CartTotalWithoutExtras(extras: seq<Extra>, price: int, foodQuantity: int)
    requires QuantitiesZero(extras)
    ensures CartTotal(extras, price, foodQuantity) == price * foodQuantity
  {
    UnselectedExtrasAddNothing(extras);
  }

  /** Right after loading, whatever quantities the response carried, the total is price × quantity. */
  lemma LoadedCartTotal(extras: seq<Extra>, price: int, foodQuantity: int)
    ensures CartTotal(ResetQuantities(extras), price, foodQuantity) == price * foodQuantity
  {
    UnselectedExtrasAddNothing(ResetQuantities(extras));
  }

  lemma IncrementedEntryValue(e: Extra, id: int)
    ensures LineValue(IncrementedEntry(e, id)) == LineValue(e) + (if e.id == id then e.value else 0)
  {
    if e.id == id {
      assert e.value * (e.quantity + 1) == e.value * e.quantity + e.value;
    }
  }

  lemma DecrementedEntryValue(e: Extra, id: int)
    ensures LineValue(DecrementedEntry(e, id))
      == LineValue(e) - (if e.id == id && e.quantity != 0 then e.value else 0)
  {
    if e.id == id && e.quantity != 0 {
      assert e.value * (e.quantity - 1) == e.value * e.quantity - e.value;
    }
  }

  /** One increment of an extra adds its unit value once per food portion. */
  lemma {:induction false} IncrementRaisesTotal(extras: seq<Extra>, id: int)
    ensures ExtrasValue(IncrementExtra(extras, id)) == ExtrasValue(extras) + MatchingValue(extras, id)
  {
    if extras != [] {
      var r := IncrementExtra(extras, id);
      assert r[1..] == IncrementExtra(extras[1..], id);
      IncrementRaisesTotal(extras[1..], id);
      IncrementedEntryValue(extras[0], id);
    }
  }

  /** One decrement of an extra removes its unit value, unless its quantity is already 0. */
  lemma {:induction false} DecrementLowersTotal(extras: seq<Extra>, id: int)
    ensures ExtrasValue(DecrementExtra(extras, id)) == ExtrasValue(extras) - DecrementableValue(extras, id)
  {
    if extras != [] {
      var r := DecrementExtra(extras, id);
      assert r[1..] == DecrementExtra(extras[1..], id);
      DecrementLowersTotal(extras[1..], id);
      DecrementedEntryValue(extras[0], id);
    }
  }

  lemma MulDistributes(a: int, b: int, c: int)
    ensures (a + b) * c == a * c + b * c
    ensures (a - b) * c == a * c - b * c
  {
  }

  /** Food price 10.00, extras 2.00 × 1 and 3.00 × 2, three portions: 54.00. */
  lemma ExampleCartTotal()
    ensures CartTotal([Extra(1, "Bacon", 200, 1), Extra(2, "Queijo", 300, 2)], 1000, 3) == 5400
  {
  }

  // ---------------------------------------------------------------------
  // Food quantity

  /** handleIncrementFood's update. */
  function IncrementFood(quantity: int): int {
    quantity + 1
  }

  /** handleDecrementFood's update: down by one, never below 1. */
  function DecrementFood(quantity: int): (r: int)
    ensures quantity > 1 ==> r == quantity - 1
    ensures quantity <= 1 ==> r == quantity
  {
    if quantity > 1 then quantity - 1 else quantity
  }

  /** Both updates keep the food quantity at 1 or more; a decrement at 1 stays at 1. */
  lemma FoodQuantityStaysPositive(quantity: int)
    requires quantity >= 1
    ensures IncrementFood(quantity) == quantity + 1 && IncrementFood(quantity) >= 1
    ensures DecrementFood(quantity) >= 1
    ensures quantity == 1 ==> DecrementFood(quantity) == 1
  {
  }

  lemma DecrementFoodUndoesIncrement(quantity: int)
    requires quantity >= 1
    ensures DecrementFood(IncrementFood(quantity)) == quantity
  {
  }

  // ---------------------------------------------------------------------
  // Favourite

  /** checkIsFavorite: a successful lookup means favourite; any failure means not. */
  function FavoriteAfterLookup(outcome: Lookup): bool {
    outcome == Found
  }

  /** A missing record and a failed request are indistinguishable to the screen. */
  lemma LookupFailureMeansNotFavorite(outcome: Lookup)
    ensures FavoriteAfterLookup(outcome) <==> outcome == Found
    ensures outcome != Found ==> FavoriteAfterLookup(outcome) == FavoriteAfterLookup(NotFound)
  {
  }

  /** The request toggleFavorite awaits: remove when favourite, otherwise add
      (the body is the loaded food object as it is). */
  function FavoriteRequestFor(food: Food, isFavorite: bool): (r: FavoriteRequest)
    ensures r.DeleteFavorite? <==> isFavorite
    ensures r.DeleteFavorite? ==> r.foodId == food.id
    ensures r.PostFavorite? ==> r.body == food
  {
    if isFavorite then DeleteFavorite(food.id) else PostFavorite(food)
  }

  /** toggleFavorite's update: flips only once the request has succeeded. */
  function FavoriteAfterToggle(isFavorite: bool, succeeded: bool): bool {
    if succeeded then !isFavorite else isFavorite
  }

  /** Two successful toggles restore the flag, and they send opposite requests. */
  lemma ToggleTwiceRestores(food: Food, isFavorite: bool)
    ensures FavoriteAfterToggle(FavoriteAfterToggle(isFavorite, true), true) == isFavorite
    ensures FavoriteAfterToggle(isFavorite, true) != isFavorite
    ensures FavoriteAfterToggle(isFavorite, false) == isFavorite
    ensures FavoriteRequestFor(food, isFavorite).DeleteFavorite?
      != FavoriteRequestFor(food, FavoriteAfterToggle(isFavorite, true)).DeleteFavorite?
  {
  }

  // ---------------------------------------------------------------------
  // Order

  /** handleFinishOrder's record: the food's fields and the current extras. */
  function OrderOf(food: Food, extras: seq<Extra>): (o: Order)
    ensures o.productId == food.id
    ensures o.name == food.name && o.description == food.description
    ensures o.price == food.price && o.category == food.category
    ensures o.thumbnailUrl == food.thumbnailUrl
    ensures o.extras == extras
  {
    Order(food.id, food.name, food.description, food.price, food.category, food.thumbnailUrl, extras)
  }

  // ---------------------------------------------------------------------
  // The screen's state

  class Screen {
    var food: Food
    var extras: seq<Extra>
    var isFavorite: bool
    var foodQuantity: int
    var orderCreated: bool

    /** The invariants the handlers keep. */
    ghost predicate Valid()
      reads this
    {
      foodQuantity >= 1 && QuantitiesNonNegative(extras)
    }

    /** The value the screen shows as cartTotal. */
    function Total(): int
      reads this
    {
      CartTotal(extras, food.price, foodQuantity)
    }

    /** Mount followed by the completion of the first GET /foods/:id. */
    constructor (response: Food, format: int -> string)
      ensures Valid()
      ensures food == WithFormattedPrice(response, format)
      ensures extras == ResetQuantities(response.extras)
      ensures foodQuantity == 1 && !isFavorite && !orderCreated
      ensures Total() == response.price
    {
      food := WithFormattedPrice(response, format);
      extras := ResetQuantities(response.extras);
      isFavorite := false;
      foodQuantity := 1;
      orderCreated := false;
      UnselectedExtrasAddNothing(ResetQuantities(response.extras));
    }

    /** A later completion of loadFood: food and extras are replaced, nothing else. */
    method LoadFood(response: Food, format: int -> string)
      requires Valid()
      modifies this`food, this`extras
      ensures Valid()
      ensures food == WithFormattedPrice(response, format)
      ensures extras == ResetQuantities(response.extras)
      ensures Total() == response.price * foodQuantity
    {
      food := WithFormattedPrice(response, format);
      extras := ResetQuantities(response.extras);
      UnselectedExtrasAddNothing(extras);
    }

    /** checkIsFavorite, given how the lookup of /favorites/:id ended; returns the id looked up. */
    method CheckIsFavorite(outcome: Lookup) returns (lookedUp: int)
      requires Valid()
      modifies this`isFavorite
      ensures Valid()
      ensures lookedUp == food.id
      ensures isFavorite == FavoriteAfterLookup(outcome)
    {
      lookedUp := food.id;
      if outcome == Found {
        isFavorite := true;
      } else {
        isFavorite := false;
      }
    }

    method HandleIncrementExtra(id: int)
      requires Valid()
      modifies this`extras
      ensures Valid()
      ensures extras == IncrementExtra(old(extras), id)
      ensures Total() == old(Total()) + MatchingValue(old(extras), id) * foodQuantity
    {
      ghost var before, added := ExtrasValue(extras), MatchingValue(extras, id);
      IncrementRaisesTotal(extras, id);
      extras := IncrementExtra(extras, id);
      assert ExtrasValue(extras) + food.price == (before + food.price) + added;
      MulDistributes(before + food.price, added, foodQuantity);
    }

    method HandleDecrementExtra(id: int)
      requires Valid()
      modifies this`extras
      ensures Valid()
      ensures extras == DecrementExtra(old(extras), id)
      ensures Total() == old(Total()) - DecrementableValue(old(extras), id) * foodQuantity
    {
      ghost var before, removed := ExtrasValue(extras), DecrementableValue(extras, id);
      DecrementLowersTotal(extras, id);
      extras := DecrementExtra(extras, id);
      assert ExtrasValue(extras) + food.price == (before + food.price) - removed;
      MulDistributes(before + food.price, removed, foodQuantity);
    }

    method HandleIncrementFood()
      requires Valid()
      modifies this`foodQuantity
      ensures Valid()
      ensures foodQuantity == IncrementFood(old(foodQuantity))
    {
      foodQuantity := foodQuantity + 1;
    }

    method HandleDecrementFood()
      requires Valid()
      modifies this`foodQuantity
      ensures Valid()
      ensures foodQuantity == DecrementFood(old(foodQuantity))
    {
      if foodQuantity > 1 {
        foodQuantity := foodQuantity - 1;
      }
    }

    /** toggleFavorite: sends the request and flips the flag once it succeeded;
        a rejected request leaves the flag as it was. */
    method ToggleFavorite(succeeded: bool) returns (request: FavoriteRequest)
      requires Valid()
      modifies this`isFavorite
      ensures Valid()
      ensures request == FavoriteRequestFor(food, old(isFavorite))
      ensures isFavorite == FavoriteAfterToggle(old(isFavorite), succeeded)
    {
      if isFavorite {
        request := DeleteFavorite(food.id);
      } else {
        request := PostFavorite(food);
      }
      if succeeded {
        isFavorite := !isFavorite;
      }
    }

    /** handleFinishOrder: builds and posts the order; on success the
        confirmation shows, on failure an alert shows and nothing changes. */
    method HandleFinishOrder(postSucceeded: bool) returns (order: Order, alertShown: bool)
      requires Valid()
      modifies this`orderCreated
      ensures Valid()
      ensures order == OrderOf(food, extras)
      ensures postSucceeded ==> orderCreated
      ensures !postSucceeded ==> orderCreated == old(orderCreated)
      ensures alertShown <==> !postSucceeded
    {
      order := OrderOf(food, extras);
      if postSucceeded {
        orderCreated := true;
        alertShown := false;
      } else {
        alertShown := true;
      }
    }
  }
}
