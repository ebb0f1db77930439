/** The order a food-details screen builds: its records, the values derived from
    them and the transitions its handlers perform, as pure definitions.
    Money (the food's price, an extra's value, the total) is in integer cents. */
module FoodDetailsModel {

  /** An optional add-on to a food, with the quantity the user picked. */
  datatype Extra = Extra(id: int, name: string, value: int, quantity: int)

  /** A food record as the API returns it (formatted price not modelled). */
  datatype Food = Food(
    id: int,
    name: string,
    description: string,
    price: int,
    category: int,
    imageUrl: string,
    extras: seq<Extra>)

  /** The payload sent to create an order. */
  datatype Order = Order(
    productId: int,
    name: string,
    description: string,
    category: int,
    price: int,
    thumbnailUrl: string,
    extras: seq<Extra>)

  /** A request the screen issues to the remote API (the result is not modelled). */
  datatype Request =
    | AddFavorite(food: Food)
    | RemoveFavorite(foodId: int)
    | CreateOrder(order: Order)

  /** The screen's state cells. */
  datatype ScreenState = ScreenState(
    food: Food,
    extras: seq<Extra>,
    foodQuantity: int,
    isFavorite: bool)

  /** What the user (or a route change) can do to the screen. */
  datatype Action =
    | IncrementExtraPressed(extraId: int)
    | DecrementExtraPressed(extraId: int)
    | IncrementFoodPressed
    | DecrementFoodPressed
    | FavoritePressed
    | FinishOrderPressed
    | FoodLoaded(data: Food, favoriteFound: bool)

  // ---------------------------------------------------------------------------
  // Predicates over extras

  predicate AllNonNegative(xs: seq<Extra>)
  {
    forall i :: 0 <= i < |xs| ==> xs[i].quantity >= 0
  }

  predicate AllZero(xs: seq<Extra>)
  {
    forall i :: 0 <= i < |xs| ==> xs[i].quantity == 0
  }

  predicate HasExtra(xs: seq<Extra>, id: int)
  {
    exists i :: 0 <= i < |xs| && xs[i].id == id
  }

  /** i is the first position whose extra carries id. */
  predicate IsFirstMatch(xs: seq<Extra>, id: int, i: int)
  {
    0 <= i < |xs| && xs[i].id == id && forall j :: 0 <= j < i ==> xs[j].id != id
  }

  /** Same extra record apart from its quantity. */
  predicate SameRecord(a: Extra, b: Extra)
  {
    a.id == b.id && a.name == b.name && a.value == b.value
  }

  // ---------------------------------------------------------------------------
  // Loading

  /** The extras list set up at load: every quantity reset to 0. */
  function InitExtras(xs: seq<Extra>): (r: seq<Extra>)
    ensures |r| == |xs|
    ensures forall i :: 0 <= i < |xs| ==> SameRecord(r[i], xs[i]) && r[i].quantity == 0
  {
    if xs == [] then [] else [xs[0].(quantity := 0)] + InitExtras(xs[1..])
  }

  /** The state right after the screen mounts and its first load completes. */
  function Mounted(data: Food, favoriteFound: bool): ScreenState
  {
    ScreenState(data, InitExtras(data.extras), 1, favoriteFound)
  }

  /** A (re)load: food and extras replaced, the quantity kept, the favourite flag
      only ever raised by a successful lookup. */
  function Load(s: ScreenState, data: Food, favoriteFound: bool): (r: ScreenState)
    ensures r.food == data && r.foodQuantity == s.foodQuantity
    ensures r.extras == InitExtras(data.extras)
    ensures |r.extras| == |data.extras| && AllZero(r.extras)
    ensures r.isFavorite <==> s.isFavorite || favoriteFound
  {
    ScreenState(data, InitExtras(data.extras), s.foodQuantity, s.isFavorite || favoriteFound)
  }

  // ---------------------------------------------------------------------------
  // Extras handlers

  /** findIndex on the extras by id: the first match, or -1. */
  function FindExtraIndex(xs: seq<Extra>, id: int): (r: int)
    ensures -1 <= r < |xs|
    ensures r == -1 <==> !HasExtra(xs, id)
    ensures r != -1 ==> IsFirstMatch(xs, id, r)
  {
    if xs == [] then -1
    else if xs[0].id == id then 0
    else
      var k := FindExtraIndex(xs[1..], id);
      assert forall j :: 1 <= j < |xs| ==> xs[j] == xs[1..][j - 1];
      if k == -1 then -1 else k + 1
  }

  lemma FirstMatchUnique(xs: seq<Extra>, id: int, i: int)
    requires IsFirstMatch(xs, id, i)
    ensures i == FindExtraIndex(xs, id)
  {
    var k := FindExtraIndex(xs, id);
    assert k != -1;
  }

  /** One more unit of the first extra with the given id. */
  function IncrementExtra(xs: seq<Extra>, id: int): (r: seq<Extra>)
    ensures |r| == |xs|
    ensures forall i :: 0 <= i < |xs| ==>
      SameRecord(r[i], xs[i]) &&
      r[i].quantity == xs[i].quantity + (if IsFirstMatch(xs, id, i) then 1 else 0)
    ensures !HasExtra(xs, id) ==> r == xs
    ensures AllNonNegative(xs) ==> AllNonNegative(r)
  {
    var k := FindExtraIndex(xs, id);
    forall i | IsFirstMatch(xs, id, i) ensures i == k { FirstMatchUnique(xs, id, i); }
    if k < 0 then xs else xs[k := xs[k].(quantity := xs[k].quantity + 1)]
  }

  function Max(a: int, b: int): int { if a < b then b else a }

  /** One unit less of the first extra with the given id, never below 0. */
  function DecrementExtra(xs: seq<Extra>, id: int): (r: seq<Extra>)
    ensures |r| == |xs|
    ensures forall i :: 0 <= i < |xs| ==>
      SameRecord(r[i], xs[i]) &&
      r[i].quantity == (if IsFirstMatch(xs, id, i) then Max(xs[i].quantity - 1, 0) else xs[i].quantity)
    ensures !HasExtra(xs, id) ==> r == xs
    ensures AllNonNegative(xs) ==> AllNonNegative(r)
  {
    var k := FindExtraIndex(xs, id);
    forall i | IsFirstMatch(xs, id, i) ensures i == k { FirstMatchUnique(xs, id, i); }
    if k < 0 then xs
    else if xs[k].quantity <= 0 then xs[k := xs[k].(quantity := 0)]
    else xs[k := xs[k].(quantity := xs[k].quantity - 1)]
  }

  // ---------------------------------------------------------------------------
  // Food quantity handlers

  /** Whether pressing "minus" on the food is refused with a warning. */
  predicate DecrementFoodWarns(foodQuantity: int)
  {
    foodQuantity == 1
  }

  function DecrementFood(foodQuantity: int): (r: int)
    ensures DecrementFoodWarns(foodQuantity) ==> r == foodQuantity
    ensures !DecrementFoodWarns(foodQuantity) ==> r == foodQuantity - 1
    ensures foodQuantity >= 1 ==> r >= 1
  {
    if foodQuantity == 1 then foodQuantity else foodQuantity - 1
  }

  // ---------------------------------------------------------------------------
  // Derived values

  /** Sum of quantity * value over the extras. */
  function WeightedSum(xs: seq<Extra>): int
  {
    if xs == [] then 0 else xs[0].quantity * xs[0].value + WeightedSum(xs[1..])
  }

  /** The extras whose quantity is non-zero, in order. */
  function Selected(xs: seq<Extra>): seq<Extra>
  {
    if xs == [] then []
    else if xs[0].quantity != 0 then [xs[0]] + Selected(xs[1..])
    else Selected(xs[1..])
  }

  /** The reduce over the extras: adds quantity * value to the accumulator for
      every extra whose quantity is truthy (non-zero). */
  function ExtrasFold(xs: seq<Extra>, acc: int): int
  {
    if xs == [] then acc
    else ExtrasFold(xs[1..], if xs[0].quantity != 0 then acc + xs[0].quantity * xs[0].value else acc)
  }

  lemma {:induction false} ExtrasFoldIsSum(xs: seq<Extra>, acc: int)
    ensures ExtrasFold(xs, acc) == acc + WeightedSum(Selected(xs))
  {
    if xs != [] {
      var acc' := if xs[0].quantity != 0 then acc + xs[0].quantity * xs[0].value else acc;
      ExtrasFoldIsSum(xs[1..], acc');
      if xs[0].quantity != 0 {
        assert Selected(xs) == [xs[0]] + Selected(xs[1..]);
        assert ([xs[0]] + Selected(xs[1..]))[1..] == Selected(xs[1..]);
      }
    }
  }

  /** Extras with quantity 0 contribute nothing: summing only the selected ones is
      the same as summing them all. */
  lemma {:induction false} SelectedSum(xs: seq<Extra>)
    ensures WeightedSum(Selected(xs)) == WeightedSum(xs)
  {
    if xs != [] {
      SelectedSum(xs[1..]);
      if xs[0].quantity != 0 {
        assert ([xs[0]] + Selected(xs[1..]))[1..] == Selected(xs[1..]);
      }
    }
  }

  lemma {:induction false} AllZeroSum(xs: seq<Extra>)
    requires AllZero(xs)
    ensures WeightedSum(xs) == 0
  {
    if xs != [] {
      AllZeroSum(xs[1..]);
    }
  }

  /** The cart total: unit price times food quantity, then the reduce over the
      extras starting from that. */
  function CartTotal(price: int, foodQuantity: int, xs: seq<Extra>): (r: int)
    ensures r == price * foodQuantity + WeightedSum(Selected(xs))
    ensures r == price * foodQuantity + WeightedSum(xs)
  {
    ExtrasFoldIsSum(xs, price * foodQuantity);
    SelectedSum(xs);
    ExtrasFold(xs, price * foodQuantity)
  }

  function Total(s: ScreenState): int
  {
    CartTotal(s.food.price, s.foodQuantity, s.extras)
  }

  /** Replacing one extra changes the weighted sum by the difference of the two
      contributions. */
  lemma {:induction false} WeightedSumUpdate(xs: seq<Extra>, i: int, e: Extra)
    requires 0 <= i < |xs|
    ensures WeightedSum(xs[i := e]) ==
      WeightedSum(xs) - xs[i].quantity * xs[i].value + e.quantity * e.value
  {
    if i == 0 {
      assert xs[i := e][1..] == xs[1..];
    } else {
      WeightedSumUpdate(xs[1..], i - 1, e);
      assert xs[i := e][1..] == xs[1..][i - 1 := e];
    }
  }

  /** Adding one unit of an extra raises the total by that extra's value; an
      unknown id leaves it unchanged. */
  lemma IncrementExtraTotal(price: int, foodQuantity: int, xs: seq<Extra>, id: int)
    ensures var k := FindExtraIndex(xs, id);
      CartTotal(price, foodQuantity, IncrementExtra(xs, id)) ==
        CartTotal(price, foodQuantity, xs) + (if k >= 0 then xs[k].value else 0)
  {
    IncrementExtraSum(xs, id);
  }

  lemma IncrementExtraSum(xs: seq<Extra>, id: int)
    ensures var k := FindExtraIndex(xs, id);
      WeightedSum(IncrementExtra(xs, id)) == WeightedSum(xs) + (if k >= 0 then xs[k].value else 0)
  {
    var k := FindExtraIndex(xs, id);
    if k >= 0 {
      var e := xs[k].(quantity := xs[k].quantity + 1);
      assert IncrementExtra(xs, id) == xs[k := e];
      WeightedSumUpdate(xs, k, e);
      MulSucc(xs[k].quantity, xs[k].value);
    }
  }

  lemma MulSucc(a: int, b: int)
    ensures (a + 1) * b == a * b + b
  {
  }

  /** Removing one unit of an extra whose quantity is positive lowers the total by
      its value; at quantity 0 (or an unknown id) the total is unchanged. */
  lemma DecrementExtraTotal(price: int, foodQuantity: int, xs: seq<Extra>, id: int)
    requires AllNonNegative(xs)
    ensures var k := FindExtraIndex(xs, id);
      CartTotal(price, foodQuantity, DecrementExtra(xs, id)) ==
        CartTotal(price, foodQuantity, xs) - (if k >= 0 && xs[k].quantity > 0 then xs[k].value else 0)
  {
    DecrementExtraSum(xs, id);
  }

  lemma DecrementExtraSum(xs: seq<Extra>, id: int)
    requires AllNonNegative(xs)
    ensures var k := FindExtraIndex(xs, id);
      WeightedSum(DecrementExtra(xs, id)) ==
        WeightedSum(xs) - (if k >= 0 && xs[k].quantity > 0 then xs[k].value else 0)
  {
    var k := FindExtraIndex(xs, id);
    if k >= 0 {
      var q := xs[k].quantity;
      var e := xs[k].(quantity := if q <= 0 then 0 else q - 1);
      assert DecrementExtra(xs, id) == xs[k := e];
      WeightedSumUpdate(xs, k, e);
      if q > 0 {
        MulSucc(q - 1, xs[k].value);
      }
    }
  }

  /** Right after a load every extra is at 0, so the total is the unit price
      times the food quantity (the unit price itself on the first load). */
  lemma LoadedTotal(s: ScreenState, data: Food, favoriteFound: bool)
    ensures Total(Load(s, data, favoriteFound)) == data.price * s.foodQuantity
    ensures Total(Mounted(data, favoriteFound)) == data.price
  {
    AllZeroSum(Load(s, data, favoriteFound).extras);
    AllZeroSum(Mounted(data, favoriteFound).extras);
  }

  /** The favourite icon's name. */
  function FavoriteIconName(isFavorite: bool): (r: string)
    ensures r == "favorite" <==> isFavorite
    ensures r == "favorite-border" <==> !isFavorite
  {
    if isFavorite then "favorite" else "favorite-border"
  }

  /** The request toggleFavorite issues from the given flag. */
  function FavoriteRequest(isFavorite: bool, food: Food): (r: Request)
    ensures r.AddFavorite? <==> !isFavorite
    ensures r.AddFavorite? ==> r.food == food
    ensures r.RemoveFavorite? <==> isFavorite
    ensures r.RemoveFavorite? ==> r.foodId == food.id
  {
    if !isFavorite then AddFavorite(food) else RemoveFavorite(food.id)
  }

  /** The checkout payload: identity and display fields copied from the food, the
      current total as the price and the full extras list, zero quantities included. */
  function BuildOrder(food: Food, foodQuantity: int, xs: seq<Extra>): (o: Order)
    ensures o.productId == food.id && o.name == food.name
    ensures o.description == food.description && o.category == food.category
    ensures o.thumbnailUrl == food.imageUrl
    ensures o.price == food.price * foodQuantity + WeightedSum(xs)
    ensures o.extras == xs
  {
    Order(food.id, food.name, food.description, food.category,
          CartTotal(food.price, foodQuantity, xs), food.imageUrl, xs)
  }

  // ---------------------------------------------------------------------------
  // The screen as a state machine

  /** The invariant of every reachable state: at least one food, no negative extra. */
  predicate Valid(s: ScreenState)
  {
    s.foodQuantity >= 1 && AllNonNegative(s.extras)
  }

  /** The state after one action. */
  function Step(s: ScreenState, a: Action): ScreenState
  {
    match a
    case IncrementExtraPressed(id) => s.(extras := IncrementExtra(s.extras, id))
    case DecrementExtraPressed(id) => s.(extras := DecrementExtra(s.extras, id))
    case IncrementFoodPressed => s.(foodQuantity := s.foodQuantity + 1)
    case DecrementFoodPressed => s.(foodQuantity := DecrementFood(s.foodQuantity))
    case FavoritePressed => s.(isFavorite := !s.isFavorite)
    case FinishOrderPressed => s
    case FoodLoaded(data, found) => Load(s, data, found)
  }

  /** The request an action issues, if any. */
  function Issued(s: ScreenState, a: Action): (r: seq<Request>)
    ensures a.FavoritePressed? ==> r == [FavoriteRequest(s.isFavorite, s.food)]
    ensures a.FinishOrderPressed? ==> r == [CreateOrder(BuildOrder(s.food, s.foodQuantity, s.extras))]
    ensures !a.FavoritePressed? && !a.FinishOrderPressed? ==> r == []
  {
    match a
    case FavoritePressed => [FavoriteRequest(s.isFavorite, s.food)]
    case FinishOrderPressed => [CreateOrder(BuildOrder(s.food, s.foodQuantity, s.extras))]
    case _ => []
  }

  function Run(s: ScreenState, acts: seq<Action>): ScreenState
    decreases acts
  {
    if acts == [] then s else Run(Step(s, acts[0]), acts[1..])
  }

  lemma StepPreservesValid(s: ScreenState, a: Action)
    requires Valid(s)
    ensures Valid(Step(s, a))
  {
    if a.FoodLoaded? {
      var r := Load(s, a.data, a.favoriteFound);
      assert AllNonNegative(r.extras);
    }
  }

  lemma {:induction false} RunPreservesValid(s: ScreenState, acts: seq<Action>)
    requires Valid(s)
    ensures Valid(Run(s, acts))
    decreases acts
  {
    if acts != [] {
      StepPreservesValid(s, acts[0]);
      RunPreservesValid(Step(s, acts[0]), acts[1..]);
    }
  }

  /** Every state reachable from a mounted screen keeps foodQuantity >= 1 and no
      negative extra quantity. */
  lemma ReachableValid(data: Food, favoriteFound: bool, acts: seq<Action>)
    ensures Valid(Run(Mounted(data, favoriteFound), acts))
  {
    assert Valid(Mounted(data, favoriteFound));
    RunPreservesValid(Mounted(data, favoriteFound), acts);
  }

  /** Extras with no negative quantity and no negative value never lower the
      total below the food's own share. */
  lemma {:induction false} WeightedSumNonNegative(xs: seq<Extra>)
    requires AllNonNegative(xs)
    requires forall i :: 0 <= i < |xs| ==> xs[i].value >= 0
    ensures WeightedSum(xs) >= 0
  {
    if xs != [] {
      WeightedSumNonNegative(xs[1..]);
    }
  }

  /** Pressing the favourite button twice restores the flag. From false the first
      press adds the food and the second deletes it by id; from true the order
      is reversed. */
  lemma ToggleTwice(s: ScreenState)
    ensures Step(Step(s, FavoritePressed), FavoritePressed) == s
    ensures var t := Step(s, FavoritePressed);
      !s.isFavorite ==>
        Issued(s, FavoritePressed) == [AddFavorite(s.food)] &&
        Issued(t, FavoritePressed) == [RemoveFavorite(s.food.id)]
    ensures var t := Step(s, FavoritePressed);
      s.isFavorite ==>
        Issued(s, FavoritePressed) == [RemoveFavorite(s.food.id)] &&
        Issued(t, FavoritePressed) == [AddFavorite(s.food)]
  {
  }
}
