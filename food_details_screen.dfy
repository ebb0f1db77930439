/** The food-details screen as an object: its state cells are fields, its
    handlers are methods that update them, and each handler is tied to the pure
    transition FoodDetailsModel.Step. */
module FoodDetailsScreen {
  import M = FoodDetailsModel

  class Screen {
    var food: M.Food
    var extras: seq<M.Extra>
    var foodQuantity: int
    var isFavorite: bool

    /** The abstract value of the screen. */
    ghost function State(): M.ScreenState
      reads this
    {
      M.ScreenState(food, extras, foodQuantity, isFavorite)
    }

    ghost predicate Valid()
      reads this
    {
      M.Valid(State())
    }

    /** Mount with the initial state cells (no extras, quantity 1, not a
        favourite), then the first load with the fetched food and the outcome of
        the favourite lookup. */
    constructor (data: M.Food, favoriteFound: bool)
      ensures Valid()
      ensures State() == M.Mounted(data, favoriteFound)
    {
      food := data;
      extras := [];
      foodQuantity := 1;
      isFavorite := false;
      new;
      LoadFood(data, favoriteFound);
    }

    /** The effect run on mount and on every change of the route parameters. */
    method LoadFood(data: M.Food, favoriteFound: bool)
      requires Valid()
      modifies this
      ensures Valid()
      ensures State() == M.Step(old(State()), M.FoodLoaded(data, favoriteFound))
      ensures food == data && extras == M.InitExtras(data.extras)
      ensures foodQuantity == old(foodQuantity)
      ensures isFavorite == (old(isFavorite) || favoriteFound)
    {
      food := data;
      extras := M.InitExtras(data.extras);
      if favoriteFound {
        isFavorite := true;
      }
    }

    method HandleIncrementExtra(id: int)
      requires Valid()
      modifies this
      ensures Valid()
      ensures State() == M.Step(old(State()), M.IncrementExtraPressed(id))
      ensures extras == M.IncrementExtra(old(extras), id)
      ensures food == old(food) && foodQuantity == old(foodQuantity) && isFavorite == old(isFavorite)
    {
      var copy := extras;
      var index := M.FindExtraIndex(copy, id);
      if index >= 0 {
        copy := copy[index := copy[index].(quantity := copy[index].quantity + 1)];
      }
      extras := copy;
    }

    method HandleDecrementExtra(id: int)
      requires Valid()
      modifies this
      ensures Valid()
      ensures State() == M.Step(old(State()), M.DecrementExtraPressed(id))
      ensures extras == M.DecrementExtra(old(extras), id)
      ensures food == old(food) && foodQuantity == old(foodQuantity) && isFavorite == old(isFavorite)
    {
      var copy := extras;
      var index := M.FindExtraIndex(copy, id);
      if index >= 0 {
        if copy[index].quantity <= 0 {
          copy := copy[index := copy[index].(quantity := 0)];
        } else {
          copy := copy[index := copy[index].(quantity := copy[index].quantity - 1)];
        }
      }
      extras := copy;
    }

    method HandleIncrementFood()
      requires Valid()
      modifies this
      ensures Valid()
      ensures State() == M.Step(old(State()), M.IncrementFoodPressed)
      ensures foodQuantity == old(foodQuantity) + 1
      ensures food == old(food) && extras == old(extras) && isFavorite == old(isFavorite)
    {
      foodQuantity := foodQuantity + 1;
    }

    /** Refused with a warning at quantity 1, otherwise one less. */
    method HandleDecrementFood() returns (warned: bool)
      requires Valid()
      modifies this
      ensures Valid()
      ensures State() == M.Step(old(State()), M.DecrementFoodPressed)
      ensures warned <==> old(foodQuantity) == 1
      ensures foodQuantity == if warned then old(foodQuantity) else old(foodQuantity) - 1
      ensures food == old(food) && extras == old(extras) && isFavorite == old(isFavorite)
    {
      if foodQuantity == 1 {
        warned := true;
      } else {
        warned := false;
        foodQuantity := foodQuantity - 1;
      }
    }

    /** Flips the flag at once and issues the matching request. */
    method ToggleFavorite() returns (request: M.Request)
      requires Valid()
      modifies this
      ensures Valid()
      ensures State() == M.Step(old(State()), M.FavoritePressed)
      ensures [request] == M.Issued(old(State()), M.FavoritePressed)
      ensures isFavorite == !old(isFavorite)
      ensures !old(isFavorite) ==> request == M.AddFavorite(food)
      ensures old(isFavorite) ==> request == M.RemoveFavorite(food.id)
      ensures food == old(food) && extras == old(extras) && foodQuantity == old(foodQuantity)
    {
      if !isFavorite {
        request := M.AddFavorite(food);
        isFavorite := true;
      } else {
        request := M.RemoveFavorite(food.id);
        isFavorite := false;
      }
    }

    function CartTotal(): int
      reads this
    {
      M.CartTotal(food.price, foodQuantity, extras)
    }

    function FavoriteIconName(): string
      reads this
    {
      M.FavoriteIconName(isFavorite)
    }

    /** Builds the order payload from the current state and issues its creation;
        the state is left as it is. */
    method HandleFinishOrder() returns (request: M.Request)
      ensures [request] == M.Issued(State(), M.FinishOrderPressed)
      ensures request.CreateOrder?
      ensures request.order.productId == food.id && request.order.name == food.name
      ensures request.order.description == food.description
      ensures request.order.category == food.category
      ensures request.order.thumbnailUrl == food.imageUrl
      ensures request.order.price == CartTotal()
      ensures request.order.extras == extras
    {
      request := M.CreateOrder(M.BuildOrder(food, foodQuantity, extras));
    }
  }

  /** A worked example of a total: a unit price of 10.00 ordered twice, with
      three units of a 2.00 extra and none of a 1.50 one, totals 26.00. */
  method TotalScenario()
  {
    var data := M.Food(7, "Burger", "", 1000, 1, "",
                       [M.Extra(1, "Bacon", 200, 5), M.Extra(2, "Cheese", 150, 0)]);
    var screen := new Screen(data, false);
    assert screen.extras == [M.Extra(1, "Bacon", 200, 0), M.Extra(2, "Cheese", 150, 0)];
    assert screen.CartTotal() == 1000;
    screen.HandleIncrementFood();
    screen.HandleIncrementExtra(1);
    screen.HandleIncrementExtra(1);
    screen.HandleIncrementExtra(1);
    assert screen.extras[0].quantity == 3 && screen.extras[1].quantity == 0;
    assert screen.CartTotal() == 2600;
    var warned := screen.HandleDecrementFood();
    assert !warned && screen.foodQuantity == 1;
    warned := screen.HandleDecrementFood();
    assert warned && screen.foodQuantity == 1;
    screen.HandleDecrementExtra(2);
    assert screen.extras[1].quantity == 0;
    var request := screen.ToggleFavorite();
    assert request == M.AddFavorite(data) && screen.FavoriteIconName() == "favorite";
  }
}
