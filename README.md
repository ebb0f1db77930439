# FoodDetails screen: a verified model of the order state

The FoodDetails screen of the delivery app shows one food with its optional
extras. The user adjusts the quantity of each extra and of the food itself,
watches a running total, marks the food as a favourite and confirms the order.
This project models that screen's order state and proves its properties:

- `food_details_model.dfy`, module `FoodDetailsModel`. The records (`Extra`,
  `Food`, `Order`, `Request`) and the screen state (`ScreenState`). The pure
  operations: the extras reset done at load, `findIndex` by id, the four
  quantity updates, the cart total (the `reduce` fold), the favourite icon
  name, the favourite request and the order payload. A transition function
  `Step` over user `Action`s, and lemmas about all of these.
- `food_details_screen.dfy`, module `FoodDetailsScreen`. Class `Screen` holds
  the screen's state cells (`food`, `extras`, `foodQuantity`, `isFavorite`) as
  fields. Its handler methods update those fields. Each handler states its
  new state outright and ties it to `FoodDetailsModel.Step`, and each keeps
  the invariant `Valid()`: `foodQuantity >= 1` and no negative extra
  quantity. The two handlers that issue a request tie it to
  `FoodDetailsModel.Issued`. The constructor ends in `FoodDetailsModel.Mounted`.

Money is in integer cents. Quantities are integers. A request to the remote
API is a value (`AddFavorite`, `RemoveFavorite`, `CreateOrder`) that the
method issuing it returns. The alert shown when the food quantity cannot go
below 1 becomes the `warned` result of `HandleDecrementFood`. The outcome of
the favourite lookup at load is the `favoriteFound` parameter.

Two details of the code are easy to misread; the model follows the code:

- The total adds an extra whenever its quantity is truthy, that is non-zero.
  A negative quantity would therefore be added too. No reachable state has
  one (`ReachableValid`).
- A reload (a change of route parameters) keeps `foodQuantity`. It never
  clears the favourite flag; it can only set it.

## Model

| member | source | states |
|---|---|---|
| FoodDetailsModel.InitExtras | src/pages/FoodDetails/index.tsx:85-89 | the load-time extras list has the input's length and order and the same id, name and value at every position, with every quantity 0 |
| FoodDetailsModel.Load | src/pages/FoodDetails/index.tsx:75-104 | a load stores the fetched food. Its extras are exactly `InitExtras` of the fetched extras: same length, order, ids, names and values, every quantity 0. It keeps the food quantity. The flag becomes true exactly when it was already true or the favourite lookup succeeded |
| FoodDetailsModel.FindExtraIndex | src/pages/FoodDetails/index.tsx:110-112 | `findIndex` by id gives -1 exactly when no extra has the id. Otherwise it gives the first position carrying the id |
| FoodDetailsModel.FirstMatchUnique | src/pages/FoodDetails/index.tsx:125-127 | the first position carrying an id is the one `findIndex` returns |
| FoodDetailsModel.IncrementExtra | src/pages/FoodDetails/index.tsx:106-119 | the first extra with the id gains exactly one unit. Every other element, every id, name and value, and the length are unchanged. An absent id changes nothing. Non-negative quantities stay non-negative |
| FoodDetailsModel.DecrementExtra | src/pages/FoodDetails/index.tsx:121-138 | the first extra with the id gets quantity max(q-1, 0). Every other element and the length are unchanged. An absent id changes nothing. Non-negative quantities stay non-negative |
| FoodDetailsModel.DecrementFood | src/pages/FoodDetails/index.tsx:145-152 | at quantity 1 the quantity is unchanged (the warning case). At any other quantity it drops by exactly 1. A quantity of at least 1 stays at least 1 |
| FoodDetailsModel.ExtrasFoldIsSum | src/pages/FoodDetails/index.tsx:168-173 | the `reduce` from any start value gives that value plus quantity * value summed over the extras with non-zero quantity |
| FoodDetailsModel.SelectedSum | src/pages/FoodDetails/index.tsx:169-172 | extras with quantity 0 contribute nothing: the sum over the selected extras equals the sum over all of them |
| FoodDetailsModel.CartTotal | src/pages/FoodDetails/index.tsx:165-177 | the total is price * foodQuantity plus quantity * value over the extras with non-zero quantity. Equivalently, plus the same sum over all extras |
| FoodDetailsModel.WeightedSumUpdate | src/pages/FoodDetails/index.tsx:168-173 | replacing one extra changes the sum of the extras by the new contribution minus the old one |
| FoodDetailsModel.IncrementExtraTotal | src/pages/FoodDetails/index.tsx:106-119 | one more unit of an extra raises the cart total by exactly that extra's value. An absent id leaves the total unchanged |
| FoodDetailsModel.IncrementExtraSum | src/pages/FoodDetails/index.tsx:106-119 | one more unit of the matching extra adds exactly its value to the extras' sum. An absent id adds nothing |
| FoodDetailsModel.DecrementExtraSum | src/pages/FoodDetails/index.tsx:121-138 | one unit less of the matching extra removes its value from the extras' sum when its quantity is positive. Otherwise the sum is unchanged |
| FoodDetailsModel.DecrementExtraTotal | src/pages/FoodDetails/index.tsx:121-138 | one unit less of an extra with positive quantity lowers the total by its value. At quantity 0, or for an absent id, the total is unchanged |
| FoodDetailsModel.LoadedTotal | src/pages/FoodDetails/index.tsx:85-89 | right after a load the total is price * foodQuantity. After the first load it is the unit price |
| FoodDetailsModel.FavoriteIconName | src/pages/FoodDetails/index.tsx:197-200 | the icon is `favorite` exactly when the flag is set and `favorite-border` exactly when it is not |
| FoodDetailsModel.FavoriteRequest | src/pages/FoodDetails/index.tsx:154-163 | from false the toggle posts the whole food record. From true it deletes by the food's id |
| FoodDetailsModel.BuildOrder | src/pages/FoodDetails/index.tsx:179-189 | the payload copies the id (as product_id), name, description, category and image (as thumbnail). Its price is the cart total, not the unit price. Its extras are the full current list, zero quantities included |
| FoodDetailsModel.Issued | src/pages/FoodDetails/index.tsx:154-191 | pressing the favourite button issues the favourite request and confirming issues the order creation. No other action issues a write request. The load's two GETs are inputs (see Left out) |
| FoodDetailsModel.StepPreservesValid | src/pages/FoodDetails/index.tsx:106-163 | every handler and every reload keeps foodQuantity >= 1 and every extra quantity >= 0 |
| FoodDetailsModel.RunPreservesValid | src/pages/FoodDetails/index.tsx:106-163 | any sequence of actions from a valid state ends in a valid state |
| FoodDetailsModel.ReachableValid | src/pages/FoodDetails/index.tsx:64-68 | every state reachable from the mounted screen (quantity 1, extras reset) has foodQuantity >= 1 and no negative extra quantity |
| FoodDetailsModel.WeightedSumNonNegative | src/pages/FoodDetails/index.tsx:168-173 | with no negative quantity and no negative value, the extras add a non-negative amount to the total |
| FoodDetailsModel.ToggleTwice | src/pages/FoodDetails/index.tsx:154-163 | two presses of the favourite button restore the flag. From false the first press adds the food and the second deletes it by id; from true the order is reversed |
| FoodDetailsScreen.Screen.constructor | src/pages/FoodDetails/index.tsx:64-104 | the screen after mount and first load is `Mounted`: the fetched food, the extras reset, quantity 1, the flag from the favourite lookup |
| FoodDetailsScreen.Screen.LoadFood | src/pages/FoodDetails/index.tsx:75-104 | the load effect replaces the food and the extras (reset to 0). It keeps the food quantity and can only set the flag |
| FoodDetailsScreen.Screen.HandleIncrementExtra | src/pages/FoodDetails/index.tsx:106-119 | the extras become `IncrementExtra` of the old extras. Nothing else changes and the invariant holds |
| FoodDetailsScreen.Screen.HandleDecrementExtra | src/pages/FoodDetails/index.tsx:121-138 | the extras become `DecrementExtra` of the old extras. Nothing else changes and the invariant holds |
| FoodDetailsScreen.Screen.HandleIncrementFood | src/pages/FoodDetails/index.tsx:140-143 | the food quantity rises by exactly 1, with no upper bound. Nothing else changes |
| FoodDetailsScreen.Screen.HandleDecrementFood | src/pages/FoodDetails/index.tsx:145-152 | it warns exactly at quantity 1 and then leaves the quantity as it is. Otherwise it lowers the quantity by 1 with no warning. foodQuantity >= 1 is kept |
| FoodDetailsScreen.Screen.ToggleFavorite | src/pages/FoodDetails/index.tsx:154-163 | the flag is negated at once. From false it issues the add of the whole food record, from true the delete by food id |
| FoodDetailsScreen.Screen.HandleFinishOrder | src/pages/FoodDetails/index.tsx:179-191 | it issues one order creation, the one `Issued` gives for confirming. The payload is `BuildOrder` of the current state and holds the food's identity fields, the current cart total as its price and the current extras list |

## Left out

- HTTP: the GET of the food and of the favourite, the favourite POST/DELETE and the order POST are not executed or modelled as network calls. A fetched food and the lookup's success are inputs. Issued requests are returned values. Failures and responses are not modelled.
- The favourite lookup's catch-and-log path: a failed lookup is `favoriteFound == false`. The flag then keeps its value.
- The phase before the first load completes, when the food is an empty placeholder and the total is NaN: the model starts at the loaded screen. The interleaving of the asynchronous load with user presses is also not modelled.
- Navigation: going back after checkout, the header's favourite icon registration and the rendered JSX are user interface.
- The alert dialog itself: only the fact that it is raised (`warned`) is modelled.
- The formatted price: the currency formatting comes from a module that is not part of this model. The code stores it as `formatedPrice` while the record type and the render read `formattedPrice`, so the rendered price is never set. That property is omitted from `Food`, which is also what the favourite request carries.
- JavaScript numbers: prices and values are integer cents and quantities are unbounded integers. Floating-point rounding and the 2^53 limit are not modelled.
- Object identity: the handlers copy the extras array shallowly and then mutate one element, so the element is shared with the previous array. The model treats extras as values. The sharing is not visible once the state cell is replaced.
- React semantics: re-rendering, `useMemo`/`useCallback` memoisation and effect scheduling.
