# GoRestaurant client screens — Dafny model

This project models the local state of three screens of the GoRestaurant
food-ordering app (a React Native client over a REST API):

- **FoodDetails** (`food_details.dfy`, module `FoodDetails`): the order
  builder. The class `FoodDetails.Screen` holds the screen's state cells
  (`food`, `extras`, `isFavorite`, `foodQuantity`, `orderCreated`). Each
  handler is a method that replaces one cell with a pure function of the old
  state: increment or decrement an extra by id, increment or decrement the
  food quantity, check and toggle the favourite, and build and submit the
  order. `Screen.Valid()` is the invariant the handlers keep: the food
  quantity is at least 1 and every extra quantity is at least 0. The cart
  total is modelled as the source computes it, a `map` to line totals and
  then a left-fold `reduce`. It is proved equal to the closed form
  `(Σ value × quantity + price) × foodQuantity`. Further lemmas give how
  much one increment or decrement changes the total.
- **Dashboard** (`dashboard.dfy`, module `Dashboard`): the category filter
  toggle, the "is selected" test for each category chip, the `typing` flag
  driven by the search field's callbacks, and the `formattedFoods` map over
  the fetched list. The map is proved to keep the response's length, order
  and fields.
- **SearchInput** (`search_input.dfy`, module `SearchInput`): the
  `isFocused`/`isFilled` flags, the focus and blur handlers with the parent
  callbacks they call, and the search icon's tint.

Prices and extra values are integer cents. Network requests are not
performed. Their outcomes are parameters of the handlers: `succeeded`,
`postSucceeded`, and a `Lookup` value for the favourite check. The returned
requests and callbacks record what the handler sends. The locale currency
formatter `formatValue` is a function parameter `format: int -> string`.

Points where the code says more than its types or comments:

- `toggleFavorite` posts the loaded `food` object unchanged. The
  `Omit<Food, 'formattedPrice' | 'extras'>` annotation removes no field at
  run time, so `FavoriteRequestFor` puts the whole food in the request body.
- A favourite toggle flips the flag only after its request resolves. A
  rejected request leaves the flag as it was, and no rollback is needed.
- The favourite check turns every failure (a missing record or a network
  error) into "not favourite".
- The order record carries the unit price and the extras, but not the food
  quantity.
- `handleInputFocus` calls `onFocusEnter` only when one was passed, even
  though the prop's type marks it as required. `handleInputBlur` calls
  `onFocusExit` unconditionally.
- The category toggle's guard does not work for category id 0 (see
  "## Findings"). Both the code as written and the corrected toggle are in
  the model. The `Dashboard.Screen` class uses the corrected toggle
  `SelectCategory`, which is the behaviour the comment "Select / deselect
  category" describes. The code as written is `SelectCategoryAsWritten`.

## Model

| member | source | states |
|---|---|---|
| `FoodDetails.ResetQuantities` | src/pages/FoodDetails/index.tsx:100 | the loaded extras have the food's length and, position by position, the same id, name and value, with quantity 0 |
| `FoodDetails.IncrementExtra` | src/pages/FoodDetails/index.tsx:134-147 | length kept; every extra with the id has quantity + 1 and is otherwise the same entry; every other extra is unchanged; an absent id leaves the list identical; non-negative quantities stay non-negative |
| `FoodDetails.DecrementExtra` | src/pages/FoodDetails/index.tsx:164-177 | length kept; every extra with the id goes to 0 if it was 0 and to q - 1 otherwise; the others are unchanged; an absent id leaves the list identical; non-negative quantities stay non-negative |
| `FoodDetails.DecrementIsClampedAtZero` | src/pages/FoodDetails/index.tsx:173 | for non-negative quantities a decrement gives max(q - 1, 0) |
| `FoodDetails.DecrementUndoesIncrement` | src/pages/FoodDetails/index.tsx:134-177 | on non-negative quantities, decrementing an id right after incrementing it restores the list exactly |
| `FoodDetails.LineTotals` | src/pages/FoodDetails/index.tsx:222-223 | one line total per extra, in order, equal to value × quantity |
| `FoodDetails.ReduceIsSum` | src/pages/FoodDetails/index.tsx:222-224 | the reduce over the line totals started at acc equals acc + Σ value × quantity |
| `FoodDetails.CartTotal` | src/pages/FoodDetails/index.tsx:220-228 | the map/reduce total equals (Σ value × quantity + price) × foodQuantity |
| `FoodDetails.UnselectedExtrasAddNothing` | src/pages/FoodDetails/index.tsx:222-224 | extras that all have quantity 0 contribute 0 |
| `FoodDetails.CartTotalWithoutExtras` | src/pages/FoodDetails/index.tsx:220-228 | with all quantities 0 (an empty list included) the total is price × foodQuantity |
| `FoodDetails.LoadedCartTotal` | src/pages/FoodDetails/index.tsx:100 | right after loading, whatever quantities the response carried, the total is price × foodQuantity |
| `FoodDetails.IncrementedEntryValue` | src/pages/FoodDetails/index.tsx:136-145 | incrementing one matching extra raises its line total by its unit value; a non-matching one is unchanged |
| `FoodDetails.DecrementedEntryValue` | src/pages/FoodDetails/index.tsx:166-175 | decrementing one matching extra with a non-zero quantity lowers its line total by its unit value; any other is unchanged |
| `FoodDetails.IncrementRaisesTotal` | src/pages/FoodDetails/index.tsx:134-147 | one increment raises Σ value × quantity by the sum of the values of the extras with that id |
| `FoodDetails.DecrementLowersTotal` | src/pages/FoodDetails/index.tsx:164-177 | one decrement lowers Σ value × quantity by the sum of the values of the extras with that id and a non-zero quantity |
| `FoodDetails.ExampleCartTotal` | src/pages/FoodDetails/index.tsx:220-228 | price 10.00 with extras 2.00 × 1 and 3.00 × 2, three portions, totals 54.00 |
| `FoodDetails.DecrementFood` | src/pages/FoodDetails/index.tsx:187-195 | from q > 1 the food quantity goes to q - 1; from q ≤ 1 it stays q |
| `FoodDetails.FoodQuantityStaysPositive` | src/pages/FoodDetails/index.tsx:179-195 | from q ≥ 1, increment gives q + 1 and decrement gives a value ≥ 1; at 1 decrement stays at 1 |
| `FoodDetails.DecrementFoodUndoesIncrement` | src/pages/FoodDetails/index.tsx:179-195 | from q ≥ 1, decrement after increment gives back q |
| `FoodDetails.LookupFailureMeansNotFavorite` | src/pages/FoodDetails/index.tsx:106-117 | the check yields favourite exactly when the lookup was found; a missing record and a failed request give the same result |
| `FoodDetails.FavoriteRequestFor` | src/pages/FoodDetails/index.tsx:210-215 | a favourite sends DELETE for the food's id; a non-favourite sends POST with the loaded food as the body |
| `FoodDetails.ToggleTwiceRestores` | src/pages/FoodDetails/index.tsx:208-218 | a successful toggle negates the flag; a failed one keeps it; two successful toggles restore it and send opposite requests |
| `FoodDetails.OrderOf` | src/pages/FoodDetails/index.tsx:234-244 | the order copies product_id = food.id, name, description, price, category, thumbnail_url and the current extras |
| `FoodDetails.Screen.constructor` | src/pages/FoodDetails/index.tsx:78-100 | after the first load: the food with its display price, the zeroed extras, quantity 1, not favourite, no order; the total is the food's price |
| `FoodDetails.Screen.LoadFood` | src/pages/FoodDetails/index.tsx:90-104 | a reload replaces food and extras only, keeps the invariant, and leaves the total at price × foodQuantity |
| `FoodDetails.Screen.CheckIsFavorite` | src/pages/FoodDetails/index.tsx:106-117 | looks up the loaded food's id and sets the flag to whether it was found |
| `FoodDetails.Screen.HandleIncrementExtra` | src/pages/FoodDetails/index.tsx:134-147 | extras become IncrementExtra of the old extras; the invariant holds; the total rises by the matching values × foodQuantity |
| `FoodDetails.Screen.HandleDecrementExtra` | src/pages/FoodDetails/index.tsx:164-177 | extras become DecrementExtra of the old extras; the invariant holds; the total falls by the decrementable values × foodQuantity |
| `FoodDetails.Screen.HandleIncrementFood` | src/pages/FoodDetails/index.tsx:179-181 | the food quantity goes up by one and nothing else changes |
| `FoodDetails.Screen.HandleDecrementFood` | src/pages/FoodDetails/index.tsx:187-195 | the food quantity takes the clamped decrement, stays ≥ 1, and nothing else changes |
| `FoodDetails.Screen.ToggleFavorite` | src/pages/FoodDetails/index.tsx:208-218 | sends the request chosen by the old flag; the flag is negated only if the request succeeded |
| `FoodDetails.Screen.HandleFinishOrder` | src/pages/FoodDetails/index.tsx:232-255 | posts the snapshot order; success sets orderCreated; failure shows the alert and changes nothing |
| `Dashboard.SelectCategoryAsWritten` | src/pages/Dashboard/index.tsx:94-104 | as written: selection clears exactly when the tapped id is the selected one and is not 0; otherwise the tapped id becomes selected |
| `Dashboard.ZeroCannotBeDeselected` | src/pages/Dashboard/index.tsx:97 | as written, tapping a selected category 0 again leaves it selected |
| `Dashboard.SelectCategory` | src/pages/Dashboard/index.tsx:94-104 | corrected toggle: selection clears exactly when the tapped id is the selected one; otherwise the tapped id becomes selected |
| `Dashboard.AsWrittenDiffersOnlyAtZero` | src/pages/Dashboard/index.tsx:97 | the code as written and the corrected toggle differ exactly when category 0 is selected and tapped again |
| `Dashboard.AtMostOneSelected` | src/pages/Dashboard/index.tsx:145 | two ids both shown as selected are equal |
| `Dashboard.SelectedIdsAtMostOne` | src/pages/Dashboard/index.tsx:142-156 | the chips drawn selected carry at most one id: none with no selection, exactly the selected id when it is in the list |
| `Dashboard.SelectCategoryToggles` | src/pages/Dashboard/index.tsx:94-104 | after a tap, the tapped chip is selected iff it was not before, and no other chip is selected |
| `Dashboard.SelectTwiceReturnsToNone` | src/pages/Dashboard/index.tsx:94-104 | two taps on the same id from no selection clear it again: always for the corrected toggle, and for every id but 0 as written |
| `Dashboard.FormatFoods` | src/pages/Dashboard/index.tsx:68-75 | same length as the response; each element keeps all the fetched fields and gains formattedPrice = format(price) |
| `Dashboard.FormatFoodsKeepsResponse` | src/pages/Dashboard/index.tsx:68-77 | dropping formattedPrice from the list gives the response back, in order |
| `Dashboard.Screen.constructor` | src/pages/Dashboard/index.tsx:47-55 | no foods, no categories, no selection, not typing, empty search |
| `Dashboard.Screen.LoadFoods` | src/pages/Dashboard/index.tsx:59-81 | the list is replaced by the formatted response, and it strips back to the response |
| `Dashboard.Screen.LoadCategories` | src/pages/Dashboard/index.tsx:83-92 | the categories are replaced by the response |
| `Dashboard.Screen.HandleSelectCategory` | src/pages/Dashboard/index.tsx:94-104 | the selection takes the corrected toggle; the tapped chip's selected state flips |
| `Dashboard.Screen.ChangeSearchValue` | src/pages/Dashboard/index.tsx:126 | the search text becomes the typed value |
| `Dashboard.Screen.Receive` | src/pages/Dashboard/index.tsx:128-129 | typing is true after a focus-enter callback and false after a focus-exit |
| `SearchInput.Input.constructor` | src/components/SearchInput/index.tsx:20-21 | starts neither focused nor filled, so the icon is not highlighted |
| `SearchInput.Input.IconColor` | src/components/SearchInput/index.tsx:44 | the icon is the highlight colour iff focused or filled, and the idle colour otherwise |
| `SearchInput.Input.HandleInputFocus` | src/components/SearchInput/index.tsx:23-29 | sets focused, keeps filled, is highlighted, and calls onFocusEnter once when one was passed and not at all otherwise |
| `SearchInput.Input.HandleInputBlur` | src/components/SearchInput/index.tsx:31-37 | clears focused, sets filled to whether the value is non-empty, is highlighted iff the value is non-empty, and calls onFocusExit exactly once |

## Left out

- All requests (`api.get`, `api.post`, `api.delete`) and response parsing: they are network I/O against an API client that is not part of this model. Their outcomes are handler parameters, and the request a handler sends is returned as a value.
- The query parameters `category_like` and `name_like` of the food fetch: the filtering they ask for happens on the server.
- `formatValue` (locale currency formatting): it is not part of this model and appears only as the parameter `format`.
- JavaScript floating-point arithmetic on prices and totals: the model uses exact integer cents.
- `src/pages/Orders/index.tsx`: it only fetches and formats, with no local logic.
- Navigation (`navigate`, `goBack`, `setOptions`, `handleNavigate`), the two-second `setTimeout`, the alert's text, the favourite icon name, styling and rendering: these are presentation only. Only the search icon's tint is kept, as a boolean choice between two colours.
- The moment before the first food load, when `food` is the empty object and the total is NaN: `FoodDetails.Screen.constructor` stands for the mount together with the first completed load. A later reload is `LoadFood`.
- Async ordering: stale search responses overwriting newer ones, a favourite check racing the food load, and `toggleFavorite` reading a flag captured in an older render. The model runs each handler to completion, one at a time.
- SearchInput's `value = ''` default: the blur handler takes the value as a string, and a missing value is the empty string.

## Findings

| source | as written | input that shows it | evidently intended | confidence | as-written member | corrected member |
|---|---|---|---|---|---|---|
| src/pages/Dashboard/index.tsx:97 | `if (selectedCategory && selectedCategory === id)` tests the selected id for truthiness, and 0 is falsy | category 0 is selected and the user taps category 0 again: the selection stays `Some(0)` | tapping the selected category clears the filter, as the comment "Select / deselect category" says, for every id | medium, not executed (only ids that can be 0 are affected) | `Dashboard.SelectCategoryAsWritten` (`Dashboard.ZeroCannotBeDeselected`) | `Dashboard.SelectCategory` (`Dashboard.SelectCategoryToggles`, `Dashboard.SelectTwiceReturnsToNone`) |
