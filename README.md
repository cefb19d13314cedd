# Smart Shopping Cart — a Dafny model of the cart core

The application is a browser shopping list with a budget. The user sets a
budget, adds lines (category, name, unit price, quantity), removes or edits
lines, and can save the cart to the browser's local storage, load it back
or clear it. After every change the page shows the subtotal, the amount
spent and remaining, and a budget meter. The meter's colour is success,
warning or danger, and an alert appears once the budget is used up.

The model has three modules:

- `CartItems` (`items.dfy`) holds the item record and the pure computations.
  These are trimming of the typed name, the add-item guard, the line
  total, the running sum of totals (`Spent`, the source's `reduce`), removal
  by id (`Without`, the source's `filter`), lookup by id (`Find`, the source's
  `find`), the category label (`Capitalize`) and the quantity stepper.
- `Meter` (`meter.dfy`) holds the totals panel and the budget meter: the
  percentage, its clamp at 100, the rounded number shown, the colour level
  and the alert.
- `ShoppingCart` (`cart.dfy`) holds the class `Cart`. Its fields are the
  module-level state of the page: `budget`, `items`, the theme flag and the
  key/value store. Each event handler is a method: set budget, add item,
  remove, edit, save, load, clear and toggle theme. Each method states its
  whole new state in terms of the old one. `Valid()` is the invariant they
  all keep. It says the budget is unset (0) or positive and equals the
  persisted one. It says every current or saved item is well formed, with a
  non-empty trimmed name, positive price and quantity, and
  `total == price * quantity`. It says the persisted theme flag is the
  current one.

Representation choices:

- Money is `real`.
- A parsed number is `Option<real>` or `Option<int>`, where `None` stands
  for what `parseFloat` or `parseInt` return as NaN.
- Item ids are supplied by the caller in place of `Date.now()`. Ids are not
  assumed unique, so removal removes every item with the id, as `filter`
  does.
- The store is a `map<string, Stored>` of already-decoded values under the
  keys `"budget"`, `"savedCart"` and `"darkTheme"`.
- Notifications are returned as values (`Notice`) with the source's
  message text and kind.

Two behaviours of the code are kept as written:

- Loading takes each saved item as it was stored, including its `total`.
  It is not re-derived on load. The `Valid()` invariant holds only because
  nothing but the save handler writes that key.
- The edit handler finds the first item with the id, then removes every
  item with that id.

## Model

| member | source | states |
|---|---|---|
| `CartItems.TrimStart` | script.js:93 | the result is a suffix of the input, does not start with white space, and everything dropped is white space |
| `CartItems.TrimEnd` | script.js:93 | the result is a prefix of the input, does not end with white space, and everything dropped is white space |
| `CartItems.Trim` | script.js:93 | a non-empty trimmed name neither starts nor ends with white space |
| `CartItems.TrimEmptyIffBlank` | script.js:93-97 | the trimmed name is empty exactly when every typed character is white space (both directions) |
| `CartItems.TrimIdempotent` | script.js:93 | trimming an already trimmed name changes nothing, so stored names are trimmed |
| `CartItems.AcceptedInputWellFormed` | script.js:97-122 | input that passes the guard builds a well-formed item: trimmed non-empty name, positive price and quantity, `total == price * quantity` and a positive total |
| `CartItems.StepDown` | script.js:78-83 | decrease keeps a NaN field NaN, takes a quantity above 1 to one less, leaves 1 or less unchanged, and so never takes a quantity of at least 1 below 1 |
| `CartItems.StepUp` | script.js:85-88 | increase keeps a NaN field NaN and adds exactly 1 to any quantity, so a quantity of at least 1 goes above 1 |
| `CartItems.StepRoundTrip` | script.js:78-88 | increase then decrease restores a quantity of at least 1; decrease then increase restores a quantity above 1 |
| `CartItems.RejectsItemInput` | script.js:97 | input is rejected exactly when every typed name character is white space, or the price is NaN or not positive, or the quantity is NaN or not positive |
| `CartItems.NewItem` | script.js:115-122 | the record carries the given id, category, name, price and quantity, and is well formed exactly when the name is non-empty and trimmed and price and quantity are positive |
| `CartItems.Spent` | script.js:206-213 | the summed totals are non-negative when every total is, and a one-item cart sums to that item's total |
| `CartItems.SpentConcat` | script.js:206 | the summed total of two carts joined is the sum of their summed totals |
| `CartItems.SpentIsCost` | script.js:121-121 | for well-formed items the spent amount equals the sum of price times quantity, computed independently from the other end |
| `CartItems.SpentNonNegative` | script.js:213 | the spent amount of well-formed items is never negative, and positive for a non-empty cart |
| `CartItems.Without` | script.js:170 | an item is kept exactly when it was in the cart and carries another id; the cart never grows |
| `CartItems.WithoutConcat` | script.js:170 | removal works piecewise over a concatenation, so kept items keep their relative order |
| `CartItems.WithoutAbsent` | script.js:170 | removing an id no item carries leaves the cart equal to what it was |
| `CartItems.WithoutIdempotent` | script.js:170 | removing the same id twice is removing it once |
| `CartItems.WithoutShortens` | script.js:170 | removal shortens the cart exactly when some item carries the id |
| `CartItems.Find` | script.js:186 | finds nothing exactly when no item has the id; otherwise the item it finds has the id and no earlier item does |
| `CartItems.Capitalize` | script.js:327-329 | same length, every character after the first kept, a first lower-case ASCII letter becomes its upper-case form, 32 code points lower, any other first character kept |
| `CartItems.CapitalizeIdempotent` | script.js:327-329 | capitalizing a label twice is capitalizing it once |
| `Meter.ComputeTotals` | script.js:205-214 | subtotal and spent are the same sum and spent plus remaining is the budget; for well-formed items spent is the exact sum of price times quantity, never negative, and a non-empty cart leaves less than the budget |
| `Meter.Clamp` | script.js:222 | the result is the minimum of the percentage and 100: at most both, and equal to one of them |
| `Meter.Classify` | script.js:228-240 | danger exactly from 100, warning exactly from 75 up to but not including 100, success exactly below 75 |
| `Meter.Round` | script.js:225 | the shown number is within one half of the clamped percentage |
| `Meter.ReadMeter` | script.js:220-240 | no reading unless the budget is positive; otherwise percentage × budget = spent × 100; the fill is at most 100, is 100 exactly when spent ≥ budget, and equals the percentage below the budget, so it is min(percentage, 100); the shown number is the fill rounded to within one half; fill and shown number lie in [0,100] when spent ≥ 0; danger iff spent ≥ budget; warning iff 75% ≤ spent share < 100%; success iff below 75%; alert iff danger |
| `Meter.PercentageScales` | script.js:221-232 | comparing the percentage with 100, 75 or 0 is comparing spent with the whole, three quarters or none of the budget |
| `Meter.LevelMonotone` | script.js:228-240 | spending more never moves the meter to a milder colour |
| `Meter.DangerIffNothingRemains` | script.js:214-231 | with a budget set, the danger colour (and alert) shows exactly when the remaining amount is at most 0 |
| `Meter.MeterWithinRange` | script.js:221-225 | for a cart of well-formed items the fill and the shown number lie in [0,100] and the percentage is not negative |
| `Meter.Boundaries` | script.js:220-240 | 75 spent of 100 is warning at 75% with no alert; 100 of 100 is danger at 100% with the alert; budget 0 gives no reading |
| `ShoppingCart.Filtered` | script.js:170 | the loop keeps exactly the items, in order, whose id differs from the given one |
| `ShoppingCart.Cart.constructor` | script.js:33-60 | the cart starts empty, dark theme exactly when the stored flag is true, and the stored budget is restored (0 when none) |
| `ShoppingCart.Cart.CanLoad` | script.js:47-51 | the load button is enabled only when a cart is saved, and what it would load is a list of well-formed items |
| `ShoppingCart.Cart.CurrentTotals` | script.js:205-217 | subtotal equals spent, remaining is budget minus spent, and for well-formed items spent is the exact sum of price times quantity, not negative, and leaves less than the budget once the cart has items |
| `ShoppingCart.Cart.CurrentMeter` | script.js:220-240 | a meter reading exists exactly when the budget is positive; the alert shows exactly when nothing remains; the fill stays in [0,100] |
| `ShoppingCart.Cart.SetBudget` | script.js:63-75 | a NaN or non-positive value leaves budget and store unchanged and reports the error; otherwise the budget is the value, it is stored under `"budget"`, and the items are untouched |
| `ShoppingCart.Cart.AddItemToCart` | script.js:114-128 | appends exactly one item with the given fields and `total = price * quantity`; earlier items unchanged; spent grows by price times quantity |
| `ShoppingCart.Cart.AddItem` | script.js:91-111 | rejected input (blank trimmed name, NaN or non-positive price or quantity) changes nothing and reports the error; accepted input appends one item carrying the trimmed name |
| `ShoppingCart.Cart.RemoveItem` | script.js:169-182 | the new items are the old ones without any item of that id, in order; nothing else changes |
| `ShoppingCart.Cart.EditItem` | script.js:185-202 | returns the first item with the id for the form; the state afterwards is that of a removal; an absent id changes nothing and shows no notice |
| `ShoppingCart.Cart.SaveCart` | script.js:245-254 | an empty cart leaves the store unchanged and reports the error; otherwise `"savedCart"` is overwritten with the current items and loading becomes possible |
| `ShoppingCart.Cart.LoadCart` | script.js:257-276 | with nothing saved nothing changes; otherwise the items are replaced, not merged, by the saved ones in order, and budget and store stay the same |
| `ShoppingCart.Cart.ClearCart` | script.js:279-290 | the cart is empty afterwards, spent is 0 and remaining is the budget; budget and saved cart are untouched; an empty cart gets the "already empty" notice |
| `ShoppingCart.Cart.ToggleTheme` | script.js:295-300 | the flag flips, the new flag is persisted, and the cart invariant is kept |
| `ShoppingCart.SaveThenLoadRestores` | script.js:245-276 | saving a non-empty cart and loading it back restores the same items in order |
| `ShoppingCart.RemoveTwiceIsRemoveOnce` | script.js:169-170 | a second removal of the same id changes nothing |
| `ShoppingCart.ToggleTwiceRestores` | script.js:295-300 | toggling the theme twice restores the flag |

## Left out

- Rendering and DOM access are not modelled: `renderCartItem`, the
  `innerHTML` templates, style and class changes, `focus`, the
  load-button `disabled` attribute (modelled only as `CanLoad`), the
  Enter-key wiring and the injected fade-out style.
- Timers are not modelled. These are the 300 ms fade-out before the removed
  row disappears and the 3 s auto-hide of the notification. Removal takes
  effect on the state at once, and totals are functions of the state.
- `RemoveItem` returns no notice. The source shows "Item removed from cart"
  only from inside the timer, and only when the row exists in the page.
- `showNotification` colouring is left out. The model returns the message
  and kind only.
- Real persistence and JSON are not modelled. `localStorage` is a map of
  already-decoded values, and `JSON.stringify` / `JSON.parse` are the
  identity on the item list.
- Malformed stored data is not modelled. This covers a saved cart that is
  not an item list, a stored budget that is not a positive number, and a
  theme value that is not a flag. The source does not handle these.
  `Valid()` and the constructor's precondition require the store to hold
  only what this program writes.
- Text parsing is not modelled: `parseFloat`, `parseInt` (including
  truncation of a fractional quantity), `toFixed(2)` and the `$` formatting.
  Handlers receive already-parsed numbers.
- Floating point is not modelled. Money is exact `real`, so
  `price * quantity` and the sums have no rounding. An `Infinity` budget or
  price has no counterpart.
- `Date.now()` is not modelled. The id is a parameter.
- `Capitalize`: does not model full Unicode upper-casing. Only
  ASCII `a`–`z` are upper-cased. Other characters are kept, though
  `toUpperCase` may change them or even lengthen the string.
- The CSS variables and colours behind the meter levels are left out. The
  level is the `Level` value.
