# Shopping cart: validation, totals, backend merge and the cart store

A Dafny model of the client-side shopping cart of a storefront front end.

- `utils/cartValidation.js` checks line items and whole carts, drops invalid
  items, computes subtotal, 10% tax, free shipping and total rounded to cents,
  compares two totals records with a one-cent tolerance, merges the local cart
  with the cart stored on the backend, and builds a cart health report.
- `store/useCartStore.js` is the cart store. It holds the item list and two
  cached totals (item count and subtotal). Every mutator writes the new list
  together with totals recomputed over the valid items.

The files:

- `js_values.dfy` (module `JsValues`): the JavaScript values the code computes
  with. A number is NaN or a finite real; `undefined` behaves as NaN in every
  operation the cart applies to it. It also holds `Math.round(x * 100) / 100`.
- `cart_validation.dfy` (module `CartValidation`): line items, the six item
  checks, cart validation, `cleanCart`, totals, `verifyCalculations` and
  `getCartHealth`.
- `cart_sync.dfy` (module `CartSync`): the merge in `syncCartWithBackend`.
  The result of the backend fetch is an input: the backend's items, or a
  failure message.
- `cart_store.dfy` (module `CartStore`): the store as a class `Cart` with the
  fields `items`, `totalItems` and `totalPrice`. The class invariant `Valid()`
  says the cached totals are those of the valid items. Every mutator
  re-establishes it, and so does rehydration.

Money is an exact real. Rounding to cents is `floor(x * 100 + 1/2) / 100`,
which is how `Math.round` rounds (halves go up). Error and warning strings are
datatypes that carry the values the messages print.

The store's totals follow the code: `calculateTotals` runs `cleanCart` first,
so the totals cover only the valid items and invalid items count for nothing
(`store/useCartStore.js:6-14`).

## Model

| member | source | states |
|---|---|---|
| JsValues.TruncOrZero | utils/cartValidation.js:115 | `parseInt` of a number, with NaN replaced by 0, truncates toward zero: NaN gives 0, a non-negative value its floor, a negative value its ceiling, and an integer itself |
| JsValues.RoundCents | utils/cartValidation.js:133-136 | rounding to cents gives a whole number of cents that is less than half a cent below and at most half a cent above the input |
| JsValues.RoundCentsOfCents | utils/cartValidation.js:133-136 | an amount that is already whole cents is left unchanged |
| JsValues.RoundCentsIdempotent | utils/cartValidation.js:133-136 | rounding twice gives the same result as rounding once |
| JsValues.RoundCentsNonNegative | utils/cartValidation.js:133 | a non-negative amount never rounds to a negative one |
| CartValidation.NewLineItem | store/useCartStore.js:29-44 | a new entry keeps the product's id, name and stock, takes the given quantity, and stores the price as a number with the same value |
| CartValidation.ValidateCartItem | utils/cartValidation.js:17-53 | the item is valid exactly when the error list is empty, and exactly when all six checks pass |
| CartValidation.ValidateCartItemReportsEachFailure | utils/cartValidation.js:22-47 | each failing check adds its own error, so all failures are reported together: a bad id, a missing name, an unparseable or negative price, a non-integer or non-positive quantity, a bad stock, and a quantity above a defined stock |
| CartValidation.ValidateCartItemReportsOnlyFailedChecks | utils/cartValidation.js:40-47 | with stock undefined there is no stock error, and every error is one of the six kinds |
| CartValidation.ErrorReport | utils/cartValidation.js:73-78 | there are no entries exactly when every item is valid, and there are never more entries than items |
| CartValidation.ErrorReportCountsInvalidItems | utils/cartValidation.js:73-78 | there is exactly one entry per invalid item: the number of entries plus the number of items `cleanCart` keeps is the number of items |
| CartValidation.ErrorReportInCartOrder | utils/cartValidation.js:73-78 | every entry is an item failure with a position within the cart, and the positions strictly increase, so the entries follow cart order |
| CartValidation.ErrorReportSound | utils/cartValidation.js:73-78 | every entry names the 1-based position of an invalid item, its label and its own errors |
| CartValidation.ErrorReportComplete | utils/cartValidation.js:73-78 | every invalid item has an entry at its position |
| CartValidation.FirstIndexOf | utils/cartValidation.js:193 | `findIndex` gives the first position holding the id, or nothing when no entry has it |
| CartValidation.RepeatedIds | utils/cartValidation.js:81-82 | the duplicates list is empty exactly when the ids are distinct, and it holds exactly the ids that occur at least twice |
| CartValidation.RepeatedIdsCountsLaterOccurrences | utils/cartValidation.js:81-82 | each id is listed once for every occurrence after its first: as many times as it occurs, less one |
| CartValidation.RepeatedIdsInOrder | utils/cartValidation.js:81-82 | the duplicates list is a subsequence of the ids |
| CartValidation.LaterPositions | utils/cartValidation.js:82 | the positions, strictly increasing, of exactly those occurrences whose id already occurs earlier in the list |
| CartValidation.RepeatedIdsAtLaterPositions | utils/cartValidation.js:81-82 | the duplicates list has one id per later occurrence, and its t-th id is the id at the t-th such position, so the order is that of the occurrences |
| CartValidation.WarningsFlagDuplicatesAndSize | utils/cartValidation.js:80-90 | there is a duplicate warning exactly when some id repeats and a size warning exactly when there are more than 100 items; there are no other warnings |
| CartValidation.CartReportOf | utils/cartValidation.js:92-96 | `isValid` is true exactly when there are no errors |
| CartValidation.ValidateCart | utils/cartValidation.js:60-97 | a non-list gives `isValid` false, the single array error and no warnings; a list is valid exactly when every item is valid; duplicates and size only add warnings |
| CartValidation.CleanCart | utils/cartValidation.js:240-249 | the result holds exactly the valid items of the input and is never longer than it |
| CartValidation.CleanCartIsSubsequence | utils/cartValidation.js:241 | the kept items appear in their original order |
| CartValidation.CleanCartConcat | utils/cartValidation.js:241 | cleaning a concatenation gives the concatenation of the cleaned parts |
| CartValidation.CleanCartKeepsValidCart | utils/cartValidation.js:240-249 | the cart is returned unchanged exactly when all its items are valid |
| CartValidation.CleanCartAllValid | utils/cartValidation.js:241-247 | every item that is kept is valid |
| CartValidation.CleanCartIdempotent | utils/cartValidation.js:240-249 | cleaning twice gives the same result as cleaning once |
| CartValidation.SumsConcat | utils/cartValidation.js:113-129 | the line total and the quantity total of a concatenation are the sums over its parts |
| CartValidation.ValidItemsSums | utils/cartValidation.js:113-129 | over valid items the subtotal is not negative and the item count is at least the number of lines |
| CartValidation.CalculateCartTotals | utils/cartValidation.js:104-140 | every money field is whole cents within half a cent of its exact value: subtotal is the sum of price times quantity with unparseable values counted as 0, tax is 10% of it, shipping is 0, and total is subtotal plus tax plus shipping; `totalItems` is the quantity sum; the validation of the items is attached |
| CartValidation.AllFieldsListed | utils/cartValidation.js:152 | the compared fields are subtotal, tax, shipping, total and totalItems |
| CartValidation.VerifyCalculations | utils/cartValidation.js:148-174 | the result is valid exactly when every field differs by at most 0.01; `differences` holds exactly the fields that differ by more, each with both values and their distance |
| CartValidation.RoundedTotalsMatchExact | utils/cartValidation.js:131-136 | the rounded totals of any cart agree with its exact figures on every field within the one-cent tolerance |
| CartValidation.GetCartHealthAsWritten | utils/cartValidation.js:256-269 | as written: the cart is healthy exactly when every item is valid; the item count is the number of lines, the item total the quantity sum and the value the rounded total |
| CartValidation.HealthAsWrittenRepeatsEverything | utils/cartValidation.js:265-266 | as written, the errors are the validation's errors twice over and the warnings its warnings twice over |
| CartValidation.HealthAsWrittenCountsOneErrorTwice | utils/cartValidation.js:265-266 | as written, a cart with one invalid item gets two error entries |
| CartValidation.GetCartHealth | utils/cartValidation.js:256-269 | the cart is healthy exactly when every item is valid and exactly when there are no errors; the counts and the total value come from the totals; each error and warning is listed once |
| CartValidation.SampleCartTotals | scripts/validateCart.js:60-98 | the three-item sample cart is valid, with subtotal 69.47, tax 6.95, shipping 0, total 76.42 and 6 items |
| CartSync.MergeStep | utils/cartValidation.js:192-214 | one backend item adds at most one entry, and counts as a change exactly when it changed the list |
| CartSync.Merge | utils/cartValidation.js:189-214 | the merged list is at least as long as the local one and gains at most one entry per backend item |
| CartSync.RemoteIds | utils/cartValidation.js:193 | the backend ids, one per backend item, in order |
| CartSync.SyncCartWithBackend | utils/cartValidation.js:182-233 | a failed fetch returns the local items unchanged with no changes, the failure message and the error; a successful fetch returns the merge of the backend items into the local ones, its change count, and the message for that count |
| CartSync.LargestQuantityIsMax | utils/cartValidation.js:196-199 | an entry's final quantity is never below its own, is at least every matching backend quantity when both are numbers, and is one of those values |
| CartSync.LargestQuantityWithoutMatch | utils/cartValidation.js:196-199 | without a matching backend item the quantity stays |
| CartSync.StepKeepsEntries | utils/cartValidation.js:192-214 | one backend item either raises the quantity of the first entry with its id, or appends a new entry built from the product when no entry has that id; afterwards the id is in the cart |
| CartSync.MergeKeepsLocalEntries | utils/cartValidation.js:189-214 | every local entry keeps its position and all fields except quantity; the first entry with each id ends with the largest of its own and the matching backend quantities; later entries with the same id are untouched |
| CartSync.MergeTakesLargerQuantity | utils/cartValidation.js:196-199 | no local quantity goes down, and the first entry with a backend item's id ends with at least that item's quantity (the larger of the two) |
| CartSync.MergeKeepsLocalOnlyItems | utils/cartValidation.js:189-214 | an entry whose id the backend does not list is returned unchanged at its position |
| CartSync.MergeAppendsRemoteOnly | utils/cartValidation.js:192-212 | every appended entry has an id that was not in the local cart, and is the entry built from the first backend item with that id: its product, with its quantity raised by every later backend item with the same id and a larger quantity |
| CartSync.AppendedEntry | utils/cartValidation.js:203-211 | the entry appended for a backend item carries that item's product id |
| CartSync.MergeAppendsInRemoteOrder | utils/cartValidation.js:192-212 | appended entries follow the order in which their ids first occur among the backend items |
| CartSync.MergeAppendsDistinctIds | utils/cartValidation.js:192-212 | no id is appended twice |
| CartSync.MergeIncludesRemoteIds | utils/cartValidation.js:192-214 | every backend id ends up in the merged cart |
| CartSync.MergeCountsChanges | utils/cartValidation.js:190-219 | `changes` is the number of backend items whose step changed the list; it is at most the number of backend items and at least the number of appended entries; it is zero exactly when the merged cart equals the local one |
| CartStore.CalculateTotals | store/useCartStore.js:6-14 | `totalItems` is the quantity sum of the valid items and at least their number; `totalPrice` is their subtotal rounded to whole cents, and is never negative |
| CartStore.Without | store/useCartStore.js:75 | the result holds exactly the entries with another id and is never longer than the input |
| CartStore.RemoveKeepsOtherOccurrences | store/useCartStore.js:75 | every entry with the id is gone, and every other entry occurs as many times as before |
| CartStore.FindItem | store/useCartStore.js:26 | there is a result exactly when the id is in the cart, and the result is the first entry with that id |
| CartStore.Added | store/useCartStore.js:24-45 | afterwards the product's id is in the list; the list grows by one entry exactly when the id was not there before |
| CartStore.IncreasedQuantity | store/useCartStore.js:35-41 | the list keeps its length and ids, and every entry keeps every field except its quantity |
| CartStore.WithQuantity | store/useCartStore.js:57-61 | the list keeps its length and ids, and every entry keeps every field except its quantity |
| CartStore.Cart.constructor | store/useCartStore.js:19-21 | the cart starts with no items and zero totals, and its totals are correct |
| CartStore.Cart.AddItem | store/useCartStore.js:24-54 | the new list is the old one with the product added, and the cached totals are those of the new list |
| CartStore.Cart.UpdateQuantity | store/useCartStore.js:57-70 | the new list is the old one with the quantity set on the matching entries, and the totals are recomputed |
| CartStore.Cart.RemoveItem | store/useCartStore.js:73-84 | the new list is the old one without the entries with the id, and the totals are recomputed |
| CartStore.Cart.ClearCart | store/useCartStore.js:87-94 | the list is empty, both totals are zero, and the totals are correct |
| CartStore.Cart.GetItem | store/useCartStore.js:97-100 | it returns the first entry with the id, or nothing, and changes no state |
| CartStore.Cart.Rehydrate | store/useCartStore.js:105-113 | the stored items are kept and the totals are recomputed from them, whatever the stored totals were |
| CartStore.EmptyCartTotals | store/useCartStore.js:88 | an empty cart has zero totals |
| CartStore.AddExistingRaisesQuantity | store/useCartStore.js:35-41 | adding a product whose id is already present adds `quantity` to each entry with that id; no entry is added and the other entries are unchanged |
| CartStore.AddNewAppends | store/useCartStore.js:28-45 | adding a product with a new id appends one entry at the end, with the product's fields, the given quantity and the price as a number |
| CartStore.AddThenFind | store/useCartStore.js:24-45 | after adding, the product is found: a new product as its new entry, an existing one with its quantity increased by the amount added |
| CartStore.UpdateSetsQuantity | store/useCartStore.js:57-61 | the matching entries get exactly the given quantity, with no stock check; other entries are unchanged; an unknown id leaves the list unchanged |
| CartStore.RemoveKeepsOrder | store/useCartStore.js:75 | no entry with the id remains, and the other entries keep their order |
| CartStore.RemoveAbsentKeepsItems | store/useCartStore.js:75 | removing an id that is not in the cart leaves the list unchanged |
| CartStore.TotalsIgnoreInvalidItem | store/useCartStore.js:6-14 | an invalid item anywhere in the list leaves the totals as if it were not there |
| CartStore.ValidCartTotals | store/useCartStore.js:6-14 | for a cart of valid items, the totals are the item count and subtotal that `calculateCartTotals` gives for the whole list |
| CartStore.AddTwiceAccumulates | store/useCartStore.js:24-48 | adding product 1 (price "9.99", stock 5) with quantity 1 and then 2 gives one valid entry with quantity 3 and a numeric price, with totals of 3 items and 29.97 |
| CartStore.UpdatePastStock | store/useCartStore.js:57-64 | setting quantity 10 on an item with stock 5 is applied; the item then fails with the exceeds-stock error and drops out of the totals |
| CartStore.RemoveAbsentIsNoOp | store/useCartStore.js:73-78 | removing id 999 from a cart without it changes neither the list nor the totals |
| CartStore.DuplicateIdIsOnlyAWarning | utils/cartValidation.js:80-96 | two valid entries with the id "abc" make a valid cart with one duplicate warning that lists "abc" |

## Left out

- I/O: the `await cartAPI.get()` call is an input (the backend's items or a failure message). Console logging, `window.dispatchEvent('cart-update')`, the timer around it, and the zustand `persist` serialization to localStorage are not modelled.
- CartSync.SyncCartWithBackend: a failure can only come from the fetch. Other errors thrown inside the `try` (for example a response without `data`) are not modelled.
- CartSync.SyncCartWithBackend: the merged list holds copies of the local entries. In the source, raising a quantity also changes the caller's own item objects, because the array copy is shallow. That aliasing is not modelled.
- `lastChecked` in `getCartHealth` reads the clock and is left out of `CartHealth`.
- The image and slug fields of an item are only used for display and are not modelled.
- JavaScript numbers are exact reals. IEEE-754 rounding, infinities and `-0` are not modelled.
- `parseFloat` on a string price is not modelled. A non-number price is represented by the number `parseFloat` reads from it. `parseInt` is modelled on numbers only, so its reading of a number's decimal text (for example `1e21`) is not modelled.
- Ids: an integer number, a non-empty or empty string, or any other value (`NoId`). All other values are treated as one id, so the difference between `undefined` and `null` in `===` is not modelled.
- Fractional and NaN number ids are not modelled. A NaN id would always be reported as a duplicate, because `ids.indexOf(NaN)` is -1 and never equals the id's own position (`utils/cartValidation.js:82`).
- ErrorReport: its own contract states only emptiness and the length bound, because quantified facts in the contract of this widely used recursive function make its callers too costly to verify. One entry per invalid item, cart order, soundness and completeness are proved in ErrorReportCountsInvalidItems, ErrorReportInCartOrder, ErrorReportSound and ErrorReportComplete.
- RepeatedIds: its own contract states only which ids appear, for the same reason. The count of each id is proved in RepeatedIdsCountsLaterOccurrences, and the order (the t-th listed id is the id at the t-th later occurrence) in RepeatedIdsAtLaterPositions.
- Without: its own contract states membership and a length bound. The count of each entry is proved in RemoveKeepsOtherOccurrences and the order in RemoveKeepsOrder.
- A name that is not a string counts as missing. Stock values other than `undefined` or a number are not modelled. JavaScript would coerce `null` to 0 in `quantity > stock`.
- The text of error and warning messages (how JavaScript prints the values) is not modelled. The errors and warnings are datatypes that carry those values. The success message of the merge is modelled as text.
- CartStore.Cart.AddItem: the default quantity of 1 is supplied by the caller. A quantity of a type other than a number is not modelled, so JavaScript's string concatenation in `item.quantity + quantity` is not covered.
- CartStore.Cart.Rehydrate: models the rehydration callback when there is a stored state and a browser window. With no state or no window, the callback does nothing.

## Findings

| source | as written | input that shows it | evidently intended | confidence | as-written member | corrected member |
|---|---|---|---|---|---|---|
| utils/cartValidation.js:265-266 | `getCartHealth` appends `calculateCartTotals(items).validation` errors and warnings to those of `validateCart(items)`. Both come from the same validation, so each error and each warning is listed twice. | a cart with one item whose price is -1: one invalid item, two error entries | each error and warning listed once | medium, not executed | CartValidation.HealthAsWrittenCountsOneErrorTwice | CartValidation.GetCartHealth |
