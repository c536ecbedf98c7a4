# Shopping cart state machine

A model of the shopping-cart widget in `src/App.js`: a single React component
whose `useState` hooks hold the cart lines (`items`), the add/edit form
(`newItem`, `newQuantity`), the edit mode (`isEditing`, `currentItemIndex`),
the search term, the receipt modal (`receipt`, `error`) and the form's
validation message (`itemError`).

- `ShoppingCart.dfy`: class `App`, one field per hook, one method per event
  handler. Each method is an atomic transition that reads the state as it was
  when the event fired (what the handler's closure sees) and writes exactly the
  fields whose setters the handler calls (its `modifies` frame). `Valid()` is
  the invariant the handlers keep: edit mode holds exactly when a resolved line
  index (never -1) is recorded.
- `CartLines.dfy`: the list transforms the handlers apply (`find`, `findIndex`,
  the merge and quantity `map`s, the index `filter`, the `reduce` total, the
  receipt `map`, the search `filter`). Each is a recursive function, and a
  lemma beside it says what it computes. Further lemmas cover totals, name
  uniqueness and the search result.
- `Strings.dfy`: JavaScript's `trim` (its exact whitespace set), an ASCII
  `toLowerCase`, `includes`, and how a template literal writes an integer
  (with a round-trip back to the number).
- `Wrappers.dfy`: `Option`, for the hooks that hold `null` or a value.
- `Scenarios.dfy`: event sequences checked against the handlers' contracts
  alone. Adding "Apple" twice gives one line with quantity 5. Invalid input is
  rejected. Edit-then-save replaces in place, and can create a duplicate name.
  The receipt of `[Apple x2, Pear x1]` is checked. Closing the modal twice is
  the same as closing it once. The search "ap" keeps Apple and Grape.
  Removing at -1 changes nothing. Removing a line before the one being edited
  leaves a stale position: the save either appends or overwrites the neighbour.

Behaviour kept as the code has it:
- The name is checked with `trim()` but stored and compared untrimmed.
- The idle merge adds the quantity to every line with that exact name, not
  only the first.
- Saving in edit mode overwrites the recorded position without any merge or
  collision check. `ReplaceAtUniqueIff` states exactly when that creates a
  duplicate name.
- The edit position is recorded once, when editing begins. Removing a line
  before it shifts the cart but not the position. If the position is still
  inside the cart, the save overwrites whichever line now sits there. If it is
  exactly one past the end, the write `updatedItems[currentItemIndex] = …`
  (src/App.js:38-39) appends the line.
- Entering edit mode resolves the shown line by name to the first cart line
  with that name. With duplicate names, editing a later duplicate stages and
  overwrites the first one.
- Remove and update take a cart index, which the page computes by name with
  `items.findIndex` (src/App.js:153, src/App.js:161). With duplicate names,
  removing or changing the quantity of a later duplicate acts on the first
  line with that name. A missing name gives -1, and both handlers then leave
  the cart unchanged.
- Quantity updates have no lower bound, so the receipt can show a zero or
  negative quantity (rendered with a minus sign).

Beginning an edit of a shown line that no cart line resolves would make
`handleEditItem` read `items[-1].name` and throw. That case cannot arise in
the model: `HandleEditItem` takes an index into the shown list, and
`FilteredLineResolves` proves that such a line always resolves.

## Model

| member | source | states |
|---|---|---|
| `Strings.TrimStartIsLongestSuffix` | src/App.js:19 | The result is the longest suffix of the input that does not start with a JavaScript whitespace character; everything dropped is whitespace. |
| `Strings.TrimEndIsLongestPrefix` | src/App.js:19 | The result is the longest prefix that does not end with whitespace; everything dropped is whitespace. |
| `Strings.TrimEmptyIffBlank` | src/App.js:19 | `trim()` yields `''` exactly when every character of the name is whitespace. |
| `Strings.LowerIsPointwise` | src/App.js:100 | Lower-casing keeps the length, maps each character through the ASCII rule and leaves no upper-case letter. |
| `Strings.LowerIdempotent` | src/App.js:100 | Lower-casing twice is lower-casing once. |
| `Strings.ContainsIffOccurs` | src/App.js:100 | `includes` holds exactly when the term occurs in the string at some offset. |
| `Strings.ContainsEmpty` | src/App.js:100 | Every name includes the empty term. |
| `Strings.NatToString` | src/App.js:82 | The rendering of a non-negative quantity is non-empty, all digits, has no leading zero, and reads back as the same number. |
| `Strings.IntToString` | src/App.js:82 | A quantity renders with a leading `-` exactly when it is negative, digits after it with no leading zero (a lone `0` aside), and reads back as the same integer. |
| `CartLines.FindIndexIsFirstMatch` | src/App.js:67 | `findIndex` by name gives -1 exactly when no line has the name, and otherwise the first index whose line has it. |
| `CartLines.FindAtFindIndex` | src/App.js:26 | `find` gives nothing exactly when no line has the name, and otherwise the line at the index `findIndex` reports: the first line with that name. |
| `CartLines.MergeAddsToMatching` | src/App.js:29-35 | Same length; every line with the name gets quantity plus the added amount; every other line is identical. |
| `CartLines.TotalMerge` | src/App.js:30-34 | A merge raises the total by the added amount times the number of lines with that name. |
| `CartLines.CountUnique` | src/App.js:26 | With unique names a name is on at most one line, and on one exactly when `find` finds it. |
| `CartLines.IdleAddKeepsUniqueNames` | src/App.js:28-45 | Both idle paths keep names unique: the merge, and the append of a name `find` did not find. |
| `CartLines.ReplaceAtUniqueIff` | src/App.js:36-40 | Overwriting a line of a cart with unique names keeps them unique if and only if no other line has the new name. |
| `CartLines.RemoveAtDropsIndex` | src/App.js:53 | For an index in range the result is the cart without that position, others in order; any other index gives the cart unchanged. |
| `CartLines.TotalRemoveAt` | src/App.js:53 | Removing a line lowers the total by that line's quantity. |
| `CartLines.SetQuantityAtSetsIndex` | src/App.js:59-61 | For an index in range only that line's quantity becomes the new value, with no lower bound, and names and length are kept; any other index gives the cart unchanged. |
| `CartLines.TotalSetQuantityAt` | src/App.js:59-61 | Updating a quantity changes the total by the new minus the old quantity. |
| `CartLines.TotalAppend` | src/App.js:80 | The `reduce` total of a concatenation is the sum of the totals; appending a line adds its quantity. |
| `CartLines.TotalAtLeastLength` | src/App.js:80 | When every quantity is at least 1, the total is at least the number of lines. |
| `CartLines.MapEach` | src/App.js:81 | `map` keeps the length and applies the callback at every position, in order. |
| `CartLines.ReceiptLinesFormatEach` | src/App.js:81-83 | One receipt line per cart line, in cart order, each the formatted line. |
| `CartLines.FormatLineParts` | src/App.js:82 | A receipt line is the name, then `" - Qtd:  "`, then text that reads back as the quantity. |
| `CartLines.FilteredKeepsMatching` | src/App.js:99-101 | The search result is no longer than the cart; a line is in it if and only if it is in the cart and its lower-cased name includes the lower-cased term. |
| `CartLines.FilteredIsSubsequence` | src/App.js:99-101 | The search result is a subsequence of the cart (order preserved). |
| `CartLines.FilteredMultiset` | src/App.js:99-101 | Each matching line appears in the result as many times as in the cart, a non-matching line never. |
| `CartLines.FilteredEmptyTerm` | src/App.js:99-101 | An empty search term yields the whole cart. |
| `CartLines.FilteredIdempotent` | src/App.js:99-101 | Searching the search result again with the same term changes nothing. |
| `CartLines.FilteredLineResolves` | src/App.js:67 | A line shown in the search result is always found in the cart by its name (`findIndex` is not -1). |
| `ShoppingCart.CopyWithLineAt` | src/App.js:38-39 | Copying the cart into a fresh array and writing one slot gives the cart with exactly that position replaced; writing one past the end appends the line. |
| `ShoppingCart.App.constructor` | src/App.js:6-14 | The initial hook values: empty cart and form, quantity 1, not editing, no index, receipt, error or item error. |
| `ShoppingCart.App.SetNewItem` | src/App.js:116 | The name field stores the typed text as is. |
| `ShoppingCart.App.SetNewQuantity` | src/App.js:123 | The quantity field stores the parsed number, except that 0 falls back to 1. |
| `ShoppingCart.App.SetSearchTerm` | src/App.js:136 | The search field stores the typed text. |
| `ShoppingCart.App.HandleAddItem` | src/App.js:17-49 | Invalid input sets the item error and changes nothing else. Valid input clears the error, resets the form to `''` and 1, and leaves edit mode off. Idle with the name present, the cart becomes the merge. In edit mode the recorded position is overwritten, or the line is appended when the position is one past the end, and edit mode ends. Idle with a new name, the line is appended. `Valid()` is kept. |
| `ShoppingCart.App.HandleRemoveItem` | src/App.js:52-55 | The cart becomes the index removal of the old cart; nothing else changes. |
| `ShoppingCart.App.HandleUpdateQuantity` | src/App.js:58-63 | The cart becomes the old cart with that position's quantity set; nothing else changes. |
| `ShoppingCart.App.HandleEditItem` | src/App.js:66-72 | Edit mode is on. The recorded index is the first cart position with the shown line's name, and is in range. The form holds that position's name and quantity. The cart is untouched. |
| `ShoppingCart.App.HandleFinalizePurchase` | src/App.js:75-90 | An empty cart sets the error and clears the receipt. Otherwise the receipt holds the formatted lines in order and the total quantity, and the error is cleared. |
| `ShoppingCart.App.HandleCloseModal` | src/App.js:93-96 | Receipt and error are both cleared; nothing else changes, so a second call changes nothing. |

## Left out

- Rendering: the JSX markup, CSS, the modal and the list views (src/App.js:104-219) are presentation only.
- React's `useState` machinery and batched asynchronous updates. Each handler is one atomic transition over the state it saw when the event fired.
- `parseInt` of the text in the quantity inputs. The model takes the parsed integer, so a NaN quantity (from an empty field in a line's quantity input) is not modelled. The `|| 1` fallback is modelled only for 0.
- Unicode `toLowerCase`: only ASCII letters are lower-cased.
- JavaScript numbers are doubles, so the total and quantity sums lose precision past 2^53. Integers here are unbounded.
- Strings.IntToString: writes every integer as plain digits, while a JavaScript template literal writes numbers of 1e21 and above in exponent form (`1e+21`).
- ShoppingCart.App.HandleAddItem: requires the recorded edit position to be at most the cart's length on the edit-save path. A position inside the cart overwrites that line, and one equal to the length appends; both are modelled. A position beyond the length, reached by removing two or more lines at or before the edited position, makes JavaScript grow the array with holes, and sparse arrays are not modelled.
- ShoppingCart.App.HandleEditItem: requires an index into the shown list, which is the only index the page passes. An out-of-range index would make the handler throw in JavaScript, and that is not modelled.
