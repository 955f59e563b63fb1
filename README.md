# Pesticide recommendation page — Dafny model

The application is a single React page. A farmer picks a crop, types a
land area in acres and, optionally, a budget, and presses Search. The page
looks up the crop in a fixed table of pesticides. Each pesticide has a
dosage per acre and a cost per unit. The page prices each one for the land
area and drops those whose total cost is above the budget. It then shows
the list, a "No pesticides within budget." notice, or, before any search
that passed its checks, "No results yet.".

This project models that search step:

- `catalog.dfy` (module `Catalog`): the pesticide table as a constant map
  from crop key to an ordered list of entries, and the lookup that falls
  back to the empty list.
- `rounding.dfy` (module `Rounding`): `toFixed(2)` as exact rounding to the
  nearest hundredth, with ties going up.
- `recommendation.dfy` (module `Recommendation`): the pure part of the
  search. It covers the three input checks in their fixed order (crop, then
  land area, then budget), pricing, the order-preserving budget filter, and
  `Recommend`, the whole search as a function from the form to an error or
  the item list.
- `page.dfy` (module `Page`): the page's `pesticides` state as a class
  `App`. Its `Search` method leaves the state untouched when a check fails.
  Otherwise it stores the items, or the one-row notice when no items are
  left. `Outcome` reads the state back as one of three result states.
- `wrappers.dfy`: `Option` and `Result`.

Numbers are exact Dafny `real`s. A numeric form field is `Blank` (the empty
text, which JavaScript treats as false), `Entered(None)` (text that is not a
number) or `Entered(Some(v))`. The totals are kept as the numbers that the
two-decimal strings produced by `toFixed(2)` denote. `Recommend` is a
function, so the same inputs always give the same result.

The crop check rejects only the empty crop (`src/main.jsx:58`). A
non-empty key that the table lacks falls back to the empty list
(`src/main.jsx:73`). The search then ends with the "No pesticides within
budget." notice, even when no budget was given
(`Recommendation.UnknownCropYieldsNothing`).

## Model

| member | source | states |
|---|---|---|
| `Catalog.CatalogWellFormed` | src/main.jsx:12-53 | The table has exactly the eight crops wheat, rice, maize, potato, cotton, sugarcane, soybeans and tomato. Each crop has three entries, and every entry has a positive dosage and a positive cost per unit. |
| `Catalog.Lookup` | src/main.jsx:73 | A crop in the table gives exactly that crop's entries from the table, in order. A crop key that the table lacks gives the empty list. Every entry returned has a positive dosage and cost. |
| `Rounding.Hundredths` | src/main.jsx:75 | The count of hundredths that `toFixed(2)` keeps is the whole number nearest to 100·x, with a tie going up, and it is never negative. |
| `Rounding.Round2` | src/main.jsx:75-76 | `toFixed(2)` of a non-negative value is non-negative and lies within half a hundredth of it: `r - 0.005 <= x < r + 0.005`, so a tie rounds up. |
| `Rounding.Round2Hundredths` | src/main.jsx:75-76 | Every rounded value is a whole number of hundredths, which is what a two-decimal string denotes. |
| `Rounding.Round2Unique` | src/main.jsx:75-76 | The rounding of x is the only whole number of hundredths in `[x - 0.005, x + 0.005)`. |
| `Rounding.Round2Exact` | src/main.jsx:76 | A value that already has two decimals, such as a rounded total dosage, is left unchanged. |
| `Rounding.Round2Idempotent` | src/main.jsx:75-76 | Rounding twice is the same as rounding once. |
| `Rounding.Round2Monotone` | src/main.jsx:75-76 | Rounding never reverses the order of two non-negative values. |
| `Recommendation.Message` | src/main.jsx:59-69 | Each failed check's alert text is a sentence that begins "Please " and ends with a full stop. Their exact texts are pairwise distinct (`MessagesDistinct`). |
| `Recommendation.MessagesDistinct` | src/main.jsx:58-71 | The three alert texts ("Please select a crop.", "Please enter a valid land area.", "Please enter a valid budget.") are pairwise different. |
| `Recommendation.Validate` | src/main.jsx:58-71 | The checks run in order and the first failure wins. The result is MissingCrop exactly when the crop is empty. It is InvalidLandArea exactly when the crop is set and the land area is blank, not a number, or `<= 0`. It is InvalidBudget exactly when both earlier checks pass and a budget was typed that is not a number or is `<= 0`. A success carries the crop and a land area `> 0`. It carries no budget exactly when the budget field was blank, and otherwise a budget `> 0`. |
| `Recommendation.ValidationOrder` | src/main.jsx:58-66 | An empty crop is reported whatever the other two fields hold. A bad land area is reported whatever the budget holds. |
| `Recommendation.Price` | src/main.jsx:74-77 | A priced entry keeps the entry's name, dosage and cost per unit. Both totals are non-negative whole hundredths. The total dosage is within half a hundredth of dosage × area. The total cost is within half a hundredth of the already rounded total dosage × cost per unit. |
| `Recommendation.PriceAll` | src/main.jsx:74-78 | The map gives one item per entry, in the same order. Item i is entry i priced for the area. |
| `Recommendation.FilterBudget` | src/main.jsx:80-82 | The budget filter never lengthens the list. It keeps exactly the items whose total cost is `<=` the budget, so the bound is inclusive. |
| `Recommendation.FilterKeepsOrder` | src/main.jsx:81 | What the filter keeps is a subsequence of its input, so relative order is preserved. |
| `Recommendation.FilterAppend` | src/main.jsx:81 | The filter of a concatenation is the concatenation of the filters: each item is kept or dropped on its own. |
| `Recommendation.FilterKeepsAll` | src/main.jsx:80-82 | The filter returns its input unchanged exactly when every item is within the budget. |
| `Recommendation.Recommend` | src/main.jsx:57-82 | The search fails exactly when a check fails, with that check's error. On success the result has at most as many items as the crop has entries. When a budget was given, every item's total cost is within it. |
| `Recommendation.RecommendWithoutBudget` | src/main.jsx:73-78 | With no budget and passing checks, the result has one item per catalog entry of the crop, in catalog order. Item i is entry i priced for the land area. |
| `Recommendation.RecommendWithBudget` | src/main.jsx:80-81 | With a budget, the result is the budget-free result filtered by the budget. |
| `Recommendation.WheatOneAcre` | src/main.jsx:13-17 | Wheat at one acre with no budget gives Chlorpyrifos 2.00/1000.00, Malathion 1.50/675.00 and Deltamethrin 1.00/600.00. |
| `Recommendation.WheatFiltered` | src/main.jsx:80-81 | For any budget, the wheat items at one acre that are kept are those whose total is `<=` the budget, in catalog order. |
| `Recommendation.WheatOneAcreBudget700` | src/main.jsx:80-81 | Wheat at one acre with a budget of 700 keeps Malathion and Deltamethrin only. |
| `Recommendation.WheatOneAcreBudget675` | src/main.jsx:81 | A budget of exactly 675 still keeps Malathion (675.00), because the bound is inclusive. |
| `Recommendation.WheatOneAcreBudget500` | src/main.jsx:80-84 | A budget below the cheapest total gives an empty list, not an error. |
| `Recommendation.RejectedForms` | src/main.jsx:58-71 | Sample rejections: an empty crop gives MissingCrop. A land area of 0 or -3, or one that is blank or not a number, gives InvalidLandArea, even when the budget is also bad. A budget of -1, or one that is not a number, gives InvalidBudget. |
| `Recommendation.UnknownCropYieldsNothing` | src/main.jsx:73 | A non-empty crop that the table lacks passes the checks and gives an empty list. |
| `Page.Rows` | src/main.jsx:84 | The stored rows are the items, one row per item, in order. |
| `Page.ItemsOf` | src/main.jsx:103-110 | Reading the items out of the rows, with notices skipped, yields no more items than there are rows. An item comes out exactly when the rows hold it as a priced row. |
| `Page.Outcome` | src/main.jsx:103-112 | The results area reads "No results yet." exactly when no rows are stored. It reads as nothing within budget exactly when the only row is the notice "No pesticides within budget.". A listing holds exactly the items of the priced rows. |
| `Page.ItemsOfRows` | src/main.jsx:103-110 | Reading the items back out of their rows gives exactly the items. |
| `Page.Shown` | src/main.jsx:84 | What a passing search stores is never the empty list. |
| `Page.OutcomeOfShown` | src/main.jsx:84 | The stored rows read back as "nothing within budget" exactly when the list is empty, and otherwise as the items themselves. They never read as "No results yet.", so the three result states stay apart. |
| `Page.ReachableOutcome` | src/main.jsx:103-112 | On any page whose rows are the initial empty list or what a passing search stored, a listing is never empty. Its rows are exactly its items, one priced row each, in order. |
| `Page.App.constructor` | src/main.jsx:9 | The page starts with no rows, which reads as "No results yet.". |
| `Page.App.Search` | src/main.jsx:57-85 | A failed check returns the alert text of the first failure and leaves the rows exactly as they were. A passing search returns no alert and stores the priced, budget-filtered items, or the single notice "No pesticides within budget." when none are left. Afterwards the state never reads as "No results yet.". The invariant that the rows are either the initial empty list or what some passing search stored is preserved. |

## Left out

- Rendering: the JSX markup, the `<select>`/`<input>` wiring, the bootstrap styles and `ReactDOM.createRoot` (`src/main.jsx:1-3`, `87-124`). These are presentation only. `Page.Outcome` captures only the three-way distinction that the list markup makes.
- The crop option list (`Object.keys`, `src/main.jsx:55`) and the capitalised option labels (`src/main.jsx:94`). They are presentation only and never change the lookup key.
- The form fields' own state (`src/main.jsx:6-8`) and their change handlers. `Search` takes the fields' current values as a `Form` argument.
- `alert()`: the dialog is a side effect. `Search` returns its text instead.
- Binary floating point: `toFixed(2)` rounds the nearest double, not the exact product, and switches to exponent notation from 1e21 up. The model rounds the exact real value.
- JavaScript string-to-number coercion. `isNaN`, `<= 0` and `parseFloat` can disagree on inputs such as `" "` or `"0x10"`. The model treats a field as blank, not a number, or one number, and uses that single number everywhere.
- The two-decimal strings that `toFixed(2)` produces ("2.00"). The model keeps the numbers they denote (`Rounding.Round2Hundredths`).
- React's asynchronous state updates. `pesticides` is a plain field that `Search` assigns.
- Keys inherited from the JavaScript object prototype, such as `"constructor"`. In the source, `pesticideData["constructor"]` is a function, which is truthy, so `|| []` does not apply and the `.map` call at `src/main.jsx:74` throws. The crop `<select>` offers only the table's own keys, so this input cannot be reached from the page. The model treats such keys as unknown crops.
- Rounding.Round2: models `toFixed(2)` only for non-negative arguments. The search never rounds anything else, because it multiplies a land area greater than 0 by the table's positive dosages and costs.
- Recommendation.Price: does not state that the totals grow with the land area. Only the rounding step is proved monotone (`Rounding.Round2Monotone`). Lifting this through the two products of variable reals, combined with the integer rounding, does not verify reliably.
