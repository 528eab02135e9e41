# Coffee-shop catalog and cart, in Dafny

This project models the catalog-and-cart logic of a single-activity Android
storefront written with Jetpack Compose (`MainActivity.kt`). The app's logic has four parts:

- **Catalog.** Four fixed lists of items: coffee, tea, frappuccino and food, with ids 1 to 14. It also has
  the category lookup `getDrinksByCategory` and the Menu screen's rule for
  which category sections to show under the selected chip.
- **Cart.** An ordered list of `OrderEntry(item, count)`. It changes only through
  the "add" button of an item card. A click finds the entry by item id and
  increments its count, or appends `OrderEntry(item, 1)` if there is no such entry. The same
  `find` gives the quantity badge on each card.
- **Search.** Two case-insensitive substring filters over item titles.
  The home screen searches coffee only, and for a blank query it gives the whole coffee list.
  The menu screen searches all four lists, and for a blank query it gives the empty list.
- **Order summary.** The "N items" count, subtotal, tax and total on the
  Order screen.

Modules:

- `Wrappers` (`wrappers.dfy`): `Option`, the value form of Kotlin's nullable `find` result.
- `Text` (`text.dfy`): `isBlank()` and `contains(q, ignoreCase = true)`.
- `Catalog` (`catalog.dfy`): the item lists, `DrinksByCategory` and `MenuSections`.
- `Search` (`search.dfy`): `Filter`, `HomeSearch`, `MenuSearch` and the lemmas
  saying each is exactly the order-preserving filter.
- `Cart` (`cart.dfy`): `OrderEntry`, the `find` lookup, the specification
  function `AddOneTo`, the badge, and the class `Cart`. Its method `AddOne`
  does a loop-based find (`IndexOf`) and then replaces the entry at its index, or appends a new one.
- `CartPage` (`cart_page.dfy`): the sums on the Order screen, the amounts as displayed, and the
  lemmas about a whole session of clicks.

Prices are natural numbers in thousands of rupiah. Every catalog price is a
whole number, and the app always multiplies a price by 1000 before showing it.
A shown amount is the scaled amount passed through Kotlin's `Double.toInt()`.
For non-negative whole amounts, that conversion saturates at `Int.MAX_VALUE`;
`CartPage.ToInt` models it.

Three behaviours of the code are easy to misread, and this model follows the code as written:

- `getDrinksByCategory("All")` returns the empty list. It never returns a union of the lists.
  The function is declared but never called. The Menu screen renders each
  section from the list itself, and `Catalog.MenuShowsCategory` proves that the result matches the lookup.
- The Menu screen renders the category sections only while the search bar is
  inactive. The home screen's "blank query gives the whole coffee list" result is computed but never shown:
  results are rendered only under `searchQuery.isNotBlank()` (`MainActivity.kt:450`). Which of these the screen displays depends on the UI state flag `isSearchActive`.
  That flag is not modelled: the filters are modelled as the values they compute.
- The Order screen shows no summary for an empty cart: the item count, subtotal, tax and total
  are rendered only in the `else` branch of `if (cart.isEmpty())`, and an empty cart shows only
  "Your cart is empty". The model's sums are values, so for the empty cart they evaluate to 0.

## Model

| member | source | states |
|---|---|---|
| Text.IsBlank | starbuck-app/app/src/main/java/com/example/sbuxapp/MainActivity.kt:286 | `isBlank()`: every character is whitespace (ASCII range); no contract of its own, its properties are in `NonBlankNotEmpty`, `BlankConcat` and `BlankExamples` |
| Text.NonBlankNotEmpty | starbuck-app/app/src/main/java/com/example/sbuxapp/MainActivity.kt:694 | a non-blank query is non-empty and holds a non-whitespace character, so neither filter ever runs on the empty query |
| Text.BlankConcat | starbuck-app/app/src/main/java/com/example/sbuxapp/MainActivity.kt:694 | a query is blank exactly when both of its parts are |
| Text.BlankExamples | starbuck-app/app/src/main/java/com/example/sbuxapp/MainActivity.kt:286 | "", " " and " \t\n" are blank; "a" and " a " are not |
| Text.ContainsIgnoreCase | starbuck-app/app/src/main/java/com/example/sbuxapp/MainActivity.kt:290 | `contains(q, ignoreCase = true)`: `indexOf` finds an index; no contract of its own, its meaning is stated by `ContainsIffOccurs` and `ContainsIffLowerSubstring` |
| Text.IndexOfIgnoreCase | starbuck-app/app/src/main/java/com/example/sbuxapp/MainActivity.kt:698 | the index found is the first position at or after `from` where the query occurs ignoring case, and None means it occurs at no such position |
| Text.ContainsIffLowerSubstring | starbuck-app/app/src/main/java/com/example/sbuxapp/MainActivity.kt:698 | `contains(q, ignoreCase = true)` holds exactly when the lower-cased query is a substring of the lower-cased title |
| Text.ContainsIffOccurs | starbuck-app/app/src/main/java/com/example/sbuxapp/MainActivity.kt:290 | containment holds exactly when the query matches the title at some index, ignoring case |
| Text.QueryCaseIrrelevant | starbuck-app/app/src/main/java/com/example/sbuxapp/MainActivity.kt:698 | two queries that differ only in letter case select the same titles |
| Text.EmptyQueryContained | starbuck-app/app/src/main/java/com/example/sbuxapp/MainActivity.kt:698 | every title contains the empty query, which is why both screens check for a blank query first |
| Text.MissingFirstCharNoMatch | starbuck-app/app/src/main/java/com/example/sbuxapp/MainActivity.kt:290 | a title in which the query's first letter never occurs, in either case, does not match |
| Catalog.CatalogIds | starbuck-app/app/src/main/java/com/example/sbuxapp/MainActivity.kt:46-70 | the catalog has 14 items, numbered 1..14 in list order, so ids are distinct across all four lists |
| Catalog.CatalogIdDetermines | starbuck-app/app/src/main/java/com/example/sbuxapp/MainActivity.kt:46-70 | two catalog items with the same id are the same item |
| Catalog.CategoriesDisjoint | starbuck-app/app/src/main/java/com/example/sbuxapp/MainActivity.kt:46-70 | no item belongs to two of the four lists |
| Catalog.DrinksByCategory | starbuck-app/app/src/main/java/com/example/sbuxapp/MainActivity.kt:703-711 | "Coffee", "Tea", "Frappuccino" and "Food" give exactly their fixed lists; any other name, "All" included, gives the empty list; results always come from the catalog |
| Catalog.CategoriesCoverCatalog | starbuck-app/app/src/main/java/com/example/sbuxapp/MainActivity.kt:691 | the four category lookups, concatenated in chip order, are the menu search's `allDrinks` |
| Catalog.MenuSections | starbuck-app/app/src/main/java/com/example/sbuxapp/MainActivity.kt:855-936 | "All" shows the Coffee, Tea, Frappuccino and Food sections in that order; one of those names shows only its own section; any other chip shows none |
| Catalog.MenuShowsCategory | starbuck-app/app/src/main/java/com/example/sbuxapp/MainActivity.kt:855-936 | the items the Menu screen shows for "All" are the whole catalog; for any other chip they are exactly `getDrinksByCategory` of that chip |
| Catalog.LabelShowsNothing | starbuck-app/app/src/main/java/com/example/sbuxapp/MainActivity.kt:72-79 | the "Label" chip exists and selects no section and no items; the lookup of "All" is empty |
| Search.Matches | starbuck-app/app/src/main/java/com/example/sbuxapp/MainActivity.kt:698 | the filter predicate `it.title.contains(query, ignoreCase = true)`; no contract of its own, its meaning is `Text.ContainsIffLowerSubstring` applied to the title |
| Search.Filter | starbuck-app/app/src/main/java/com/example/sbuxapp/MainActivity.kt:697-699 | the result is no longer than the input; every result is an input item whose title matches; no matching input item is dropped |
| Search.FilterIsSubsequence | starbuck-app/app/src/main/java/com/example/sbuxapp/MainActivity.kt:697-699 | the filter keeps the input's order: its result is a subsequence of the input |
| Search.FilterCounts | starbuck-app/app/src/main/java/com/example/sbuxapp/MainActivity.kt:697-699 | each matching item occurs in the result as often as in the input, and a non-matching item does not occur |
| Search.FilterAppend | starbuck-app/app/src/main/java/com/example/sbuxapp/MainActivity.kt:691-699 | filtering a concatenation is concatenating the filtered parts |
| Search.FilterUnique | starbuck-app/app/src/main/java/com/example/sbuxapp/MainActivity.kt:697-699 | any subsequence of the input that holds only matching items, each as often as in the input, is the filter's result |
| Search.SubsequenceMultiset | starbuck-app/app/src/main/java/com/example/sbuxapp/MainActivity.kt:697-699 | a subsequence holds no item more often than the list it is taken from |
| Search.HomeSearch | starbuck-app/app/src/main/java/com/example/sbuxapp/MainActivity.kt:286-292 | a blank query returns the coffee list unchanged; otherwise an item is in the result exactly when it is a coffee item whose title contains the query ignoring case |
| Search.HomeSearchFilters | starbuck-app/app/src/main/java/com/example/sbuxapp/MainActivity.kt:286-292 | a non-blank home search is an order-preserving subsequence of the coffee list with every match exactly as often as in that list |
| Search.MenuSearch | starbuck-app/app/src/main/java/com/example/sbuxapp/MainActivity.kt:691-700 | a blank query returns the empty list; otherwise an item is in the result exactly when it is a catalog item whose title contains the query ignoring case |
| Search.MenuSearchFilters | starbuck-app/app/src/main/java/com/example/sbuxapp/MainActivity.kt:691-700 | a non-blank menu search is an order-preserving subsequence of coffee ++ tea ++ frappuccino ++ food with every match exactly as often as in the catalog, listed list by list |
| Search.HomeSearchIsMenuPrefix | starbuck-app/app/src/main/java/com/example/sbuxapp/MainActivity.kt:286-292 | for a non-blank query the home screen's results are the first results of the menu screen's |
| Search.MatchIgnoresCaseExample | starbuck-app/app/src/main/java/com/example/sbuxapp/MainActivity.kt:290 | the query "COFFEE" matches "Coffee 1" |
| Search.BlankQueryExample | starbuck-app/app/src/main/java/com/example/sbuxapp/MainActivity.kt:694-696 | the query " " gives no menu results and the whole coffee list on the home screen |
| Search.HomeSearchCoffeeOnlyExample | starbuck-app/app/src/main/java/com/example/sbuxapp/MainActivity.kt:289-291 | the home screen finds nothing for "tea", because it searches only coffee |
| Cart.FindIndex | starbuck-app/app/src/main/java/com/example/sbuxapp/MainActivity.kt:160 | the position `find` stops at: the first entry with the id, or None when no entry has it |
| Cart.FindFrom | starbuck-app/app/src/main/java/com/example/sbuxapp/MainActivity.kt:160 | the index found is the first entry at or after `from` with the item id, and None means no such entry exists |
| Cart.Find | starbuck-app/app/src/main/java/com/example/sbuxapp/MainActivity.kt:146 | `find` returns an entry exactly when one with the id exists; the entry returned has the id and is the first entry that does |
| Cart.FindUnique | starbuck-app/app/src/main/java/com/example/sbuxapp/MainActivity.kt:1019 | in a well-formed cart, `find` by an entry's id returns that very entry |
| Cart.AddOneTo | starbuck-app/app/src/main/java/com/example/sbuxapp/MainActivity.kt:160-165 | the cart after one click; no contract of its own, its properties are `AddExisting`, `AddNew`, `AddPreservesWellFormed`, `QuantityAfterAdd` and `CartPage.AddOneSums` |
| Cart.AddExisting | starbuck-app/app/src/main/java/com/example/sbuxapp/MainActivity.kt:160-163 | adding an item already in the cart raises the count of its first entry by exactly 1 and keeps that entry's item; the length is unchanged and every other entry is unchanged |
| Cart.AddNew | starbuck-app/app/src/main/java/com/example/sbuxapp/MainActivity.kt:164 | adding an item not in the cart appends `OrderEntry(item, 1)` behind the unchanged earlier entries |
| Cart.AddPreservesWellFormed | starbuck-app/app/src/main/java/com/example/sbuxapp/MainActivity.kt:1032-1037 | add-one keeps at most one entry per item id and every count at least 1 |
| Cart.Quantity | starbuck-app/app/src/main/java/com/example/sbuxapp/MainActivity.kt:146 | the count of the entry `find` returns, 0 when no entry has the id, and never negative in a well-formed cart; `BadgeShowsQuantity` and `QuantityAfterAdd` say more |
| Cart.Badge | starbuck-app/app/src/main/java/com/example/sbuxapp/MainActivity.kt:146-154 | a shown badge is positive and equals the item's quantity |
| Cart.BadgeShowsQuantity | starbuck-app/app/src/main/java/com/example/sbuxapp/MainActivity.kt:1019-1026 | in a well-formed cart the badge shows the count of the unique entry with the id; it is hidden exactly when the item is absent, that is, when its quantity is 0 |
| Cart.QuantityAfterAdd | starbuck-app/app/src/main/java/com/example/sbuxapp/MainActivity.kt:160-165 | one add-one raises the added item's quantity by 1 and leaves every other item's quantity unchanged |
| Cart.Cart.constructor | starbuck-app/app/src/main/java/com/example/sbuxapp/MainActivity.kt:190 | the cart starts empty and well-formed |
| Cart.Cart.IndexOf | starbuck-app/app/src/main/java/com/example/sbuxapp/MainActivity.kt:1032 | the loop finds the first entry with the id, or reports that none has it; this agrees with `FindIndex` |
| Cart.Cart.AddOne | starbuck-app/app/src/main/java/com/example/sbuxapp/MainActivity.kt:1032-1037 | the new entry list is `AddOneTo` of the old list and the item, and a well-formed cart stays well-formed |
| CartPage.ItemCount | starbuck-app/app/src/main/java/com/example/sbuxapp/MainActivity.kt:1203 | `cart.sumOf { it.count }`; no contract of its own, its properties are `SumsNonNegative`, `AddOneSums` and `SessionTotals` |
| CartPage.Subtotal | starbuck-app/app/src/main/java/com/example/sbuxapp/MainActivity.kt:1061 | `cart.sumOf { it.item.price * it.count }` in thousands of rupiah; no contract of its own, its properties are `EmptyCartTotals`, `SumsAppend`, `SumsUpdate`, `AddOneSums` and `AddOneCatalogSubtotal` |
| CartPage.LineAmount | starbuck-app/app/src/main/java/com/example/sbuxapp/MainActivity.kt:1171 | the converted amount on one line; no contract of its own, `LineAmountInRange` and `LinesAddUpToSubtotal` state it |
| CartPage.ShownSubtotal | starbuck-app/app/src/main/java/com/example/sbuxapp/MainActivity.kt:1207 | `(total * 1000).toInt()`; no contract of its own, `TaxIsTenPercent` and `LinesAddUpToSubtotal` state it |
| CartPage.ShownTax | starbuck-app/app/src/main/java/com/example/sbuxapp/MainActivity.kt:1224 | `(total * 100).toInt()`; no contract of its own, `TaxIsTenPercent` states it |
| CartPage.ShownTotal | starbuck-app/app/src/main/java/com/example/sbuxapp/MainActivity.kt:1252 | `((total * 1000) + (total * 100)).toInt()`; no contract of its own, `TaxIsTenPercent` and `TwoCoffeesExample` state it |
| CartPage.LineAmountInRange | starbuck-app/app/src/main/java/com/example/sbuxapp/MainActivity.kt:1171 | a line amount that fits in `Int` is shown exactly as unit price × 1000 × count |
| CartPage.ToInt | starbuck-app/app/src/main/java/com/example/sbuxapp/MainActivity.kt:1207 | an amount that fits in `Int` is converted unchanged, a larger one becomes `Int.MAX_VALUE` and a smaller one `Int.MIN_VALUE` |
| CartPage.SumsNonNegative | starbuck-app/app/src/main/java/com/example/sbuxapp/MainActivity.kt:1203 | in a well-formed cart the "N items" count is at least the number of entries, and the subtotal is non-negative |
| CartPage.EmptyCartTotals | starbuck-app/app/src/main/java/com/example/sbuxapp/MainActivity.kt:1061 | the empty cart's item count, subtotal, tax and total all evaluate to 0 (the screen renders no summary for it) |
| CartPage.TaxIsTenPercent | starbuck-app/app/src/main/java/com/example/sbuxapp/MainActivity.kt:1207-1252 | when the total fits in `Int`, the shown tax is 10% of the shown subtotal, the shown total is their sum, and the total is 1100 rupiah per thousand of subtotal |
| CartPage.LinesAddUpToSubtotal | starbuck-app/app/src/main/java/com/example/sbuxapp/MainActivity.kt:1171 | in a well-formed cart whose shown subtotal fits in `Int`, the amounts shown on the lines add up to the shown subtotal |
| CartPage.SumsAppend | starbuck-app/app/src/main/java/com/example/sbuxapp/MainActivity.kt:1061 | appending an entry adds its count to the item count and its price × count to the subtotal |
| CartPage.SumsUpdate | starbuck-app/app/src/main/java/com/example/sbuxapp/MainActivity.kt:1061 | replacing one entry changes the item count and the subtotal by exactly that entry's difference |
| CartPage.AddOneSums | starbuck-app/app/src/main/java/com/example/sbuxapp/MainActivity.kt:1203 | one add-one raises the "N items" count by 1, and raises the subtotal by the price of the entry that received the unit |
| CartPage.AddOneCatalogSubtotal | starbuck-app/app/src/main/java/com/example/sbuxapp/MainActivity.kt:1061 | for a cart of catalog items, adding a catalog item keeps the cart within the catalog and raises the subtotal by that item's price |
| CartPage.AddAllEffect | starbuck-app/app/src/main/java/com/example/sbuxapp/MainActivity.kt:160-165 | any run of clicks keeps the cart well-formed, adds one unit per click to the item count, and raises each item's quantity by the number of clicks on it |
| CartPage.SessionTotals | starbuck-app/app/src/main/java/com/example/sbuxapp/MainActivity.kt:1203 | starting from the empty cart, after n clicks the label reads n items and each quantity is that item's number of clicks |
| CartPage.TwoCoffeesExample | starbuck-app/app/src/main/java/com/example/sbuxapp/MainActivity.kt:1252 | two clicks on "Coffee 1" give one entry with count 2, a subtotal of 100 thousand, and a shown total of Rp110.000 |

## Left out

- The Compose UI is left out because it is presentation only. This covers layout, cards, icons, colours, lazy lists, the splash screen, the static profile screen, the bottom-tab navigation,
  and the home screen's fixed "favourite" and "popular" rows (`coffeeDrinks.take(3)` and `coffeeDrinks`).
- The `isSearchActive` flag is not modelled. It decides whether search results or category sections are rendered,
  and it is UI state. The filters and the section rule are modelled as the values they compute.
- `remember` and `mutableStateListOf` recomposition is not modelled. The cart is a plain sequence, and the UI observing it is outside the model.
- Image resource ids are left out because they are opaque handles. `CategoryItem.isSelected` is left out because the chips always compare names instead.
- `NumberFormat` digit grouping for the "in-ID" locale and the "Rp" prefix are left out. They are a library formatter, so shown amounts are kept as integers.
- `Double` arithmetic is replaced by exact integers in thousands of rupiah. This is exact for the catalog's whole-number prices.
- Case folding and whitespace cover the ASCII range only. Kotlin's `isWhitespace` also accepts non-ASCII spaces. Kotlin's `contains(…, ignoreCase = true)` compares characters by upper-casing and lower-casing them with full Unicode rules, and that difference reaches the ASCII titles too: 'ı' (U+0131) and 'ſ' (U+017F) upper-case to 'I' and 'S', so the query "Frappuccıno" finds "Frappuccino 1" in the app but not in `Text.ContainsIgnoreCase`.
- Cart.Cart.AddOne: the count is an unbounded integer. Kotlin's 32-bit `count++` would wrap after 2^31 − 1 clicks on one item.
- CartPage.SessionTotals: the "N items" sum is an unbounded integer, with no 32-bit `Int` overflow of `sumOf`.
- Cart.Cart.AddOne: `OrderEntry` is modelled as a value and `count++` as replacing the entry at its index.
  In the source the data class is mutated through the reference that `find` returns. No other reference to it outlives the click.
