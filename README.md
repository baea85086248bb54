# Zan-Co storefront: verified model of the in-memory logic

This project models, in Dafny, the in-memory logic of a small React
storefront selling clothing in naira, and proves properties of it:

- the shopping cart: lines keyed by product id, size and colour;
  add, remove, set quantity, clear, totals, and loading saved rows
  against the catalog;
- the constant product catalog;
- the product page's quantity selector and its "add to cart" loop;
- the cart page's shipping rule and free-shipping hint;
- the sign-up password rules;
- the mock authentication context;
- the storefront's search and category filter;
- the header's search dropdown;
- the admin inventory tab;
- the admin product dialog;
- the payment page's countdown;
- the join of orders with customer profiles.

One Dafny module per source file:

- `Catalog`, `CartContext`, `ProductDetails`, `CartPage`, `PasswordValidation`, `AuthContext`, `StoreIndex`, `SearchDropdown`, `Inventory`, `ProductDialog`, `PaymentInstructions`, `Orders`.
- Two shared modules:
  - `Common`: `Option`, `Min`/`Max`, and an order-preserving `FilterSeq` standing for every `Array.prototype.filter`.
  - `Text`: ASCII lower-casing, substring search, the JavaScript white-space set and `trim`, `join`, decimal digits, `padStart`.

Code that keeps state is a class whose methods update its fields:

- the cart's `items`;
- the auth map and current user;
- the dropdown's search state;
- the stock editor;
- the product dialog;
- the payment page's countdown and navigation history.

Each method is proved against a specification function or a stated new state. The pure parts (filters, sums, classifications, formatting, the join) are functions with lemmas. A loop in the source is a loop here:

- building the cart from rows (`BuildCartItems`);
- calling `addItem` once per unit (`ProductPage.HandleAddToCart`);
- ticking the countdown to expiry (`RunToExpiry`).

`Validate` is straight-line code, as in the hook: three conditional pushes onto the list of missing rules, then a join.

## Model

| member | source | states |
|---|---|---|
| Common.FilterSeq | src/pages/Index.tsx:12-16 | every kept element satisfies the predicate and comes from the input; every input element satisfying it is kept |
| Common.FilterIsSubsequence | src/pages/Index.tsx:12 | a filter result is a subsequence of its input (original order kept) |
| Common.FilterIdempotent | src/pages/Index.tsx:12 | filtering twice with the same predicate equals filtering once |
| Common.FilterCount | src/pages/Index.tsx:12 | a filter keeps every copy of a kept element and no copy of a dropped one |
| Text.ToLower | src/pages/Index.tsx:13 | `toLowerCase`: same length, each character lower-cased on its own |
| Text.Contains | src/pages/Index.tsx:13 | `includes`: true when the needle is a prefix; never true for a needle longer than the haystack |
| Text.ContainsNotLonger | src/pages/Index.tsx:13 | a string never includes a longer one |
| Text.ContainsEmpty | src/pages/Index.tsx:13 | every string includes the empty string |
| Text.TrimStart | src/components/search/SearchDropdown.tsx:30 | the suffix left after removing leading white space: everything removed is white space, and the rest does not start with it |
| Text.TrimEnd | src/components/search/SearchDropdown.tsx:30 | the prefix left after removing trailing white space: everything removed is white space, and the rest does not end with it |
| Text.BlankIffTrimEmpty | src/components/search/SearchDropdown.tsx:30 | `!s.trim()` holds exactly when every character of `s` is white space (`IsBlank`) |
| Text.ToLowerIdempotent | src/pages/Index.tsx:13 | lower-casing an already lower-cased string changes nothing |
| Text.ContainsAt | src/pages/Index.tsx:13 | `includes` holds exactly when the needle occurs at some index of the haystack |
| Text.NatToStringRoundTrip | src/pages/PaymentInstructions.tsx:48 | reading back the decimal digits of `n.toString()` gives `n` |
| Text.Join | src/hooks/usePasswordValidation.ts:24 | `parts.join(sep)` of a non-empty list starts with its first part |
| Text.JoinAppend | src/hooks/usePasswordValidation.ts:24 | joining two non-empty lists end to end is their joins with one separator between |
| Text.PadStart | src/pages/PaymentInstructions.tsx:48 | `padStart` result has length max(width, len), ends with the original string, and is padded only with the pad character |
| Catalog.CatalogIdsDistinct | src/data/products.ts:20-174 | no two catalog products share an id |
| Catalog.CategoriesShape | src/data/products.ts:176 | the category list starts with "All", has no other "All" and no repeats |
| Catalog.CatalogCategoriesListed | src/data/products.ts:20-176 | every product's category is a listed category other than "All" |
| Catalog.CatalogPricesAndStocksPositive | src/data/products.ts:20-174 | every catalog product has positive price and positive stock |
| Catalog.FindById | src/pages/ProductDetails.tsx:16 | `find` by id: found iff some product has the id, and then it is the first such product |
| Catalog.FindByIdUnique | src/data/products.ts:20-174 | with distinct ids, looking up a product's id returns that product |
| CartContext.FindLine | src/contexts/CartContext.tsx:117-122 | the index of the first line whose product id, size and colour all equal the key, or none when no line matches |
| CartContext.AddLine | src/contexts/CartContext.tsx:115-151 | an absent key appends one line of quantity 1; a present line at or above the passed stock leaves the list unchanged; otherwise every matching line gains exactly 1 and all others are unchanged |
| CartContext.RemoveLines | src/contexts/CartContext.tsx:159-166 | exactly the lines not matching the key survive |
| CartContext.UpdateLines | src/contexts/CartContext.tsx:176-186 | a quantity below 1 changes nothing; otherwise same length, matching lines get min(quantity, own product's stock), others unchanged |
| CartContext.SumQuantities | src/contexts/CartContext.tsx:207 | the item count reduces from 0: an empty cart counts 0 |
| CartContext.SumQuantitiesAtLeastLines | src/contexts/CartContext.tsx:207 | when every line holds at least one unit, the item count is at least the number of lines |
| CartContext.SumPrices | src/contexts/CartContext.tsx:208-211 | the price total reduces from 0: an empty cart totals 0 |
| CartContext.SumPricesNonNegative | src/contexts/CartContext.tsx:208-211 | with no negative price or quantity the price total is not negative |
| CartContext.SumQuantitiesAppend | src/contexts/CartContext.tsx:207 | the item count of two lists side by side is the sum of their counts |
| CartContext.SumPricesAppend | src/contexts/CartContext.tsx:208-211 | the price total of two lists side by side is the sum of their totals |
| CartContext.SumsAfterIncrementAt | src/contexts/CartContext.tsx:135-141 | incrementing one line raises the count by 1 and the total by that line's price |
| CartContext.AddLineTotals | src/contexts/CartContext.tsx:126-143 | with unique keys an accepted add raises the count by exactly 1 and the total by the unit price of the line it grew or appended; a refused add changes neither |
| CartContext.ExampleCartTotals | src/contexts/CartContext.tsx:207-211 | two 6000 tees and one 10000 cap give 3 items worth 22000 |
| CartContext.AddLinePreservesNoDuplicateKeys | src/contexts/CartContext.tsx:117-143 | `addItem` never creates two lines with one key |
| CartContext.FilterPreservesNoDuplicateKeys | src/contexts/CartContext.tsx:161-166 | any filter of a list with unique keys has unique keys |
| CartContext.RemoveLinesPreservesNoDuplicateKeys | src/contexts/CartContext.tsx:159-166 | `removeItem` keeps keys unique |
| CartContext.UpdateLinesPreservesNoDuplicateKeys | src/contexts/CartContext.tsx:176-186 | `updateQuantity` keeps keys unique |
| CartContext.RemoveLinesCount | src/contexts/CartContext.tsx:161-166 | every copy of a line that does not match the key survives, and no copy of a matching one |
| CartContext.RemoveLinesKeepsOrder | src/contexts/CartContext.tsx:161 | the surviving lines keep their original order |
| CartContext.RemoveLinesAbsentKey | src/contexts/CartContext.tsx:161-166 | removing a key no line has changes nothing |
| CartContext.RemoveLinesIdempotent | src/contexts/CartContext.tsx:161-166 | removing the same key twice equals removing it once |
| CartContext.UpdateLinesWithinStock | src/contexts/CartContext.tsx:184 | after an accepted update every matching line is within its stock, and at least 1 when its stock is |
| CartContext.UpdateLinesIdempotent | src/contexts/CartContext.tsx:176-186 | setting the same quantity twice equals setting it once |
| CartContext.AddLineQuantity | src/contexts/CartContext.tsx:126-143 | the quantity `find` sees for the key: absent becomes 1, below stock gains 1, at or above stock stays |
| CartContext.FindLineAt | src/contexts/CartContext.tsx:117-122 | a matching line with no earlier match is the one `find` returns |
| CartContext.OrUndefined | src/contexts/CartContext.tsx:74-75 | `value \|\| undefined`: absent exactly for null or the empty string, otherwise the value itself |
| CartContext.LinesFromRows | src/contexts/CartContext.tsx:68-78 | at most one line per row, each line's product comes from the catalog |
| CartContext.LinesFromRowsFilterThenMap | src/contexts/CartContext.tsx:68-78 | the load equals: keep, in row order, the rows whose product id is in the catalog, then map each to its line |
| CartContext.BuildCartItems | src/contexts/CartContext.tsx:63-78 | the `forEach`/`push` loop builds exactly `LinesFromRows` |
| CartContext.Cart.TotalItems | src/contexts/CartContext.tsx:207 | the item count, 0 for an empty cart |
| CartContext.Cart.TotalPrice | src/contexts/CartContext.tsx:208-211 | the price total, 0 for an empty cart |
| CartContext.Cart.AddItem | src/contexts/CartContext.tsx:115-151 | new items are `AddLine` of the old; refusal iff the line is at the passed stock, then nothing changes; unique keys kept; an accepted add raises the count by 1 |
| CartContext.Cart.RemoveItem | src/contexts/CartContext.tsx:159-174 | new items are `RemoveLines` of the old; unique keys kept |
| CartContext.Cart.UpdateQuantity | src/contexts/CartContext.tsx:176-194 | new items are `UpdateLines` of the old; quantity below 1 changes nothing; unique keys kept |
| CartContext.Cart.ClearCart | src/contexts/CartContext.tsx:196-197 | the cart is empty and both totals are 0 |
| CartContext.Cart.LoadFromRows | src/contexts/CartContext.tsx:63-80 | the items become the rows resolved against the catalog |
| ProductDetails.Render | src/pages/ProductDetails.tsx:16-31 | not found iff no catalog product has the id; otherwise that product, out of stock iff stock is 0, purchase controls iff not out of stock |
| ProductDetails.CatalogPagesOfferPurchase | src/pages/ProductDetails.tsx:31 | every catalog product's page offers the selector and the add button |
| ProductDetails.Decrement | src/pages/ProductDetails.tsx:97 | minus gives q-1 above 1 and 1 otherwise, never below 1 |
| ProductDetails.Increment | src/pages/ProductDetails.tsx:106 | plus gives q+1 below stock and stock otherwise, never above stock |
| ProductDetails.SelectorStaysInRange | src/pages/ProductDetails.tsx:97-106 | from a value in [1, stock] both buttons stay in [1, stock] |
| ProductDetails.AddRepeatedlyQuantity | src/pages/ProductDetails.tsx:33-38 | n variant-less adds: an absent line ends at max(1, min(n, stock)) (none for n = 0), a line at q ends at max(q, min(q+n, stock)) |
| ProductDetails.AddRepeatedlyPreservesNoDuplicateKeys | src/pages/ProductDetails.tsx:33-38 | the add loop never creates a second line with an existing key |
| ProductDetails.AddToCartFromSelector | src/pages/ProductDetails.tsx:33-38 | with q in [1, stock]: an absent line ends at q, a line at old ≤ stock ends at min(old+q, stock) |
| ProductDetails.ProductPage.Minus | src/pages/ProductDetails.tsx:97 | quantity becomes `Decrement` of the old and stays in [1, stock] |
| ProductDetails.ProductPage.Plus | src/pages/ProductDetails.tsx:106 | quantity becomes `Increment` of the old and stays in [1, stock] |
| ProductDetails.ProductPage.HandleAddToCart | src/pages/ProductDetails.tsx:33-38 | the cart receives exactly `quantity` variant-less adds, then the quantity is back to 1 |
| CartPage.Shipping | src/pages/Cart.tsx:17-18 | 0 iff the subtotal exceeds 30000, 2500 otherwise |
| CartPage.OrderTotal | src/pages/Cart.tsx:19 | between subtotal and subtotal + 2500, equal to the subtotal iff above 30000 |
| CartPage.FreeShippingHint | src/pages/Cart.tsx:81-83 | shown iff the subtotal is below 30000, with the positive amount that reaches 30000 |
| CartPage.ThresholdIsCharged | src/pages/Cart.tsx:17-18 | at exactly 30000 the fee is charged and no hint shown |
| CartPage.Render | src/pages/Cart.tsx:14-41 | an empty list shows the empty state; otherwise the summary of the cart's totals, shipping, total and hint |
| CartPage.SummaryFreeShippingOrHint | src/pages/Cart.tsx:17-83 | free shipping and the hint never show together; neither shows only at exactly 30000 |
| PasswordValidation.Missing | src/hooks/usePasswordValidation.ts:20-23 | each requirement is listed iff its flag fails; the list is empty iff the password is valid; the listed ones appear once each, in the order length, number, special character |
| PasswordValidation.Validate | src/hooks/usePasswordValidation.ts:11-35 | length ≥ 8, some ASCII digit, some listed special character, valid iff all three; message as `ExpectedMessage` |
| PasswordValidation.EmptyPasswordInvalidSilent | src/hooks/usePasswordValidation.ts:16-19 | the empty password is invalid and has no message |
| PasswordValidation.ExpectedMessage | src/hooks/usePasswordValidation.ts:18-25 | the message is empty iff the password is empty or valid, else it starts with "Password needs: " |
| PasswordValidation.AbcMissesAll | src/hooks/usePasswordValidation.ts:20-23 | "abc" misses length, number and special character, in that order |
| PasswordValidation.NoAlphanumericSpecial | src/hooks/usePasswordValidation.ts:15 | no letter or digit counts as a special character |
| PasswordValidation.AllMissingMessage | src/hooks/usePasswordValidation.ts:20-24 | "abc" lists length, number and special character in that order, comma separated |
| PasswordValidation.OnlySpecialMissingMessage | src/hooks/usePasswordValidation.ts:20-24 | "password1" lacks only the special character |
| AuthContext.Auth.IsAuthenticated | src/contexts/AuthContext.tsx:85 | signed in iff there is a current user |
| AuthContext.Auth.Login | src/contexts/AuthContext.tsx:21-41 | success iff an entry exists with that password, then the stored user is current and has the email used to sign in; on failure the user is unchanged; the map never changes |
| AuthContext.Auth.Register | src/contexts/AuthContext.tsx:43-71 | refused iff the email is known, then nothing changes; else exactly one USER entry is added and becomes current; no entry is overwritten |
| AuthContext.Auth.Logout | src/contexts/AuthContext.tsx:73-79 | no current user, map unchanged |
| AuthContext.RegisterThenLogin | src/contexts/AuthContext.tsx:21-79 | after a successful registration and a logout, logging in with the same email and password succeeds as the registered user; a refused registration leaves the current user unchanged |
| AuthContext.RegistrationKeepsLogins | src/contexts/AuthContext.tsx:43-64 | adding a new email never stops an existing account from accepting its password |
| StoreIndex.FilteredProducts | src/pages/Index.tsx:11-17 | a product is shown iff its name or description contains the search ignoring case and the category is "All" or equal |
| StoreIndex.FilteredKeepsOrder | src/pages/Index.tsx:12 | the result keeps catalog order |
| StoreIndex.FilteredIdempotent | src/pages/Index.tsx:12 | filtering the result again changes nothing |
| StoreIndex.EmptySearchAllShowsEverything | src/pages/Index.tsx:9-14 | the initial empty search with "All" shows the whole catalog |
| StoreIndex.SearchIgnoresCase | src/pages/Index.tsx:13 | a search and its lower-cased form show the same products |
| StoreIndex.SearchIgnoresCategoryField | src/pages/Index.tsx:13 | the search never reads the category |
| StoreIndex.CategoryIsCaseSensitive | src/pages/Index.tsx:13-14 | the first product is not in "tees" but is in "Tees", and "CLASSIC" finds it |
| SearchDropdown.SearchResults | src/components/search/SearchDropdown.tsx:43-48 | a product is listed iff its lower-cased name, description or category contains the lower-cased search |
| SearchDropdown.SearchResultsKeepOrder | src/components/search/SearchDropdown.tsx:43 | results keep catalog order |
| SearchDropdown.SearchIsNotTrimmed | src/components/search/SearchDropdown.tsx:30-47 | "cap" finds a product named "Cap" but "cap " does not: only the blank test trims |
| SearchDropdown.ResultNoun | src/components/search/SearchDropdown.tsx:88 | "product" iff exactly one result, "products" otherwise |
| SearchDropdown.Dropdown.SetSearch | src/components/search/SearchDropdown.tsx:29-40 | blank text clears results, closes and clears the searched flag; other text opens in the loading state |
| SearchDropdown.Dropdown.TimerFires | src/components/search/SearchDropdown.tsx:42-51 | results become `SearchResults` of the catalog and loading ends |
| SearchDropdown.Dropdown.Focus | src/components/search/SearchDropdown.tsx:69 | focus opens the list when the search is not blank and otherwise leaves it as it was; search, results and loading unchanged |
| SearchDropdown.Dropdown.ClickOutside | src/components/search/SearchDropdown.tsx:18-27 | a press outside closes the list and changes nothing else |
| SearchDropdown.Dropdown.PickResult | src/components/search/SearchDropdown.tsx:94-97 | following a result closes the list, empties the search and the results, clears the searched flag and leaves loading as it was |
| SearchDropdown.Dropdown.DropdownShown | src/components/search/SearchDropdown.tsx:78 | the list shows iff open and signed in |
| SearchDropdown.InputDisabled | src/components/search/SearchDropdown.tsx:70 | the input is disabled iff nobody is signed in |
| Inventory.LowStockCount | src/components/admin/InventoryTab.tsx:19 | counts stock in 1..10; 0 iff no such product |
| Inventory.OutOfStockCount | src/components/admin/InventoryTab.tsx:20 | counts stock 0; 0 iff no such product |
| Inventory.TotalValue | src/components/admin/InventoryTab.tsx:21 | the value reduces from 0: no products, or no stock anywhere, is worth 0 |
| Inventory.TotalValueAppend | src/components/admin/InventoryTab.tsx:21 | the value of two lists side by side is the sum of their values |
| Inventory.TotalValueNonNegative | src/components/admin/InventoryTab.tsx:21 | with no negative price or stock the value is not negative |
| Inventory.Cards | src/components/admin/InventoryTab.tsx:18-21 | the four cards for a loaded list, all 0 when no list was fetched; low plus out never exceeds the total |
| Inventory.LowAndOutDisjoint | src/components/admin/InventoryTab.tsx:19-20 | no product is counted both low and out of stock |
| Inventory.Status | src/components/admin/InventoryTab.tsx:108 | out iff stock 0, low iff non-zero and ≤ 10, ok iff above 10 |
| Inventory.OutRowsMatchCard | src/components/admin/InventoryTab.tsx:20 | rows badged out are exactly those the out-of-stock card counts |
| Inventory.LowRowsMatchCard | src/components/admin/InventoryTab.tsx:19 | with no negative stock, rows badged low are exactly those the low-stock card counts |
| Inventory.NegativeStockBadgedLowButUncounted | src/components/admin/InventoryTab.tsx:19-20 | a stock of -1 is badged low yet counted by neither card |
| Inventory.StatusesPartition | src/components/admin/InventoryTab.tsx:108 | out, low and ok rows add up to the list length |
| Inventory.StockPercentage | src/components/admin/InventoryTab.tsx:107 | the bar is the stock capped at 100 |
| Inventory.StockEditor.IsEditing | src/components/admin/InventoryTab.tsx:144-167 | a row shows the editor iff it is the one being edited |
| Inventory.StockEditor.StartEdit | src/components/admin/InventoryTab.tsx:188-191 | editing that row, starting from its stock |
| Inventory.StockEditor.SetNewStock | src/components/admin/InventoryTab.tsx:148 | the typed number, fractional or negative included, is kept as typed; the edited row unchanged |
| Inventory.StockEditor.Cancel | src/components/admin/InventoryTab.tsx:172 | editing ends, nothing sent |
| Inventory.StockEditor.Save | src/components/admin/InventoryTab.tsx:23-26 | saves the row being edited: sends its id with the typed stock as it is; editing ends only when the update succeeds |
| Inventory.EditAndSave | src/components/admin/InventoryTab.tsx:23-26 | whatever number is typed, negative or fractional included, is exactly what is sent |
| ProductDialog.Issues | src/components/admin/ProductDialog.tsx:24-31 | an issue is reported iff its check fails, in schema field order |
| ProductDialog.AcceptedIffNoIssues | src/components/admin/ProductDialog.tsx:24-31 | no issues iff name 1..100, description ≤ 1000, price ≥ 0, image empty/absent/URL, stock an integer ≥ 0, category ≤ 50 |
| ProductDialog.FailingCheckRejects | src/components/admin/ProductDialog.tsx:24-31 | any failing check rejects the form |
| ProductDialog.RejectionCause | src/components/admin/ProductDialog.tsx:24-31 | a rejected form has a failing check |
| ProductDialog.BlankNeedsOnlyName | src/components/admin/ProductDialog.tsx:25 | the reset form fails only for its empty name, and passes once a name is typed |
| ProductDialog.ShowText | src/components/admin/ProductDialog.tsx:62-66 | an absent text shows as "" and a present one as itself |
| ProductDialog.FormOf | src/components/admin/ProductDialog.tsx:59-67 | the edit form carries the stored name, price and stock, and shows every optional text |
| ProductDialog.SendText | src/components/admin/ProductDialog.tsx:87-98 | `value \|\| undefined`: absent iff absent or empty, otherwise the value |
| ProductDialog.InputOf | src/components/admin/ProductDialog.tsx:82-99 | name, price and integer stock sent as typed, empty optional texts sent as absent |
| ProductDialog.EditRoundTrip | src/components/admin/ProductDialog.tsx:59-90 | loading a product and sending it unchanged sends its own fields back, with empty texts as absent |
| ProductDialog.LoadedProductAccepted | src/components/admin/ProductDialog.tsx:24-31 | a stored product within the limits passes the schema as loaded, with no issue reported |
| ProductDialog.Dialog.Editing | src/components/admin/ProductDialog.tsx:81 | the dialog updates iff its product id is a non-empty string |
| ProductDialog.Dialog.Reset | src/components/admin/ProductDialog.tsx:58-78 | the loaded product's values when editing, the blank form with no id, unchanged while loading |
| ProductDialog.Dialog.Edit | src/components/admin/ProductDialog.tsx:118-195 | typing replaces the form values with what was typed; the dialog stays open or closed and keeps its product id |
| ProductDialog.Dialog.Submit | src/components/admin/ProductDialog.tsx:80-102 | nothing sent iff the form is rejected; otherwise an update of the edited id or a create; closes once the request succeeds |
| ProductDialog.Dialog.Cancel | src/components/admin/ProductDialog.tsx:205 | the dialog closes with nothing sent |
| ProductDialog.SaveUntouched | src/components/admin/ProductDialog.tsx:58-101 | saving a loaded product untouched updates it with its own fields |
| PaymentInstructions.TwoDigitsValue | src/pages/PaymentInstructions.tsx:48 | below 100 the padded number has two digits and reads back as itself |
| PaymentInstructions.ClockRoundTrip | src/pages/PaymentInstructions.tsx:48 | both two-digit fields of the display read back as the numbers shown |
| PaymentInstructions.FormatTime | src/pages/PaymentInstructions.tsx:45-49 | at least five characters; exactly `MM:SS` below 100 minutes |
| PaymentInstructions.FormatTimeRoundTrip | src/pages/PaymentInstructions.tsx:45-49 | below 100 minutes MM*60+SS equals the seconds, with SS below 60 |
| PaymentInstructions.StartAndEndDisplays | src/pages/PaymentInstructions.tsx:45-49 | the countdown shows "30:00" at the start and "00:00" at the end |
| PaymentInstructions.Color | src/pages/PaymentInstructions.tsx:87-91 | destructive iff ≤ 60, amber iff 61..300, primary iff above 300 |
| PaymentInstructions.HasOrder | src/pages/PaymentInstructions.tsx:93 | the page renders iff an order id is present and non-empty |
| PaymentInstructions.PaymentPage.Running | src/pages/PaymentInstructions.tsx:27-43 | a tick is scheduled iff time is left and the page has not navigated away (a navigation unmounts it and the cleanup clears the interval) |
| PaymentInstructions.PaymentPage.Tick | src/pages/PaymentInstructions.tsx:27-43 | one tick removes exactly one second; reaching 0 navigates to /checkout and stops |
| PaymentInstructions.PaymentPage.Cancel | src/pages/PaymentInstructions.tsx:72-79 | cancelling on the shown page navigates to /checkout, once, and the countdown stops |
| PaymentInstructions.PaymentPage.ConfirmPaid | src/pages/PaymentInstructions.tsx:61-70 | confirming on the shown page navigates to /, once, and the countdown stops |
| PaymentInstructions.OpenWithoutOrder | src/pages/PaymentInstructions.tsx:20-25 | a page opened without an order navigates to /checkout once and never counts down |
| PaymentInstructions.RunToExpiry | src/pages/PaymentInstructions.tsx:27-43 | a running countdown expires after exactly as many ticks as seconds left, and its only navigation is to /checkout |
| PaymentInstructions.FullCountdown | src/pages/PaymentInstructions.tsx:9-43 | a fresh page with an order expires after exactly 1800 ticks |
| Orders.FirstIndex | src/hooks/useOrders.ts:39 | the first position of an element |
| Orders.Distinct | src/hooks/useOrders.ts:39 | `[...new Set(xs)]`: no duplicates, same members as the input |
| Orders.FirstIndexPrefix | src/hooks/useOrders.ts:39 | appending never moves a first occurrence |
| Orders.DistinctFirstOccurrenceOrder | src/hooks/useOrders.ts:39 | the distinct elements come in the order of their first occurrences |
| Orders.UserIds | src/hooks/useOrders.ts:39 | each order's customer id exactly once, and nothing else |
| Orders.ProfileMap | src/hooks/useOrders.ts:45 | a key for exactly the listed customer ids, each mapped to a profile of that customer |
| Orders.ProfileMapSnoc | src/hooks/useOrders.ts:45 | inserting one more profile changes the map only at that profile's customer, whose entry becomes it |
| Orders.ProfileMapIsLast | src/hooks/useOrders.ts:45 | every entry is the last profile listed for its customer |
| Orders.ProfileMapLastWins | src/hooks/useOrders.ts:45 | a customer's last listed profile is their entry |
| Orders.Lookup | src/hooks/useOrders.ts:49 | `get(id) \|\| null`: none iff the id is not a key |
| Orders.Join | src/hooks/useOrders.ts:45-50 | same length and order; all fields but `profiles` unchanged; `profiles` is the last fetched profile of that customer, none iff no fetched profile has the id, none for every order when no list was fetched |
| Orders.ProfileMapRestrict | src/hooks/useOrders.ts:40-45 | dropping other customers' profiles leaves the map unchanged on the given ids |
| Orders.JoinNeedsOnlyCustomerProfiles | src/hooks/useOrders.ts:39-50 | fetching only the orders' customers' profiles gives the same result as joining with all profiles |

## Left out

- Supabase I/O is not modelled:
  - the cart sync (delete then insert) and the cart query;
  - the order and profile queries;
  - the product create/update requests. Their outcome is a `succeeded` parameter of the methods that await them.
- `localStorage` persistence of the guest cart is not modelled.
- Toasts are not modelled. The "Added to cart" toast fires even when `addItem` refuses at the stock limit.
- `setTimeout` and `setInterval` timing is abstracted: the 800 ms login and register delay, the 500 ms search debounce, and the one-second countdown. A tick, or a timer firing, is one method call.
- `crypto.randomUUID()` is not modelled: `AuthContext.Auth.Register` takes the new id as a parameter.
- URL checking is not modelled: `ProductDialog` takes the verdict of zod's `.url()` parser as a boolean.
- Clipboard copy, `window.open` to WhatsApp and `Intl`/`toLocaleString` formatting are not modelled.
- `Text.ToLower`: lower-cases ASCII letters only. JavaScript's `toLowerCase` also maps other Unicode letters.
- String lengths count code points, not UTF-16 code units. This affects the password length and the dialog's name, description and category limits for text outside the Basic Multilingual Plane.
- `ProductDialog.FormData`: prices and stocks are exact reals. Floating-point rounding and the `NaN` that `z.coerce.number()` can produce are not modelled.
- `Inventory` prices are integers. `Number(p.price)` of a decimal price and the float division in `(stock / 100) * 100` are not modelled.
- `Inventory.StockEditor`: the typed stock is an exact real. Floating-point rounding of `Number(e.target.value)` is not modelled.
- `CartContext.NoDuplicateKeys`: loading rows from the database does not establish unique keys. The cart methods only preserve them when they already hold.
- Where the documented behaviour and the code disagree, the model follows the code:
  - `addItem` appends a line of quantity 1 even for a product with stock 0;
  - `updateQuantity` can set a quantity of 0 when the line's product has stock 0;
  - the inventory editor sends a negative stock unchecked (see `Inventory.EditAndSave`, `Inventory.NegativeStockBadgedLowButUncounted`).
- `Orders.Join`: the order items embedded by the query are carried through, but their own query is not modelled.
