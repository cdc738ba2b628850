# umkmpos point-of-sale front end, modelled in Dafny

This project models the rules inside the umkmpos cashier application, a
React point-of-sale front end for small shops. The rules are the event
handlers and the values derived from component state. Each source file of
the core becomes one Dafny module:

- the cashier's cart, its totals and the checkout dialog's step machine;
- the product grid's search and category filter;
- the transaction commit in `src/lib/api.ts`, written against a gateway
  that answers every backend call with success or failure;
- the inventory screens, the product form and the access guard;
- the report widgets: the date-range picker, the best and worst products,
  the demand predictions and the sales figures;
- the settings pages and the dashboard widgets.

Where the source keeps state that its handlers replace, the model has a
class. Each of its methods states the new state as a function of the old.
Pure derivations are functions. Lemmas state what the source promises about
those functions.

Conventions:

- Money is `real`, so the 10% tax is an exact tenth.
- Dates are day numbers.
- `localeCompare` is the lexicographic order on character codes.
- Lower-casing is ASCII only.
- Things the model cannot compute are parameters: the clock, the random
  receipt number and the backend's answers.
- Two modules are shared. `Common` holds the option type, filtering,
  substring search and number parsing. `Sorting` holds a stable insertion
  sort by a key, proved to give a sorted permutation. It stands in for
  `Array.prototype.sort`.

## Model

| member | source | states |
|---|---|---|
| Common.Filter | src/components/settings/UserManagement.tsx:77-81 | `filter` keeps exactly the elements the test accepts, in their original order |
| Common.Distinct | src/components/inventory/InventoryTable.tsx:111 | `[...new Set(xs)]` holds every element of the input exactly once and nothing else |
| Common.DistinctOrder | src/components/inventory/InventoryTable.tsx:111 | the elements of `[...new Set(xs)]` come in the order of their first occurrence in the input |
| Common.EmptyQueryMatches | src/components/settings/UserManagement.tsx:79-80 | a case-insensitive `includes` with an empty query matches every string |
| Common.IncludesAt | src/components/inventory/InventoryTable.tsx:127-128 | `includes` holds exactly when the query occurs at some offset |
| Common.ParseIntOrZero | src/components/cashier/CheckoutModal.tsx:92 | `parseInt(s) \|\| 0` is 0 on text that does not start with a digit |
| Common.ParseShowNat | src/components/cashier/CheckoutModal.tsx:92 | `parseInt` reads the decimal notation of a whole number back as that number |
| Sorting.TextLeTotal | src/components/inventory/InventoryTable.tsx:142-143 | any two texts are ordered one way or the other, so the `localeCompare` stand-in is a total order |
| Sorting.TextLeTransitive | src/components/inventory/InventoryTable.tsx:142-143 | the `localeCompare` stand-in is transitive |
| Sorting.Insert | src/components/inventory/InventoryTable.tsx:134-150 | inserting into a sorted sequence gives a sorted sequence with exactly one more copy of the element |
| Sorting.SortBy | src/components/inventory/InventoryTable.tsx:134-150 | `sort` returns a permutation of its input that is ordered by the comparator |
| Sorting.SortKeepsTies | src/components/inventory/InventoryTable.tsx:134-150 | the sort is stable on ties: when all keys are equal it returns its input unchanged |
| Sorting.Top | src/components/reports/ProductPerformance.tsx:65-66 | `sort(...).slice(0, k)` has `k` elements, or all of them when there are fewer |
| Sorting.TopSorted | src/components/reports/ProductPerformance.tsx:65-66 | the selection is a sub-multiset of the input, in sorted order |
| Sorting.TopBeatsRest | src/components/reports/ProductPerformance.tsx:65-66 | every selected element may stand before every element left out, so the selection is a true top `k` |
| Sorting.SortedUnique | src/components/reports/AIPredictions.tsx:211 | with no repeated keys, two sorted permutations of the same elements are equal |
| Sorting.SortIsSortedPermutation | src/components/reports/AIPredictions.tsx:211 | with no repeated keys, any sorted permutation of the input is what `sort` returns |
| ShoppingCart.FindLine | src/components/cashier/ShoppingCart.tsx:56 | `items.find` finds nothing exactly when no line has the id, and otherwise the first line that has it |
| ShoppingCart.Tax | src/components/cashier/ShoppingCart.tsx:67-69 | the tax is exactly one tenth of the subtotal |
| ShoppingCart.Subtotal | src/components/cashier/ShoppingCart.tsx:63-65 | the sum of price times quantity over the lines, 0 when empty; its properties are stated by `SubtotalAppend`, `SubtotalCons`, `SubtotalNonNegative` and `EmptyCart` |
| ShoppingCart.CheckoutDisabled | src/components/cashier/ShoppingCart.tsx:181 | the checkout button is disabled when there are no lines; `EmptyCart` states the empty case |
| ShoppingCart.Total | src/components/cashier/ShoppingCart.tsx:71-73 | the total is exactly 110% of the subtotal |
| ShoppingCart.SubtotalAppend | src/components/cashier/ShoppingCart.tsx:63-65 | the subtotal of two carts laid end to end is the sum of their subtotals |
| ShoppingCart.SubtotalCons | src/components/cashier/ShoppingCart.tsx:63-65 | the subtotal is also the first line's amount plus the subtotal of the rest |
| ShoppingCart.SubtotalNonNegative | src/components/cashier/ShoppingCart.tsx:63-65 | with non-negative prices and quantities the subtotal is non-negative |
| ShoppingCart.RequestedQuantity | src/components/cashier/ShoppingCart.tsx:55-61 | nothing is requested exactly when no line has the id; otherwise the request is the line's quantity plus the change, raised to at least 1 |
| ShoppingCart.MinusAtOneStaysOne | src/components/cashier/ShoppingCart.tsx:58 | pressing minus on a line of quantity 1 asks for 1 again |
| ShoppingCart.EmptyCart | src/components/cashier/ShoppingCart.tsx:90 | an empty cart has subtotal, tax and total 0 and its checkout button is disabled (the checkout guard is line 181) |
| CashierModule.MapLines | src/components/cashier/CashierModule.tsx:65-69 | `cart.map` over the lines with an id changes exactly those lines, by the given update, and keeps the others and the length |
| CashierModule.AddToCart | src/components/cashier/CashierModule.tsx:60-83 | a product already in the cart keeps the cart's length; a new product is appended as a line of quantity 1 |
| CashierModule.SetQuantity | src/components/cashier/CashierModule.tsx:85-89 | setting a quantity keeps the number of lines |
| CashierModule.RemoveLines | src/components/cashier/CashierModule.tsx:91-93 | removing drops every line with the id and keeps every other line, in order |
| CashierModule.AddExisting | src/components/cashier/CashierModule.tsx:63-70 | adding a product already in the cart raises that line's quantity by one and changes nothing else |
| CashierModule.AddKeepsDistinct | src/components/cashier/CashierModule.tsx:60-83 | adding a product keeps the line ids distinct |
| CashierModule.SetQuantityKeepsDistinct | src/components/cashier/CashierModule.tsx:85-89 | setting a quantity keeps the line ids distinct |
| CashierModule.RemoveKeepsDistinct | src/components/cashier/CashierModule.tsx:91-93 | removing lines keeps the line ids distinct |
| CashierModule.SubseqKeepsDistinct | src/components/cashier/CashierModule.tsx:92 | a subsequence of a cart with distinct ids has distinct ids |
| CashierModule.SubtotalChangeOne | src/components/cashier/CashierModule.tsx:96-99 | changing one line changes the subtotal by the difference of its two amounts |
| CashierModule.AddRaisesSubtotal | src/components/cashier/CashierModule.tsx:60-83 | with distinct ids, adding a product raises the subtotal by exactly one unit price: the price already in the cart, or the product's for a new line |
| CashierModule.MapOneLine | src/components/cashier/CashierModule.tsx:65-69 | with distinct ids, updating the line with an id changes the subtotal by that line's change of amount |
| CashierModule.SetQuantityLines | src/components/cashier/CashierModule.tsx:85-89 | setting a quantity keeps every line's product data, gives the lines with the id the new quantity and keeps the others |
| CashierModule.SetQuantitySubtotal | src/components/cashier/CashierModule.tsx:85-89 | with distinct ids, setting a line's quantity replaces that line's amount in the subtotal by its price times the new quantity |
| CashierModule.SetQuantityOnlyAt | src/components/cashier/CashierModule.tsx:85-89 | with distinct ids, setting a quantity changes only the one line with the id |
| CashierModule.RemoveThenAdd | src/components/cashier/CashierModule.tsx:71-93 | removing a product and picking it again leaves one fresh line of quantity 1 at the end |
| CashierModule.InitialCartTotals | src/components/cashier/CashierModule.tsx:25-38 | the starting cart comes to 65,000 plus 6,500 tax, 71,500 in total, and its ids are distinct |
| CashierModule.Cashier.constructor | src/components/cashier/CashierModule.tsx:25-58 | the screen starts with the two sample lines, both dialogs closed and an empty receipt whose figures match its lines |
| CashierModule.Cashier.HandleAddToCart | src/components/cashier/CashierModule.tsx:60-83 | the cart becomes `AddToCart` of the old one; dialogs and receipt stay; the ids stay distinct |
| CashierModule.Cashier.HandleQuantityChange | src/components/cashier/CashierModule.tsx:85-89 | the cart becomes `SetQuantity` of the old one; nothing else changes |
| CashierModule.Cashier.HandleRemoveItem | src/components/cashier/CashierModule.tsx:91-93 | the cart becomes `RemoveLines` of the old one; nothing else changes |
| CashierModule.Cashier.HandleCheckout | src/components/cashier/CashierModule.tsx:95-112 | the receipt takes a copy of the cart with the subtotal, one-tenth tax and total the cart panel shows, keeps its other fields, and the payment dialog opens |
| CashierModule.Cashier.HandleCheckoutClose | src/components/cashier/CashierModule.tsx:114-116 | the payment dialog closes and nothing else changes |
| CashierModule.Cashier.HandlePaymentSuccess | src/components/cashier/CashierModule.tsx:118-122 | the payment dialog gives way to the receipt; cart and receipt data stay |
| CashierModule.Cashier.HandleReceiptClose | src/components/cashier/CashierModule.tsx:124-128 | the receipt closes and the cart is emptied, which disables checkout; the receipt data stay |
| CheckoutModal.DigitsOnly | src/components/cashier/CheckoutModal.tsx:68-72 | the amount field keeps only digits |
| CheckoutModal.Change | src/components/cashier/CheckoutModal.tsx:91-94 | the change plus the total is the amount paid, read as a whole number or 0 |
| CheckoutModal.ProceedDisabled | src/components/cashier/CheckoutModal.tsx:312 | proceed is disabled for cash with nothing typed; its consequences are stated by `ProceedGuard` |
| CheckoutModal.Apply | src/components/cashier/CheckoutModal.tsx:60-89 | one action changes the step only along proceed 1 to 2 (when enabled), back 2 to 1, confirm 2 to 3 (corrected build only) and finish 3 to 1; only choosing a method on step 1 changes the method; only typing changes the amount, to the typed digits; a payment is reported only by a corrected confirm with the hook; a reference error is raised exactly by confirming on step 2 as written |
| CheckoutModal.Run | src/components/cashier/CheckoutModal.tsx:60-89 | a sequence of actions yields one notice per action |
| CheckoutModal.ApplyKeepsReachable | src/components/cashier/CheckoutModal.tsx:60-89 | every action keeps the step in 1..3 and the amount digits-only |
| CheckoutModal.RunKeepsReachable | src/components/cashier/CheckoutModal.tsx:60-89 | any sequence of actions keeps the step in 1..3 and the amount digits-only |
| CheckoutModal.StepAlwaysInRange | src/components/cashier/CheckoutModal.tsx:62 | from the initial step 1, the step stays 1, 2 or 3 whatever the user does |
| CheckoutModal.StepTransitions | src/components/cashier/CheckoutModal.tsx:74-89 | the step moves only 1 to 2 by an enabled proceed, 2 to 1 by back, 2 to 3 by confirm (intended handler) and 3 to 1 by finish, which calls `onClose` (the buttons at lines 305-333) |
| CheckoutModal.ProceedGuard | src/components/cashier/CheckoutModal.tsx:312 | proceeding is blocked exactly for cash with nothing typed; e-wallet and bank are never blocked |
| CheckoutModal.ChooseMethodKeepsStepAndAmount | src/components/cashier/CheckoutModal.tsx:64-66 | choosing a method changes neither the step nor the typed amount |
| CheckoutModal.DigitsOnlyIdempotent | src/components/cashier/CheckoutModal.tsx:70 | filtering out non-digits twice is the same as once |
| CheckoutModal.DigitsOnlyKeepsDigits | src/components/cashier/CheckoutModal.tsx:70 | the filter keeps every digit, in order, and leaves digit-only text unchanged |
| CheckoutModal.ChangeExamples | src/components/cashier/CheckoutModal.tsx:91-94 | against 71,500: nothing typed gives -71,500, "100000" gives 28,500, "50000" gives -21,500 |
| CheckoutModal.ChangeOfShown | src/components/cashier/CheckoutModal.tsx:92-93 | the change for the decimal notation of a whole amount is that amount minus the total |
| CheckoutModal.AsWrittenNeverCompletes | src/components/cashier/CheckoutModal.tsx:50-84 | as written, no sequence of actions from step 1 or 2 reaches step 3 or reports a payment |
| CheckoutModal.AsWrittenConfirmThrows | src/components/cashier/CheckoutModal.tsx:78-84 | as written, confirming on step 2 throws a reference error and changes nothing |
| CheckoutModal.CorrectedCompletes | src/components/cashier/CheckoutModal.tsx:40-84 | with the hook bound, typing 100000 in cash, proceeding and confirming reaches step 3 and reports "cash" when the hook is passed |
| CheckoutModal.CashPaymentRun | src/components/cashier/CheckoutModal.tsx:68-84 | typing any non-empty digit string in cash, proceeding and confirming reaches step 3 with that amount, reporting the method exactly when the hook is passed |
| CheckoutModal.UnwiredNeverPays | src/components/cashier/CashierModule.tsx:144-149 | without the hook, or as written, the dialog never reports a payment whatever the user does |
| CheckoutModal.Dialog.constructor | src/components/cashier/CheckoutModal.tsx:60-62 | the dialog starts on step 1 with cash and an empty amount |
| CheckoutModal.Dialog.HandlePaymentMethodChange | src/components/cashier/CheckoutModal.tsx:64-66 | the new state is the transition for choosing that method |
| CheckoutModal.Dialog.HandleAmountPaidChange | src/components/cashier/CheckoutModal.tsx:68-72 | the new state is the transition for typing that text: its digits only |
| CheckoutModal.Dialog.HandleProceedToPayment | src/components/cashier/CheckoutModal.tsx:74-76 | an enabled proceed moves to step 2 |
| CheckoutModal.Dialog.HandleBack | src/components/cashier/CheckoutModal.tsx:321 | "Kembali" moves back to step 1 |
| CheckoutModal.Dialog.HandleConfirmPayment | src/components/cashier/CheckoutModal.tsx:78-84 | the corrected handler (as written it throws, see Findings): confirming moves to step 3 and reports the method when the hook is passed |
| CheckoutModal.Dialog.HandleFinish | src/components/cashier/CheckoutModal.tsx:86-89 | "Selesai" returns to step 1 and calls `onClose` |
| CheckoutModal.Dialog.HandleDismiss | src/components/cashier/CheckoutModal.tsx:97 | "Batal" or closing the dialog only calls `onClose` (also the "Batal" button at line 307) |
| ProductGrid.FilteredProducts | src/components/cashier/ProductGrid.tsx:111-118 | the grid shows exactly the products whose name contains the search text, ignoring case, on the "Semua" tab or their own category's tab, in their order |
| ProductGrid.InitialViewShowsAll | src/components/cashier/ProductGrid.tsx:107-108 | with the initial empty search on the "Semua" tab every product is shown, in order |
| ProductGrid.CategoryTabShowsOnlyCategory | src/components/cashier/ProductGrid.tsx:115-116 | on any other tab only products of that category are shown |
| ProductGrid.Click | src/components/cashier/ProductGrid.tsx:157 | a card click hands the product on exactly when it is in stock |
| Api.Gateway.constructor | src/lib/api.ts:1 | the backend starts with an empty request log and a fixed failure pattern, new-row id and select replies |
| Api.Gateway.Send | src/lib/api.ts:205-213 | a write is appended to the log and reports an error exactly when its position is a failing one |
| Api.Gateway.Select | src/lib/api.ts:295-298 | a select is appended to the log and returns no data when it fails, the fixed reply otherwise |
| Api.ItemRows | src/lib/api.ts:200-203 | one item row per item, in order, each carrying the new header's id and the item's product, quantity and price |
| Api.Decrements | src/lib/api.ts:216-220 | one stock decrement per item, in item order, with that item's product and quantity |
| Api.Create | src/lib/api.ts:183-228 | `transactionsApi.create` sends exactly the header, then the items, then one decrement per item, stopping after the first of the first two writes that fails, and returns the stored header or `null` accordingly |
| Api.HeaderFirst | src/lib/api.ts:188-192 | the header is always the first request |
| Api.HeaderFailureStops | src/lib/api.ts:194-197 | when the header cannot be written nothing else is sent and the result is `null` |
| Api.ItemsFailureLeavesHeader | src/lib/api.ts:209-213 | when the items cannot be written the result is `null`, yet the header stays written: nothing undoes it and no stock is decremented |
| Api.DecrementsPerItem | src/lib/api.ts:215-227 | once header and items are written, exactly one decrement per item is sent, in order, the rows carry the new id, and the stored header is returned |
| Api.DecrementFailuresIgnored | src/lib/api.ts:222-224 | failed decrements are only logged: they change neither the requests sent nor the result |
| Api.PageRange | src/lib/api.ts:153-158 | `getAll(limit, page)` asks for exactly `limit` rows |
| Api.DefaultPage | src/lib/api.ts:153 | with the defaults (100, page 0) rows 0 to 99 are requested |
| Api.PagesAdjacent | src/lib/api.ts:158 | each page starts right after the previous one ends |
| Api.PagesDisjoint | src/lib/api.ts:158 | different pages request disjoint rows |
| Api.UserScope | src/lib/api.ts:411-417 | the UI settings select is scoped to the user exactly when a non-empty user id is given, otherwise to the rows without a user |
| Api.Upsert | src/lib/api.ts:293-330 | the existence check is sent, then exactly one write: an update of the first found row, or an insert when none was found or the select failed; the result is the written row or `null` (`uiSettingsApi.update` at lines 409-454 follows the same rule) |
| Api.UpdateStoreSettings | src/lib/api.ts:293-330 | `storeSettingsApi.update` is the upsert on the store settings table over any row, writing the same fields either way |
| Api.UpdateUiSettings | src/lib/api.ts:409-454 | `uiSettingsApi.update` is the upsert on the UI settings table scoped to the user, updating `{ settings }` or inserting `{ user_id: userId \|\| null, settings }` |
| Api.UpsertWritesOnce | src/lib/api.ts:300-329 | an upsert sends the select and exactly one write, an update exactly when the select succeeded with a row |
| Api.UiInsertMatchesScope | src/lib/api.ts:413-441 | an inserted UI settings row records the user exactly when the same user scoped the select |
| Api.ListOrEmpty | src/lib/api.ts:12-17 | list reads give `[]` on an error and the data, or `[]`, otherwise |
| Api.SingleOrNull | src/lib/api.ts:42-47 | single-row reads and writes give `null` on an error and the data otherwise |
| Api.DeleteSucceeded | src/lib/api.ts:81-89 | a delete reports success exactly when there was no error |
| Api.UiSettingsOrNull | src/lib/api.ts:389-406 | the UI settings read gives `null` on an error other than "no rows" (PGRST116), the data otherwise |
| Api.ErrorLooksEmpty | src/lib/api.ts:12-17 | a caller of a list read cannot tell a failed request from an empty table |
| InventoryModule.SuggestedOrder | src/components/inventory/InventoryModule.tsx:89 | the suggested order reaches twice the reorder level and is at least 5, and it is one of those two amounts |
| InventoryModule.AlertFor | src/components/inventory/InventoryModule.tsx:83-90 | an alert copies the product's id, name, stock, reorder level and category, and suggests at least 5 |
| InventoryModule.LowStockList | src/components/inventory/InventoryModule.tsx:81-82 | exactly the products at or below their reorder level, in product order |
| InventoryModule.LowStockProducts | src/components/inventory/InventoryModule.tsx:81-91 | alert i is the alert of the i-th low-stock product, so the alerts follow product order, one per low product |
| InventoryModule.LowStockAlertsExact | src/components/inventory/InventoryModule.tsx:81-91 | every product at or below its reorder level gets an alert, every alert comes from such a product and copies its fields, and each alert suggests at least 5 |
| InventoryModule.SampleLowStock | src/components/inventory/InventoryModule.tsx:27-91 | of the five sample products only Nasi Goreng (stock 5, reorder level 8) is low, with 11 suggested |
| InventoryModule.CountIn | src/components/inventory/InventoryModule.tsx:203 | the "produk" count on a category card; its properties are stated by `CountInSnoc`, `CountInAbsent` and `CategoryCountsSumToTotal` |
| InventoryModule.CountInSnoc | src/components/inventory/InventoryModule.tsx:203 | one more product adds one to its own category's count and nothing to the others |
| InventoryModule.CountInAbsent | src/components/inventory/InventoryModule.tsx:203 | a category no product has counts 0 |
| InventoryModule.SumCountsSnoc | src/components/inventory/InventoryModule.tsx:194-203 | over distinct categories, one more product adds one to the total exactly when its category is among them |
| InventoryModule.SumCountsAppendOne | src/components/inventory/InventoryModule.tsx:194-203 | one more card adds its category's count to the total |
| InventoryModule.CategoryCountsSumToTotal | src/components/inventory/InventoryModule.tsx:194-203 | the per-category cards count every product exactly once: their counts add up to the number of products |
| InventoryModule.FormProduct | src/components/inventory/InventoryModule.tsx:218-228 | editing fills the form from the product, with an empty description, the reorder level as reorder point and active set; adding passes no product |
| InventoryModule.Screen.constructor | src/components/inventory/InventoryModule.tsx:22-24 | the screen opens on "all-products" with the form closed and no product being edited |
| InventoryModule.Screen.HandleAddProduct | src/components/inventory/InventoryModule.tsx:93-96 | clears the product being edited and opens the form; the tab stays |
| InventoryModule.Screen.HandleEditProduct | src/components/inventory/InventoryModule.tsx:98-101 | picks the product and opens the form; the tab stays |
| InventoryModule.Screen.HandleProductSubmit | src/components/inventory/InventoryModule.tsx:108-112 | closes the form and changes nothing else |
| InventoryModule.Screen.HandleFormCancel | src/components/inventory/InventoryModule.tsx:230 | closes the form and changes nothing else |
| InventoryModule.Screen.SetActiveTab | src/components/inventory/InventoryModule.tsx:152-158 | sets the tab and changes nothing else |
| InventoryTable.LowStock | src/components/inventory/InventoryTable.tsx:289-293 | the red stock badge's test, stock at or below the reorder level, which is also the low-stock filter at InventoryModule.tsx:82 and 184; `InventoryModule.LowStockAlertsExact` states what it selects |
| InventoryTable.KeyOf | src/components/inventory/InventoryTable.tsx:137-149 | a column's value compares as a number exactly for the numeric columns, and by `localeCompare` otherwise |
| InventoryTable.NextSort | src/components/inventory/InventoryTable.tsx:114-121 | a header click always sorts by the clicked column; clicking the current column flips the direction, and a new column starts ascending |
| InventoryTable.SortTwice | src/components/inventory/InventoryTable.tsx:114-121 | two clicks on the current column restore the direction; two clicks on a new column leave it descending |
| InventoryTable.ListedIffMatches | src/components/inventory/InventoryTable.tsx:124-133 | a product is listed exactly when its name or SKU contains the search text, ignoring case, and it is in the selected category, whatever the sort |
| InventoryTable.Matches | src/components/inventory/InventoryTable.tsx:124-133 | the name or SKU contains the search ignoring case, and no category or the product's own is selected; used by `ListedIffMatches` |
| InventoryTable.FilteredProducts | src/components/inventory/InventoryTable.tsx:124-150 | the matching products, sorted by the column when one is chosen; `ListedIffMatches`, `SortIsPermutation` and `NumericSortOrdered` state its properties |
| InventoryTable.SortIsPermutation | src/components/inventory/InventoryTable.tsx:134-150 | sorting only reorders the matching products; with no sort column the comparator returns 0 and the stable sort keeps their order |
| InventoryTable.InitialRowsAreAll | src/components/inventory/InventoryTable.tsx:105-108 | with the initial empty search, no category and no sort column every product is listed in its own order |
| InventoryTable.NumericSortOrdered | src/components/inventory/InventoryTable.tsx:146-149 | sorting by a numeric column gives non-decreasing values ascending and non-increasing values descending |
| InventoryTable.CategoryColumn | src/components/inventory/InventoryTable.tsx:111 | `products.map(p => p.category)` keeps one category per product, in order |
| InventoryTable.CategoriesExact | src/components/inventory/InventoryTable.tsx:111 | the category filter offers every product's category exactly once and no other |
| InventoryTable.Table.constructor | src/components/inventory/InventoryTable.tsx:105-108 | the table starts with an empty search, no sort column, ascending and no category |
| InventoryTable.Table.HandleSort | src/components/inventory/InventoryTable.tsx:114-121 | the new sort state is `NextSort` of the old one; the search and the category stay |
| InventoryTable.Table.SetSearchTerm | src/components/inventory/InventoryTable.tsx:172 | the search box sets the search text and nothing else |
| InventoryTable.Table.SetSelectedCategory | src/components/inventory/InventoryTable.tsx:184-192 | the filter menu sets the category, or none for "Semua Kategori", and nothing else |
| ProductForm.Title | src/components/inventory/ProductForm.tsx:119 | the title reads "Edit Produk" exactly when the given product has an id, and "Tambah Produk Baru" exactly when it has none |
| ProductForm.NumberOrZero | src/components/inventory/ProductForm.tsx:70 | `parseFloat(value) \|\| 0` is never negative here and is 0 for text that does not start with a digit |
| ProductForm.ChangeOnlyNamedField | src/components/inventory/ProductForm.tsx:59-73 | a change stores the value in the named field, as a number for price, cost, stock and reorder point and as text otherwise, and leaves every other field as it was |
| ProductForm.ChangeField | src/components/inventory/ProductForm.tsx:59-73 | the new form data after typing into one input; `ChangeOnlyNamedField` states that only that field changes |
| ProductForm.PriceExamples | src/components/inventory/ProductForm.tsx:66-71 | typing "12000" as the price stores 12000; typing "abc" stores 0 |
| ProductForm.Trim | src/components/inventory/ProductForm.tsx:92-96 | `trim` yields text that neither starts nor ends with whitespace and is no longer than its input |
| ProductForm.TrimEmptyIffBlank | src/components/inventory/ProductForm.tsx:92-96 | a text trims to nothing exactly when it is all whitespace |
| ProductForm.ValidateForm | src/components/inventory/ProductForm.tsx:89-106 | there is a "name", "sku" or "price" message exactly when the name is blank, the SKU is blank or the price is at most 0, each with its own text and no other key; the form is valid exactly when there are none |
| ProductForm.DefaultProductInvalid | src/components/inventory/ProductForm.tsx:41-52 | the empty form fails all three rules |
| ProductForm.BlankNameMissing | src/components/inventory/ProductForm.tsx:92-94 | a name made only of spaces counts as missing and blocks the submit |
| ProductForm.Form.constructor | src/components/inventory/ProductForm.tsx:56-57 | the form starts from the given product with no messages |
| ProductForm.Form.HandleChange | src/components/inventory/ProductForm.tsx:59-73 | the data becomes `ChangeField` of the old data; the messages stay |
| ProductForm.Form.HandleCategoryChange | src/components/inventory/ProductForm.tsx:75-80 | only the category changes |
| ProductForm.Form.HandleSwitchChange | src/components/inventory/ProductForm.tsx:82-87 | only the active flag changes |
| ProductForm.Form.HandleSubmit | src/components/inventory/ProductForm.tsx:108-113 | the messages are those of the validation, and the data is handed on, unchanged, exactly when it is valid |
| AuthGuard.Decide | src/components/auth/AuthGuard.tsx:10-33 | the spinner exactly while the session loads; the login redirect exactly when loaded without a user; the unauthorized redirect exactly when a role is required that the user neither has nor overrides as "admin" |
| AuthGuard.ChildrenIff | src/components/auth/AuthGuard.tsx:28-32 | the protected content is shown exactly to a loaded user with no role to meet, the required role, or the admin role |
| AuthGuard.AdminAlwaysAdmitted | src/components/auth/AuthGuard.tsx:28 | a loaded admin passes whatever role the route requires |
| AuthGuard.NoRoleAdmitsEveryone | src/components/auth/AuthGuard.tsx:28 | a route with no required role admits every loaded user |
| ReportSelector.NextRange | src/components/reports/ReportSelector.tsx:42-58 | with no start or a closed range the selected day becomes a one-day range; otherwise an earlier day moves the start and any other day closes the range |
| ReportSelector.NextRangeOrdered | src/components/reports/ReportSelector.tsx:47-54 | a selection keeps a well-formed range well formed, and the selected day is always one of its ends |
| ReportSelector.CompleteCollapses | src/components/reports/ReportSelector.tsx:31-49 | from a range with both ends, which is every range the toolbar holds, a selection always gives the one-day range of that day |
| ReportSelector.CalendarRange | src/components/reports/ReportSelector.tsx:108-113 | the calendar's range is taken exactly when both its ends are present |
| ReportSelector.CalendarKeepsComplete | src/components/reports/ReportSelector.tsx:108-113 | whatever the calendar hands over, the range keeps both ends |
| ReportSelector.Selector.constructor | src/components/reports/ReportSelector.tsx:30-34 | the toolbar starts on the daily report with the seven days up to today, a range with both ends |
| ReportSelector.Selector.HandleReportTypeChange | src/components/reports/ReportSelector.tsx:37-40 | the tab is stored and the same value is forwarded; the range stays, so it keeps both ends |
| ReportSelector.Selector.HandleDateSelect | src/components/reports/ReportSelector.tsx:42-58 | without a day nothing changes; otherwise the range becomes `NextRange` of the old one and is forwarded; a well-formed range stays well formed and a range with both ends keeps both ends |
| ReportSelector.Selector.CalendarSelect | src/components/reports/ReportSelector.tsx:108-113 | a complete range from the calendar is stored and forwarded; anything else changes nothing, so the range keeps both ends |
| ProductPerformance.DisplayProducts | src/components/reports/ProductPerformance.tsx:63-66 | each view shows ten products, or all of them when there are fewer |
| ProductPerformance.DisplayOrdered | src/components/reports/ProductPerformance.tsx:63-66 | the shown products are products of the input, by profit non-increasing in the best view and non-decreasing in the worst |
| ProductPerformance.DisplayBeatsRest | src/components/reports/ProductPerformance.tsx:65-66 | every shown product has at least the profit of every product left out in the best view, and at most it in the worst |
| ProductPerformance.PieData | src/components/reports/ProductPerformance.tsx:69-72 | one slice per shown product, in order, named after it and sized by its revenue |
| AiPredictions.Increasing | src/components/reports/AIPredictions.tsx:209-212 | the rising list has five products, or all the rising ones when fewer |
| AiPredictions.Decreasing | src/components/reports/AIPredictions.tsx:233-236 | the falling list has three products, or all the falling ones when fewer |
| AiPredictions.TopByChange | src/components/reports/AIPredictions.tsx:211-212 | a top-k by change holds products of its input, ordered by change, and none left out ranks above one shown |
| AiPredictions.TopByChangeOrdered | src/components/reports/AIPredictions.tsx:211-212 | a top-k by change holds products of its input, ordered by change |
| AiPredictions.TopByChangeBeatsRest | src/components/reports/AIPredictions.tsx:211-212 | no product left out of a top-k by change ranks above one shown |
| AiPredictions.IncreasingSelection | src/components/reports/AIPredictions.tsx:209-212 | the rising list holds only products of the input with a positive change, in non-increasing order, and no rising product left out rose more than one shown |
| AiPredictions.DecreasingSelection | src/components/reports/AIPredictions.tsx:233-236 | the falling list holds only products of the input with a negative change, in non-decreasing order, and no falling product left out fell further than one shown |
| AiPredictions.ListsDisjoint | src/components/reports/AIPredictions.tsx:210-234 | no product is in both lists, and one whose change is 0 is in neither |
| AiPredictions.ShownDecrease | src/components/reports/AIPredictions.tsx:246 | a falling product shows a positive magnitude, the negation of its change |
| AiPredictions.RisingThenFalling | src/components/reports/AIPredictions.tsx:210-234 | rising products followed by falling ones are filtered into exactly those two groups, each in input order |
| AiPredictions.StrictChainSorted | src/components/reports/AIPredictions.tsx:211-235 | changes that strictly move in one direction step by step are sorted with no two alike |
| AiPredictions.SortFourDescending | src/components/reports/AIPredictions.tsx:211 | four products with changes a > b > e > c sort descending to a, b, e, c |
| AiPredictions.SortThreeAscending | src/components/reports/AIPredictions.tsx:235 | three products with changes b < c < a sort ascending to b, c, a |
| AiPredictions.IncreasingOfFour | src/components/reports/AIPredictions.tsx:209-212 | four rising products with changes a > b > e > c make the rising list a, b, e, c |
| AiPredictions.DecreasingOfThree | src/components/reports/AIPredictions.tsx:233-236 | three falling products with changes b < c < a make the falling list b, c, a |
| AiPredictions.DefaultSplit | src/components/reports/AIPredictions.tsx:304-347 | in the sample data the first four products rise and the last three fall |
| AiPredictions.DefaultIncreasing | src/components/reports/AIPredictions.tsx:304-347 | on the sample data the rising list is Nasi Goreng, Mie Ayam, Ayam Bakar, Es Teh |
| AiPredictions.DefaultDecreasing | src/components/reports/AIPredictions.tsx:304-347 | on the sample data the falling list is Bakso, Es Jeruk, Soto Ayam |
| SalesReportChart.MaxOf | src/components/reports/SalesReportChart.tsx:232 | the largest of a non-empty list of daily sales: it is one of them and none is larger |
| SalesReportChart.Sum | src/components/reports/SalesReportChart.tsx:215-217 | the total of the sales, 0 for none; bounded by `SumAtMostCountTimesMax` and tied to the average by `Average` |
| SalesReportChart.Highest | src/components/reports/SalesReportChart.tsx:230-233 | "Highest" exists exactly for a non-empty period and is the entry that bounds all others |
| SalesReportChart.HighestIsBound | src/components/reports/SalesReportChart.tsx:230-233 | any entry that bounds all the others is the highest figure |
| SalesReportChart.Average | src/components/reports/SalesReportChart.tsx:224-226 | the average before `Math.round` exists exactly for a non-empty period, and times the number of days gives the total |
| SalesReportChart.RoundedAverage | src/components/reports/SalesReportChart.tsx:222-227 | the "Average" shown exists exactly for a non-empty period and is the integer nearest the average, a half rounding up (the average lies in `[r - 0.5, r + 0.5)`) |
| SalesReportChart.SumAtMostCountTimesMax | src/components/reports/SalesReportChart.tsx:214-217 | a total is at most the number of days times any bound on the days |
| SalesReportChart.AverageAtMostHighest | src/components/reports/SalesReportChart.tsx:222-233 | the average day never exceeds the highest day |
| SalesReportChart.PreviousTotal | src/components/reports/SalesReportChart.tsx:264-268 | the previous total is shown exactly when the data has a previous period, and is its sum |
| SalesReportChart.DefaultTotalAndAverage | src/components/reports/SalesReportChart.tsx:42-61 | on the default data the total is 1,600,000 and the average 160,000 |
| SalesReportChart.DefaultRoundedAverage | src/components/reports/SalesReportChart.tsx:42-61 | on the default data the "Average" shown, after rounding, is 160,000 |
| SalesReportChart.DefaultHighest | src/components/reports/SalesReportChart.tsx:42-61 | on the default data the highest day is 210,000 |
| SalesReportChart.DefaultPreviousTotal | src/components/reports/SalesReportChart.tsx:42-61 | on the default data the previous period's total is 1,420,000 |
| PaymentMethodsConfig.Toggle | src/components/settings/PaymentMethodsConfig.tsx:136-142 | the methods with the id have their switch flipped; all other methods and all other fields are kept, in order |
| PaymentMethodsConfig.ToggleTwice | src/components/settings/PaymentMethodsConfig.tsx:136-142 | flipping the same switch twice restores the list |
| PaymentMethodsConfig.ToggleUnknown | src/components/settings/PaymentMethodsConfig.tsx:136-142 | an id no method has leaves the list unchanged |
| PaymentMethodsConfig.ShowsConfig | src/components/settings/PaymentMethodsConfig.tsx:174 | the inputs are shown for an enabled method that needs configuration; see `CardShowsOneSection` |
| PaymentMethodsConfig.ShowsHint | src/components/settings/PaymentMethodsConfig.tsx:200 | the hint is shown for a disabled method; see `CardShowsOneSection` |
| PaymentMethodsConfig.CardShowsOneSection | src/components/settings/PaymentMethodsConfig.tsx:174-208 | a card never shows both the inputs and the hint, shows neither only for an enabled method without configuration, and toggling swaps them for a method with configuration |
| PaymentMethodsConfig.Config.constructor | src/components/settings/PaymentMethodsConfig.tsx:36-134 | the page starts with the seven listed methods |
| PaymentMethodsConfig.Config.TogglePaymentMethod | src/components/settings/PaymentMethodsConfig.tsx:136-170 | the list becomes `Toggle` of the old list |
| UiCustomizationPanel.EditLayout | src/components/settings/UICustomizationPanel.tsx:70-81 | the edited layout key holds the new value; the other layout keys and the other two sections are as they were |
| UiCustomizationPanel.EditAppearance | src/components/settings/UICustomizationPanel.tsx:83-94 | the edited appearance key holds the new value; everything else is as it was |
| UiCustomizationPanel.EditCategories | src/components/settings/UICustomizationPanel.tsx:96-107 | the edited categories key holds the new value; everything else is as it was |
| UiCustomizationPanel.EditLayoutTwice | src/components/settings/UICustomizationPanel.tsx:70-81 | two edits of the same layout key: the second wins |
| UiCustomizationPanel.ButtonRadius | src/components/settings/UICustomizationPanel.tsx:211-217 | rounded, pill and any other style give three distinct radii, each exactly for its style (also the preview buttons at lines 335-357) |
| UiCustomizationPanel.CardRadius | src/components/settings/UICustomizationPanel.tsx:364-372 | the same three cases for the sample card, with "pill" at 1rem |
| UiCustomizationPanel.CardRadiusDiffersOnlyForPill | src/components/settings/UICustomizationPanel.tsx:335-372 | the card and the buttons are rounded alike exactly when the style is not "pill" |
| UiCustomizationPanel.TitleFontSize | src/components/settings/UICustomizationPanel.tsx:376-383 | small, medium and anything else give three distinct title sizes |
| UiCustomizationPanel.BodyFontSize | src/components/settings/UICustomizationPanel.tsx:390-397 | small, medium and anything else give three distinct body sizes |
| UiCustomizationPanel.TitleOneStepAboveBody | src/components/settings/UICustomizationPanel.tsx:376-397 | a small title is as large as a medium body, and a medium title as a large body |
| UiCustomizationPanel.CategoryDirection | src/components/settings/UICustomizationPanel.tsx:455-462 | left, right and any other position give a row, a reversed row and a column, each exactly for its position |
| UiCustomizationPanel.DefaultPreview | src/components/settings/UICustomizationPanel.tsx:45-61 | the default settings preview rounded tiles and categories above the products (mapped by lines 211-217 and 455-462) |
| UiCustomizationPanel.Panel.constructor | src/components/settings/UICustomizationPanel.tsx:64-68 | the panel starts on the layout tab with the given settings, or the defaults |
| UiCustomizationPanel.Panel.HandleLayoutChange | src/components/settings/UICustomizationPanel.tsx:70-81 | the settings become `EditLayout` of the old ones; the tab stays |
| UiCustomizationPanel.Panel.HandleAppearanceChange | src/components/settings/UICustomizationPanel.tsx:83-94 | the settings become `EditAppearance` of the old ones; the tab stays |
| UiCustomizationPanel.Panel.HandleCategoriesChange | src/components/settings/UICustomizationPanel.tsx:96-107 | the settings become `EditCategories` of the old ones; the tab stays |
| UiCustomizationPanel.Panel.Reset | src/components/settings/UICustomizationPanel.tsx:544-547 | the settings become the defaults; the tab stays |
| UiCustomizationPanel.Panel.HandleSave | src/components/settings/UICustomizationPanel.tsx:109-111 | the current settings are handed over unchanged |
| UserManagement.DisplayUsers | src/components/settings/UserManagement.tsx:51-75 | the given users when there are any, otherwise the three sample accounts; never empty |
| UserManagement.FilteredUsers | src/components/settings/UserManagement.tsx:77-81 | exactly the displayed users whose name or e-mail contains the search, ignoring case, in their order |
| UserManagement.EmptySearchShowsAll | src/components/settings/UserManagement.tsx:77-81 | an empty search shows every displayed user |
| UserManagement.StatusLabel | src/components/settings/UserManagement.tsx:214-216 | "Aktif" exactly for an active user, "Nonaktif" exactly for an inactive one |
| UserManagement.Screen.constructor | src/components/settings/UserManagement.tsx:43-48 | the page opens with the add dialog open, no user picked and no search |
| UserManagement.Screen.Rows | src/components/settings/UserManagement.tsx:77-81 | the table's rows are an ordered selection of the displayed users (rendered at line 207) |
| UserManagement.Screen.SetSearchQuery | src/components/settings/UserManagement.tsx:189-190 | the search text is replaced; dialogs and the picked user stay |
| UserManagement.Screen.HandleEditUser | src/components/settings/UserManagement.tsx:83-86 | the user is picked and the edit dialog opens; nothing else changes |
| UserManagement.Screen.HandleDeleteUser | src/components/settings/UserManagement.tsx:88-91 | the user is picked and the delete dialog opens; nothing else changes |
| UserManagement.Screen.SetAddUserOpen | src/components/settings/UserManagement.tsx:102-177 | the add dialog opens or closes as asked; nothing else changes |
| UserManagement.Screen.SetEditUserOpen | src/components/settings/UserManagement.tsx:244-305 | the edit dialog opens or closes as asked; the picked user and everything else stay |
| UserManagement.Screen.SetDeleteUserOpen | src/components/settings/UserManagement.tsx:314-327 | the delete dialog opens or closes as asked; the picked user and everything else stay |
| RecentTransactions.StatusColor | src/components/dashboard/RecentTransactions.tsx:89-100 | each of the three statuses gets its own colour class, exactly for that status; any other gets none |
| RecentTransactions.StatusLabel | src/components/dashboard/RecentTransactions.tsx:141-143 | "Selesai", "Menunggu" and "Dibatalkan" exactly for the three statuses; any other shows nothing |
| RecentTransactions.LabelledIffColoured | src/components/dashboard/RecentTransactions.tsx:89-143 | a status has a label exactly when it has a colour |
| RecentTransactions.PreviousPage | src/components/dashboard/RecentTransactions.tsx:165-167 | "previous" is disabled exactly on page 1 and otherwise asks for the page before |
| RecentTransactions.NextPage | src/components/dashboard/RecentTransactions.tsx:176-178 | "next" is disabled exactly on the last page and otherwise asks for the page after |
| RecentTransactions.PagerStaysInRange | src/components/dashboard/RecentTransactions.tsx:165-178 | from a page in range both buttons ask only for pages in range, and the two requests undo each other |
| RecentTransactions.SinglePageDisablesBoth | src/components/dashboard/RecentTransactions.tsx:165-178 | with one page both buttons are disabled |
| SalesSummary.TrendIconFor | src/components/dashboard/SalesSummary.tsx:43-50 | an up arrow exactly for a rise, a down arrow exactly for a fall, none exactly for no change |
| SalesSummary.TrendColorClass | src/components/dashboard/SalesSummary.tsx:53-59 | green exactly for a rise, red exactly for a fall, grey exactly for no change |
| SalesSummary.IconAgreesWithColour | src/components/dashboard/SalesSummary.tsx:43-59 | the arrow and the colour always agree |
| SalesSummary.ShownPercentage | src/components/dashboard/SalesSummary.tsx:79-131 | the shown number is the size of the change: never negative, equal to the change or its negation |
| SalesSummary.ShownPercentageRecoversChange | src/components/dashboard/SalesSummary.tsx:75-79 | the arrow and the shown number together recover the change |
| TopProducts.Truncate | src/components/dashboard/TopProducts.tsx:81-84 | a name over ten characters is cut to ten followed by "...", a shorter one is kept; a label is at most thirteen characters |
| TopProducts.TruncateIdempotent | src/components/dashboard/TopProducts.tsx:81-84 | cutting a label again leaves it as it is |
| TopProducts.TruncateCollisions | src/components/dashboard/TopProducts.tsx:81-84 | two long names share a label exactly when their first ten characters agree |
| TopProducts.ChartData | src/components/dashboard/TopProducts.tsx:80-86 | one bar per product, in order, with the cut name and the product's revenue |
| TopProducts.TrendBadge | src/components/dashboard/TopProducts.tsx:146-159 | a badge exactly for a product that is not stable, pointing up exactly for a rising one, with its percentage |
| TopProducts.DefaultLabels | src/components/dashboard/TopProducts.tsx:26-86 | on the default products the long names ("Nasi Goreng Spesial", "Es Teh Manis", "Ayam Goreng") are cut to ten characters and "..." and "Mie Goreng" is not |
| DashboardHeader.Split | src/components/dashboard/DashboardHeader.tsx:78-79 | splitting on spaces gives at least one piece and no piece holds a space |
| DashboardHeader.JoinSplit | src/components/dashboard/DashboardHeader.tsx:78-79 | joining the pieces with spaces gives the name back |
| DashboardHeader.FirstChars | src/components/dashboard/DashboardHeader.tsx:80-81 | at most one character per piece |
| DashboardHeader.Initials | src/components/dashboard/DashboardHeader.tsx:78-81 | the avatar's fallback text equals the independently defined word starts of the name and contains no space |
| DashboardHeader.WordStarts | src/components/dashboard/DashboardHeader.tsx:78-81 | the word starts of a name contain no space |
| DashboardHeader.FirstCharsAreWordStarts | src/components/dashboard/DashboardHeader.tsx:78-81 | the first characters of the pieces are the characters that start a word |
| DashboardHeader.InitialsAreWordStarts | src/components/dashboard/DashboardHeader.tsx:78-81 | the initials are the first letter of each word, and contain no space |
| DashboardHeader.SkipWord | src/components/dashboard/DashboardHeader.tsx:78-81 | no character inside a word starts a new one |
| DashboardHeader.TwoWordInitials | src/components/dashboard/DashboardHeader.tsx:78-81 | a two-word name has the two first letters as initials |
| DashboardHeader.DefaultInitials | src/components/dashboard/DashboardHeader.tsx:24-81 | the default user "Budi Santoso" is shown as "BS" |
| DashboardHeader.Avatar | src/components/dashboard/DashboardHeader.tsx:74-83 | the picture exactly when there is one, otherwise the word starts of the name |
| DashboardHeader.NotificationBadge | src/components/dashboard/DashboardHeader.tsx:59-63 | the badge exactly for a positive count, showing that count |

## Left out

- Rendering, routing, icons, charts and dialogs are left out; only the values they display are modelled.
- Currency and date formatting (`Intl.NumberFormat`, `toLocaleString`, date-fns) are left out; amounts stay numbers and dates stay day numbers.
- The clock and `Math.random` become parameters: the date range's "today" and the receipt number (src/components/cashier/CashierModule.tsx:43).
- Network I/O is reduced to the gateway's success or failure answers. supabase query building, sessions and subscriptions are not part of this model.
- Floating point is replaced by exact `real` arithmetic. This covers IEEE rounding of the tax, `Math.round` of percentages and the `NaN` average of an empty array. `SalesReportChart.Average` and `SalesReportChart.RoundedAverage` return no value for an empty array; `Math.round` of the average is modelled exactly, as the floor of the average plus one half.
- Common.ParseIntOrZero: reads only the leading decimal digits, and ignores `parseInt`'s sign and leading whitespace. The amount field it reads holds only digits.
- ProductForm.NumberOrZero: reads only the leading decimal digits, and ignores `parseFloat`'s sign, fraction, exponent and leading whitespace. No negative or fractional price can be typed in the model.
- Lower-casing, `trim` and `localeCompare` are ASCII and character-code approximations of the Unicode library functions.
- TopProducts.Truncate: lengths, `substring` and `word[0]` count characters, not UTF-16 code units as JavaScript does. A name with a character outside the Basic Multilingual Plane is cut elsewhere in the source, and may be split inside a surrogate pair; `TruncateCollisions`, the thirteen-character bound and `DashboardHeader.Initials` are stated per character.
- DashboardHeader.Initials: takes the first character of each word, where JavaScript takes the first UTF-16 code unit; for a word starting outside the Basic Multilingual Plane the source shows half a surrogate pair.
- Handlers typed `value: any` (`handleChange`, the UI-settings handlers) are modelled as typed edits, one constructor per field.
- The inventory delete and reorder handlers only log (src/components/inventory/InventoryModule.tsx:103-106, 114-117); they are not modelled.
- `saveChanges` in src/components/settings/PaymentMethodsConfig.tsx:144-147 only logs; it is not modelled.
- The user dialogs' inputs are not bound to state, and their "Simpan", "Simpan Perubahan" and "Hapus Pengguna" buttons have no handler. Only the open, close and pick handlers are modelled.
- The "+12.5%" comparison in src/components/reports/SalesReportChart.tsx:251 is a fixed text and is not modelled.
- `handleDateSelect` (src/components/reports/ReportSelector.tsx:42-58) is not attached to any control; it is modelled as written anyway.
- RecentTransactions.NextPage: follows the source's equality guard, so "next" stays enabled on a page past the last.
- The ShoppingCart note field, the CheckoutModal step titles and the DashboardHeader date and search box are display only.
- The AIPredictions timeframe selector and its other tabs are display only.
- ProductPerformance.DisplayProducts: sorts a copy, so the caller's list is not reordered. With value semantics this holds by construction and is not stated separately.
- StoreProfileForm validation is done by the zod library and is not part of this model.
- Browser side effects (`window.print`, `alert`, the logo upload) are left out.

## Findings

| source | as written | input that shows it | evidently intended | confidence | as-written member | corrected member |
|---|---|---|---|---|---|---|
| src/components/cashier/CheckoutModal.tsx:50-84 | `onPaymentSuccess` is declared in the props but not destructured. `handleConfirmPayment` therefore reads an unbound name and throws before `setStep(3)`. | Choose cash, type "100000", press proceed, then confirm: a ReferenceError, and the dialog stays on step 2 | Confirming moves to step 3 and calls the callback when one is given | not executed | CheckoutModal.AsWrittenNeverCompletes | CheckoutModal.CorrectedCompletes |
| src/components/cashier/CashierModule.tsx:144-149 | The cashier renders the checkout dialog without `onPaymentSuccess`, so a finished payment is never reported to the cart | Any payment run, even with the dialog corrected | The cashier passes its `handlePaymentSuccess` so the receipt opens | not executed | CheckoutModal.UnwiredNeverPays | CheckoutModal.CashPaymentRun |
