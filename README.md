# Point-of-sale register: a verified model

This project models the in-memory core of a small React point-of-sale
register for a café. The core is:

- the register session (`App.tsx`): catalog, cart, held orders, customers, users, login, role-gated navigation, checkout and its stock update;
- the payment dialog's cash validation and change;
- the loyalty progress shown in the customer profile;
- the invoice payload sent to the tax authority (FBR, Pakistan's Federal Board of Revenue);
- the sales dashboard's aggregation;
- three small forms: users, the product catalog screen, and the FBR settings screen.

Module layout, following the program's files:

| module | models |
|---|---|
| `Types`, `Constants` | `types.ts` records and `constants.ts` fixtures (walk-in customer id 1, tax rate 0.08, the four currencies) |
| `Text` | the ASCII part of `toLowerCase` and `String.includes` |
| `Tables` | the id-keyed list operations `App.tsx` repeats for products, customers, users and held orders: `findIndex`, max+1 id allocation, replace by id, filter by id |
| `CartRules` | the pure `setCart` updaters and the subtotal/tax/total reductions |
| `Catalog` | `filteredProducts` |
| `Access` | login lookup and the admin-only views |
| `Sale` | the stock decrement of checkout and the completed-order record |
| `App` | the session: a class whose fields are the component's `useState` slots, one method per handler |
| `Payment` | `components/PaymentModal.tsx` |
| `CustomerProfile` | `components/CustomerProfileModal.tsx` |
| `Fbr` | `utils/fbrApi.ts` |
| `Sorting` | `Array.prototype.sort` with a descending comparator, and `slice(0, n)` |
| `Dashboard` | `components/Dashboard.tsx` |
| `UserForm` | `components/UserFormModal.tsx` |
| `ProductAdmin` | `components/ProductManagement.tsx` |
| `FbrSettingsForm` | `components/FBRSettings.tsx` |

Modelling choices:

- Money is an exact `real`. Ids, stock and quantities are `int`.
- A `parseFloat` result is `ParsedFloat`: either `NaN` or `Num(value)`.
- Optional fields and `null` become `Option`.
- Clock readings (`Date.now()`, `new Date()`) are passed in as parameters.
- Confirmation dialogs are passed in as booleans.
- The session's invariant `Valid()` requires unique ids in every table and in every cart, and requires the walk-in customer to stay first. Every handler preserves it.
- `handleProcessPayment`'s `forEach` is a `while` loop, proved against a fold.
- The dashboard's nested loops are a method that updates two maps in place. It is proved against fold functions whose meaning is proved separately.

## Model

| member | source | states |
|---|---|---|
| Text.LowerChar | App.tsx:38 | An upper-case ASCII letter is shifted to lower case; any other character is unchanged; the result is never upper case. |
| Text.Lower | App.tsx:102 | Same length, and each character is folded by `LowerChar`. |
| Text.LowerIdempotent | App.tsx:102-107 | Lower-casing twice is the same as once, so the already-lowered search term compares consistently. |
| Text.IncludesEmpty | App.tsx:106-107 | The empty search term is included in every name. |
| Access.FindLoginUser | App.tsx:38 | `None` exactly when no user matches (email equal up to case, password equal); otherwise the first matching user in the list. |
| Access.Navigate | App.tsx:51-57 | The requested view is reached unless the user is not an admin and the view is products, customers or users; in that case the view stays where it was. |
| Access.NonAdminNeverReachesAdminViews | App.tsx:51-57 | No sequence of requests takes a non-admin from a public view to an admin-only one. |
| Access.AdminReachesLastRequest | App.tsx:51-57 | After any sequence of requests, an admin is on the last one requested. |
| Catalog.FilterProducts | App.tsx:101-109 | Every product returned is in the catalog and matches the category and the case-insensitive search; every catalog product that matches is returned, as often as it occurs in the catalog, and no other product is. |
| Catalog.FilterProductsAppend | App.tsx:101-109 | Filtering a concatenation is the concatenation of the filtered parts, so the filter keeps the catalog's order. |
| Catalog.ShowAllWhenUnfiltered | App.tsx:101-109 | Category "All" with an empty search shows the whole catalog, in order. |
| CartRules.FindProduct | App.tsx:77 | `Some` gives a catalog product with that id; `None` means no product has it. |
| CartRules.IncrementLines | App.tsx:65-69 | Lines with the id gain one unit; every other line is unchanged and order is kept. |
| CartRules.SetQuantity | App.tsx:82-88 | Lines with the id get the new quantity; every other line is unchanged and order is kept. |
| CartRules.AddToCart | App.tsx:59-73 | No stock: the cart is unchanged. A product not in the cart: exactly one line with quantity 1 is appended. A product in the cart: unchanged if its line is already at stock, otherwise that product's lines gain one unit. |
| CartRules.UpdateQuantity | App.tsx:75-90 | Quantity ≤ 0 removes the product's lines. Otherwise the lines keep their positions; other lines are untouched; the product's line gets the new quantity, clamped to the catalog stock when the product is found. |
| CartRules.SubtotalOrderIrrelevant | App.tsx:97 | Two carts holding the same lines in any order have the same subtotal. |
| CartRules.SubtotalNonNegative | App.tsx:97 | With non-negative prices and quantities the subtotal is non-negative. |
| CartRules.SubtotalSetQuantity | App.tsx:82-88 | Changing one line's quantity moves the subtotal by the price times the change. |
| CartRules.TotalQuantitySetQuantity | App.tsx:82-88 | Changing one line's quantity moves the item count by the change. |
| CartRules.IncrementIsPointUpdate | App.tsx:65-69 | With unique line ids, the increment changes exactly the one line found by `find`. |
| CartRules.AddToCartEffect | App.tsx:59-73 | Adding keeps line ids unique. The cart is either unchanged or has exactly one more unit. A changed cart holds the product at no more than its stock, and its subtotal rose by the product's price. |
| CartRules.UpdateQuantityEffect | App.tsx:75-90 | Updating keeps line ids unique. The quantity set never exceeds the catalog stock. Quantity ≤ 0 leaves no line with the id. |
| Tables.FirstIndex | App.tsx:120 | The first position holding the id, or the length when there is none (JavaScript's -1). |
| Tables.FirstIndexFound | App.tsx:120 | `findIndex` finds a position exactly when some entry has the id. |
| Tables.FirstIndexUnique | App.tsx:120 | With unique ids, position k holds the id exactly when `findIndex` returns k. |
| Tables.MaxId | App.tsx:185 | `Math.max` over the ids: no id exceeds it, and some entry has it. |
| Tables.NextId | App.tsx:185 | 1 for an empty table; otherwise one more than the largest id, so above every id. |
| Tables.AppendWithNextId | App.tsx:183-188 | An entry appended under `NextId` keeps ids unique, its id was not in use, and the old entries are unchanged in place. |
| Tables.ReplaceById | App.tsx:190-194 | Entries with the updated entry's id are replaced by it; every other entry and the order are unchanged. |
| Tables.ReplaceByIdKeepsIds | App.tsx:190-194 | Replacing keeps every position's id, and so keeps ids unique. |
| Tables.RemoveById | App.tsx:196-198 | What remains is exactly the entries without the id: none of them has it, and every entry without it is kept. An absent id changes nothing. |
| Tables.RemoveByIdCounts | App.tsx:196-198 | Every entry without the id is kept exactly as often as it occurs; no entry with the id is kept. |
| Tables.RemoveByIdAppend | App.tsx:196-198 | Filtering a concatenation is the concatenation of the filtered parts, so the filter keeps order. |
| Tables.RemoveByIdKeepsUnique | App.tsx:196-198 | Filtering keeps ids unique. |
| Sale.ApplyLineMeaning | App.tsx:120-123 | One cart line lowers the stock of the product with its id by its quantity; every other product is unchanged. |
| Sale.StockAfterSale | App.tsx:118-125 | With unique catalog ids, every product's stock drops by the units of it in the cart. The catalog's length, order and other fields are unchanged, and products not in the cart keep their stock. |
| Sale.QuantityForAbsent | App.tsx:119-124 | A product with no cart line is sold zero units. |
| Sale.CompleteOrder | App.tsx:127-142 | The order records the cart, customer, method, rate and date, with subtotal = Σ price×quantity, tax = subtotal×rate and total = subtotal+tax. Tendered and change are recorded exactly for cash with a non-zero amount, and then change + total = tendered. |
| Sale.RecordedChangeMatchesDialog | App.tsx:139-142 | For a payment the dialog accepted, the change on the order is the dialog's change and is non-negative. No change is recorded only for card, or for cash tendered as 0. |
| App.FindCurrency | App.tsx:223-226 | A listed currency: the one with the code, or the default when no currency has it. |
| App.DecrementStock | App.tsx:118-124 | The `forEach` loop's catalog equals the fold `ApplySale` over the cart. |
| App.RecallFilter | App.tsx:167-177 | Filtering the held list plus the re-parked cart removes the recalled id and keeps every other held order, with carts that still have unique line ids. |
| App.PosSession.constructor | App.tsx:16-33 | The initial state: no user, the fixture tables, an empty cart and held list, the walk-in customer selected, category "All", the sales view, PKR and tax 0.08. |
| App.PosSession.CartTotal | App.tsx:97-99 | Total = subtotal × (1 + tax rate). |
| App.PosSession.Login | App.tsx:37-45 | Succeeds exactly when `FindLoginUser` finds a user; then that user is current and the view is sales. Otherwise nothing changes. |
| App.PosSession.Logout | App.tsx:47-49 | No user is logged in. |
| App.PosSession.Navigate | App.tsx:51-57 | The view becomes `Access.Navigate`'s; a non-admin's request for an admin-only view leaves it unchanged. |
| App.PosSession.SetSearchTerm | App.tsx:23 | The search term is set; the invariant holds. |
| App.PosSession.SelectCategory | App.tsx:22 | The category is set; the invariant holds. |
| App.PosSession.SelectCustomer | App.tsx:28 | The customer is set; the invariant holds. |
| App.PosSession.AddToCart | App.tsx:59-73 | The cart becomes `CartRules.AddToCart` of the old cart. It is unchanged or has one more unit, and its line ids stay unique. |
| App.PosSession.UpdateQuantity | App.tsx:75-90 | The cart becomes `CartRules.UpdateQuantity` against the current catalog, and its line ids stay unique. |
| App.PosSession.ClearCart | App.tsx:92-95 | Empty cart, with the walk-in customer (the first in the table) selected. |
| App.PosSession.Checkout | App.tsx:111-115 | The payment dialog opens exactly when the cart is non-empty; an already open dialog stays open. |
| App.PosSession.CancelPayment | App.tsx:360 | The payment dialog closes; the cart and everything else stay as they were, and the invariant holds. |
| App.PosSession.ProcessPayment | App.tsx:117-147 | Every product loses the units of it in the cart and nothing else changes in the catalog. The completed order is `Sale.CompleteOrder` with total = `CartTotal()`. The payment dialog closes and the receipt opens. |
| App.PosSession.CloseReceipt | App.tsx:149-153 | Receipt closed, no completed order, empty cart, walk-in customer selected. |
| App.PosSession.HoldOrder | App.tsx:155-165 | Empty cart: nothing changes. Otherwise exactly one held order (the cart, the customer and the clock reading) is appended, the cart is emptied and the walk-in customer selected. |
| App.PosSession.RecallOrder | App.tsx:167-177 | An unknown id changes nothing. Otherwise a non-empty cart is held first; then the first held order with the id supplies the cart and customer; then every held order with that id is removed, and all others are kept, including the one just parked (unless the clock reading equals the recalled id). |
| App.PosSession.DeleteHeldOrder | App.tsx:179-181 | The held list is filtered by id. |
| App.PosSession.AddProduct | App.tsx:183-188 | Exactly one product is appended, under max+1 (or 1), an id not in use; the existing products are unchanged. |
| App.PosSession.UpdateProduct | App.tsx:190-194 | The catalog becomes `ReplaceById` with the updated product. |
| App.PosSession.DeleteProduct | App.tsx:196-198 | The catalog is filtered by id. |
| App.PosSession.AddCustomer | App.tsx:200-206 | Exactly one customer is appended under a fresh max+1 id; the existing customers are unchanged. |
| App.PosSession.UpdateCustomer | App.tsx:208-210 | The customers become `ReplaceById` with the updated customer; ids stay unique and the first customer keeps id 1. |
| App.PosSession.DeleteCustomer | App.tsx:212-221 | Id 1 is refused with nothing changed. Any other id is filtered out; a selected customer with that id is replaced by the first customer of the old list. The walk-in customer stays first. |
| App.PosSession.ChangeCurrency | App.tsx:223-226 | The currency becomes `FindCurrency(code)`. |
| App.PosSession.AddUser | App.tsx:229-234 | Exactly one user is appended under a fresh max+1 id; the existing users are unchanged. |
| App.PosSession.UpdateUser | App.tsx:236-238 | The users become `ReplaceById` with the updated user. |
| App.PosSession.DeleteUser | App.tsx:240-246 | Deleting the logged-in user's own id is refused with nothing changed; any other id is filtered out. |
| App.PosSession.SetTaxRate | App.tsx:33 | The tax rate is set; the invariant holds. |
| Payment.ChangeDue | components/PaymentModal.tsx:35-36 | Never negative. Zero for card and for an invalid cash payment. For enough cash, change + total = tendered. |
| Payment.ConfirmedPayment | components/PaymentModal.tsx:27-35 | Confirmation is refused (the button is disabled, line 93) exactly when the payment is invalid. Card confirms without an amount. Accepted cash confirms with a tendered amount of at least the total. |
| Payment.CardNeverBlocked | components/PaymentModal.tsx:35 | A card payment is never invalid and always confirms. |
| Payment.PaymentModal.constructor | components/PaymentModal.tsx:15-16 | Starts on card with an empty (not-a-number) tendered amount. |
| Payment.PaymentModal.Open | components/PaymentModal.tsx:18-23 | Opening resets the method to card and the tendered text to empty. |
| Payment.PaymentModal.SelectMethod | components/PaymentModal.tsx:15 | Sets the method and keeps the tendered amount. |
| Payment.PaymentModal.EnterCash | components/PaymentModal.tsx:16 | Sets the tendered amount and keeps the method. |
| Payment.PaymentModal.Change | components/PaymentModal.tsx:36 | Never negative. A positive change means cash was tendered for total + change. |
| Payment.PaymentModal.Confirm | components/PaymentModal.tsx:27-33 | What `onConfirmPayment` receives is `ConfirmedPayment` of the dialog's state. Cash never arrives with less than the total. |
| CustomerProfile.TotalSpent | components/CustomerProfileModal.tsx:24 | A missing total spent counts as 0. |
| CustomerProfile.RewardAvailable | components/CustomerProfileModal.tsx:25 | True exactly when the flag is present and true. |
| CustomerProfile.Divide | components/CustomerProfileModal.tsx:30 | JavaScript division: the quotient for a non-zero divisor. Division by zero is never finite, and is not-a-number exactly for 0/0. |
| CustomerProfile.MinHundred | components/CustomerProfileModal.tsx:30 | `Math.min(x, 100)`: never +∞, finite results ≤ 100, and a finite input gives either itself or 100. |
| CustomerProfile.ProgressPercentage | components/CustomerProfileModal.tsx:27-31 | 100 with a reward available; 0 with loyalty off; otherwise min(spent/threshold×100, 100): for a positive threshold and spend in [0, threshold) it is the value p with p × threshold = 100 × spent, and for spend at or above a positive threshold it is 100. It is in [0, 100] for non-negative spend and positive threshold, never above 100, and not-a-number for 0/0. |
| CustomerProfile.AmountToNextReward | components/CustomerProfileModal.tsx:33 | Never negative; 0 with loyalty off; otherwise max(0, threshold − spent). |
| CustomerProfile.ProgressMatchesAmountLeft | components/CustomerProfileModal.tsx:27-33 | For a positive threshold, the bar is full exactly when nothing is left to spend, and the amount left plus the spend gives the threshold. |
| CustomerProfile.ItemCountBounds | components/CustomerProfileModal.tsx:92 | The item count is non-negative, at least the number of lines when every line has a unit, and zero exactly when every quantity is zero. |
| Fbr.DecimalString | utils/fbrApi.ts:27 | `String(id)`: non-empty, and starts with '-' exactly for a negative id. |
| Fbr.DecimalStringRoundTrip | utils/fbrApi.ts:27 | The item code reads back as the product id. |
| Fbr.DecimalStringInjective | utils/fbrApi.ts:27 | Distinct ids give distinct item codes. |
| Fbr.BuyerName | utils/fbrApi.ts:19 | The customer's name, or "Walk-in Customer" when there is no customer or the name is empty; never empty. |
| Fbr.PaymentMode | utils/fbrApi.ts:25 | 2 exactly for card, otherwise 1. |
| Fbr.ItemTaxChargedAsWritten | utils/fbrApi.ts:33 | No finite value exactly when the subtotal is zero. Otherwise sale value × (1 − discount/subtotal) × rate, with a missing discount taken as 0. |
| Fbr.KeptShare | utils/fbrApi.ts:33 | The undiscounted share of the sale: its product with the subtotal is subtotal − discount, and it is 1 without a discount. |
| Fbr.ItemTaxCharged | utils/fbrApi.ts:33 | Agrees with line 33 whenever the subtotal is non-zero. For a zero subtotal, or with no discount, it is the line's value × rate. |
| Fbr.Items | utils/fbrApi.ts:26-35 | One item per cart line, in cart order, each built by `ItemFor` under the given tax rule. |
| Fbr.InvoicePayload | utils/fbrApi.ts:13-36 | Seller NTN and POS id come from the settings; invoice number and date from the order. Buyer NTN and phone are empty, and the buyer name is `BuyerName`. Bill, sale value and tax copy total, subtotal and tax. The quantity is the cart's item count, the mode is `PaymentMode`, and there is one item per line. Under `AsWritten` this is the payload the code sends; under `Corrected` the items carry the corrected tax. |
| Fbr.ItemsDescribeLines | utils/fbrApi.ts:26-35 | Each item's code parses back to its line's id. It carries the line's name and quantity, sale value price×quantity, discount 0 and the order's rate. Its tax is line 33's value as written (no number for a zero subtotal) under `AsWritten`, and the corrected value under `Corrected`. |
| Fbr.ItemsQuantity | utils/fbrApi.ts:22 | The items' quantities add up to the cart's item count. |
| Fbr.ItemsSaleValue | utils/fbrApi.ts:32 | The items' sale values add up to the cart's subtotal. |
| Fbr.ItemsTax | utils/fbrApi.ts:33 | Under the corrected rule, or as written with a non-zero subtotal, every item's tax is a number and they add up to their total sale value times one common factor (kept share × rate). |
| Fbr.ItemsTaxLost | utils/fbrApi.ts:33 | As written, a zero subtotal makes the items' tax sum not a number. |
| Fbr.PayloadTotalsMatchItems | utils/fbrApi.ts:21-35 | The payload's total quantity is the sum over its items; its total sale value is too, whenever the order's subtotal is its cart's. |
| Fbr.ItemTaxesAddUp | utils/fbrApi.ts:33 | As written, for a non-zero subtotal, the item taxes add up to (subtotal − discount) × rate, and with no discount to the order's tax. For a zero subtotal and a non-empty cart they add up to no number. |
| Fbr.CorrectedTaxesAddUp | utils/fbrApi.ts:33 | With the corrected rule the item taxes always add up to a number: (subtotal − discount) × rate for a non-zero subtotal, and the order's tax when there is no discount, whatever the subtotal. |
| Fbr.CorrectedAgreesOnNonZeroSubtotal | utils/fbrApi.ts:13-36 | The corrected payload equals the one the code sends whenever the subtotal is non-zero. |
| Fbr.ZeroSubtotalLosesItemTax | utils/fbrApi.ts:33 | A cart of one free item has subtotal 0 and tax 0: the payload sent has an item tax that is no number, so the item taxes add up to none, while the corrected payload's add up to the order's tax. |
| Sorting.SortDesc | components/Dashboard.tsx:64-70 | The sorted list is a permutation of its input (same length and multiset). |
| Sorting.SortDescCorrect | components/Dashboard.tsx:64-70 | The sort with comparator `b - a` orders by non-increasing key and is a permutation of its input. |
| Sorting.Take | components/Dashboard.tsx:66 | `slice(0, n)`: a prefix of at most n elements, all of them when there are no more than n. |
| Sorting.TakeSubMultiset | components/Dashboard.tsx:66 | A prefix holds no value more often than the whole list. |
| Sorting.PermutationDistinct | components/Dashboard.tsx:64-70 | Sorting a list without repeats gives a list without repeats. |
| Sorting.TakeSorted | components/Dashboard.tsx:64-66 | The first n of a sorted list are still sorted. |
| Sorting.TopOfSorted | components/Dashboard.tsx:64-66 | Any element is either among the top n, or the top n are full and none ranks below it. |
| Dashboard.ProductTallyMeaning | components/Dashboard.tsx:49-53 | The product dictionary has exactly the ids sold. Each id's quantity is the total quantity sold and its name comes from its first line; the key list names each key once. |
| Dashboard.CategoryTallyMeaning | components/Dashboard.tsx:55-60 | The category dictionary has exactly the categories sold, each mapped to the sum of price×quantity over its lines; the key list names each key once. |
| Dashboard.CategoryRevenueAbsent | components/Dashboard.tsx:55-60 | A category with no line has revenue 0. |
| Dashboard.CategorySalesAddUp | components/Dashboard.tsx:55-60 | The category revenues add up to the revenue of all lines. |
| Dashboard.Average | components/Dashboard.tsx:41 | 0 for no orders; otherwise average × count = revenue. |
| Dashboard.Finish | components/Dashboard.tsx:41-79 | Carries the totals through, with the average from `Average`, and at most five top products. |
| Dashboard.SummaryOf | components/Dashboard.tsx:39-79 | Order count = number of orders, revenue = sum of totals, average 0 for no orders or else average × count = revenue, at most five top products. |
| Dashboard.SoldIdsListed | components/Dashboard.tsx:49-53 | The keys `Object.values` visits are exactly the ids sold, each once. |
| Dashboard.SoldSalesAreTheValues | components/Dashboard.tsx:49-64 | `Object.values(productSales)` is one entry per id sold: its total quantity and the name on its first line. |
| Dashboard.TopProductsAreBestSellers | components/Dashboard.tsx:64-66 | The top products are in non-increasing quantity order and number min(5, products sold). Each is the entry of a product sold, and no product's entry appears more often than in one entry per product sold. Every product sold is among them, or the list is full with five that each sold at least as many. |
| Dashboard.TopCategoriesCoverCategories | components/Dashboard.tsx:68-70 | The category list is in non-increasing revenue order. It has one entry per category sold, each with its revenue and no name repeated. |
| Dashboard.TallyOrder | components/Dashboard.tsx:47-61 | The inner loop over one order's lines, updating both dictionaries in place, leaves them equal to the tallies over all lines so far. |
| Dashboard.Summarize | components/Dashboard.tsx:39-79 | The nested loops and the top lists compute exactly `SummaryOf` the orders. |
| UserForm.InitialForm | components/UserFormModal.tsx:20-35 | The password is always blank. A new user gets blank fields and the cashier role; an edit gets the user's name, email and role. |
| UserForm.Submitted | components/UserFormModal.tsx:43-68 | Nothing is saved exactly for a new user with an empty password. A new user is saved with the form's fields. An edit saves the user's id with the form's fields, keeping the stored password when none was typed. |
| UserForm.EditRoundTrip | components/UserFormModal.tsx:20-68 | Opening a user and saving at once gives back the same user. |
| UserForm.BlankNewUserRefused | components/UserFormModal.tsx:13-50 | Saving a freshly opened new-user form saves nothing. |
| UserForm.EditKeepsAPassword | components/UserFormModal.tsx:59-64 | An edit never leaves a user who had a password without one. |
| UserForm.UserFormModal.constructor | components/UserFormModal.tsx:13-18 | The form starts blank with the cashier role. |
| UserForm.UserFormModal.Initialise | components/UserFormModal.tsx:20-36 | The form becomes `InitialForm` of the user. |
| UserForm.UserFormModal.Submit | components/UserFormModal.tsx:43-68 | Returns `Submitted` of the form. Nothing is returned only for a new user with a blank password. |
| ProductAdmin.TaxRateFromInput | components/ProductManagement.tsx:59-67 | A non-negative percentage p sets p/100. Otherwise empty text sets 0. No change happens exactly for non-empty text that is unparseable or negative. The rate is never negative. |
| ProductAdmin.TaxInputRoundTrip | components/ProductManagement.tsx:59-67 | Typing back the percentage of a non-negative rate sets that rate. |
| ProductAdmin.ProductManagement.constructor | components/ProductManagement.tsx:26-27 | Starts closed with no product being edited. |
| ProductAdmin.ProductManagement.OpenForNew | components/ProductManagement.tsx:29-32 | Open with no product being edited. |
| ProductAdmin.ProductManagement.OpenForEdit | components/ProductManagement.tsx:34-37 | Open with that product being edited. |
| ProductAdmin.ProductManagement.CloseModal | components/ProductManagement.tsx:39-42 | Closed with no product being edited. |
| ProductAdmin.ProductManagement.SaveProduct | components/ProductManagement.tsx:44-51 | A product with an id replaces the catalog entry with that id. Data without one is appended under a fresh id with the data's fields. Either way the form closes and the editing product is cleared. |
| ProductAdmin.ProductManagement.Delete | components/ProductManagement.tsx:53-57 | The product is filtered out only when the deletion is confirmed; otherwise the catalog is unchanged. |
| ProductAdmin.ProductManagement.TaxInputChange | components/ProductManagement.tsx:59-67 | The register's rate becomes `TaxRateFromInput`'s, or stays as it was when that refuses. |
| FbrSettingsForm.StoredRate | components/FBRSettings.tsx:19-22 | Not-a-number is stored as 0; a number as its value / 100. |
| FbrSettingsForm.ChangeSetting | components/FBRSettings.tsx:12-29 | The edited field takes the new value: the checkbox's state, the text, or `StoredRate` for the tax rate. Every other field is copied unchanged. |
| FbrSettingsForm.ShownRateRoundTrip | components/FBRSettings.tsx:19-28 | Entering the rate shown (rate × 100) leaves the settings unchanged. |
| FbrSettingsForm.ChangeIdempotent | components/FBRSettings.tsx:25-28 | Repeating an edit has no further effect. |
| FbrSettingsForm.ChangesCommute | components/FBRSettings.tsx:25-28 | Edits to different inputs commute. |
| FbrSettingsForm.LatestEditWins | components/FBRSettings.tsx:25-28 | Of two edits to the same input, only the later one matters. |
| FbrSettingsForm.StatusLabel | components/FBRSettings.tsx:31-46 | "Disabled" exactly when the integration is off. Otherwise loading, success, error and idle show "Connecting...", "Connected", "Connection Failed" and "Idle". |
| FbrSettingsForm.StatusLabelsDistinct | components/FBRSettings.tsx:35-45 | With the integration on, different states show different labels. |

## Left out

- IEEE-754 rounding and overflow: money is an exact real, and integers are unbounded.
- `toLowerCase` beyond ASCII. Login and search fold only 'A'..'Z', so Unicode case mappings are not modelled.
- The parsing of text by `parseFloat`. Its result (not-a-number or a finite value) is an input to the model.
- `Date`: the clock is an integer parameter, and `toISOString` is a string parameter of `Fbr.InvoicePayload`.
- The dashboard's date window (components/Dashboard.tsx:25-37). The orders passed in are the already filtered ones.
- The JavaScript key order of `productSales` is taken to be ascending id. That is the enumeration order for array-index keys; negative or very large ids would enumerate in insertion order instead. The order among entries with equal sort keys is not modelled: the model proves the top lists sorted and complete, not which of two equal entries comes first.
- Object aliasing in the checkout stock update (App.tsx:122). The copied array shares its product objects with the previous state, so the previous state's products are mutated too. The model computes the new catalog as a value.
- `alert`, `window.confirm` and `console.log`. A confirmation is a boolean input, and the logging and the commented-out `fetch` in utils/fbrApi.ts are not modelled.
- The React rendering: JSX, styling, effects scheduling and batching of state updates. The handlers are modelled as sequential state changes.
- The AI insights panel, the receipt dialog (DOM printing), the product and customer form dialogs (`FileReader`, form parsing) and the currency formatters are not part of this model.
- `UserFormModal`'s `handleChange` (a spread of one typed field) is not modelled; its effect is the field values passed to `Submit`.
- `FBRSettings`'s `handleChange` is modelled for the screen's five inputs only. A number input other than `manualTaxRate` does not exist on the screen.
- The `default` branch of the status switch is merged with `idle`: the status type has only the four values.
- Fbr.ItemFor: has no contract of its own. The facts about each item are stated by `Fbr.Items` and `Fbr.ItemsDescribeLines`.
- An item's `TaxCharged` that is not a number is `None`; `JSON.stringify` writes it as null. The distinction between not-a-number and the infinities (a non-zero price over a zero subtotal) is not kept: neither is a finite number.
- Sale.CompleteOrder: sets `isFbrInvoice` to false, where `handleProcessPayment` (App.tsx:127-142) leaves it unset. The field is only read for truth (components/ReceiptModal.tsx:66, 94), where unset and false behave alike.
- Sale.ApplySale: its own contract states only that the catalog keeps its length. The per-product effect is `Sale.StockAfterSale`.
- Dashboard.ProductTally and Dashboard.CategoryTally: their own contracts only state that the key lists name map keys. Their meaning is `Dashboard.ProductTallyMeaning` and `Dashboard.CategoryTallyMeaning`.
- Discounts and loyalty accrual are not modelled: no code in the register applies a discount or settles a reward, and `discountAmount` is only read by the invoice payload.

## Findings

| source | as written | input that shows it | evidently intended | confidence | as-written member | corrected member |
|---|---|---|---|---|---|---|
| utils/fbrApi.ts:33 | Each item's tax divides by `order.subtotal` unguarded, so a zero subtotal gives not-a-number (0/0) for every item's `TaxCharged`. | A completed order of one line with price 0 and quantity 1. The product form accepts a price of 0, so subtotal and tax are 0. | The item taxes add up to the order's tax; with nothing sold for money each item's tax is 0. | not executed | Fbr.ItemTaxesAddUp, Fbr.ZeroSubtotalLosesItemTax | Fbr.CorrectedTaxesAddUp, Fbr.CorrectedAgreesOnNonZeroSubtotal |
