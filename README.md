# Kasir Pintar (LuminaPOS) — cart, checkout and inventory ledger in Dafny

This project models the core of a retail point-of-sale app:

- the persisted store of products and transactions, with its five-item seed catalog;
- the cart engine, which clamps quantities to live stock;
- checkout pricing (subtotal, 11% tax, total), payment validation and change;
- the commit of a sale: the transaction is prepended to the newest-first ledger, and the stock of each sold product is decremented;
- catalog editing: upsert and delete, both written as whole-catalog replacements;
- the dashboard and point-of-sale aggregations over the same data;
- the older single-file variant of the app, whose cart does not clamp.

Modules follow the source files:

| module | file | source |
|---|---|---|
| `Types` | `types.dfy` | `types.ts` (records), plus `findIndex` and the live-stock lookup |
| `Seqs` | `seqs.dfy` | the `filter` and `new Set(...)` idioms |
| `Db` | `db.dfy` | `db.ts`, and the identical `db` object at `index.tsx:55-85` |
| `Pricing` | `pricing.dfy` | the price formula shared by `App.tsx` and `views/PointOfSale.tsx` |
| `App` | `app.dfy` | `App.tsx` |
| `PointOfSale` | `point_of_sale.dfy` | `views/PointOfSale.tsx` |
| `ProductsView` | `products_view.dfy` | `views/ProductsView.tsx` |
| `Dashboard` | `dashboard.dfy` | `views/Dashboard.tsx` |
| `Legacy` | `legacy.dfy` | `index.tsx` (cart handlers, checkout, pay button) |

Modelling choices:

- The store is a class with two fields of type `Option<seq<...>>`. `None` means the localStorage key is absent. Serialisation is assumed to round-trip exactly.
- `saveTransaction` decrements stock in a fresh array, one line at a time. That loop is proved against the function `Db.Decrement`.
- Prices, stock and quantities are integers: the edit form parses them with `parseInt`. The subtotal is an integer sum.
- Tax, total, amount paid and change are exact `real`s, so `0.11` is exactly 11/100 and no float rounding is modelled.
- The product-edit draft (a `Partial<Product>`) is a full `Product`. An empty `id` means "new product"; an empty `image` means "no image given". These are the two falsy tests in `handleSave`.
- Parameters stand for the things the model cannot see:
  - `Date.now()` and `new Date().toISOString()` (transaction id, date, new product id, the seven dates of the dashboard window);
  - the result of `parseFloat` on the cash field (`Option<real>`, with `None` for NaN);
  - `toLowerCase` (a function `lower`);
  - the `confirm` dialog (a `bool`).

The checkout in `App.tsx` has no empty-cart guard of its own. An empty cart is stopped only by the disabled pay buttons (`PointOfSale.PayButton`). The guard exists only in the `index.tsx` variant. Stock is never checked again at commit time, so the decrement can drive it negative (`Db.DecrementIsNotClamped`).

The index.tsx `db` object (`index.tsx:55-85`) is the same store as `db.ts`. Its cold read writes the seed with `localStorage.setItem` rather than through `saveProducts`, with the same effect. The `Db` members therefore cover both.

## Model

| member | source | states |
|---|---|---|
| `Types.FindIndex` | db.ts:41 | the result is -1 iff no product has the id, otherwise the first index whose id matches |
| `Types.LiveStock` | App.tsx:42 | the stock of the first product with the id, or 0 when there is none |
| `Db.InitialProducts` | db.ts:7-13 | the seed catalog has five products with distinct ids, positive prices and positive stock |
| `Db.ApplyLine` | db.ts:41-44 | one line's decrement keeps length and every id |
| `Db.Decrement` | db.ts:40-45 | the stock update keeps catalog length and every id in place |
| `Db.DecrementSpec` | db.ts:39-46 | after the update, the first product with an id has lost exactly the summed quantity of that id's lines; every other field and entry is unchanged, and unknown ids have no effect |
| `Db.DecrementIsNotClamped` | db.ts:43 | selling two of a product with one in stock leaves stock -1 |
| `Db.CommitKeepsStockNonNegative` | db.ts:39-46 | if stocks start non-negative, ids in the cart are unique and each line asks at most the live stock, every stock stays non-negative |
| `Db.DecrementInPlace` | db.ts:40-45 | the in-place forEach over the catalog array yields exactly `Decrement` of the old contents |
| `Db.Store.GetProducts` | db.ts:15-22 | returns the stored catalog, or on a cold read stores and returns the seed; an existing catalog is not rewritten |
| `Db.Store.SaveProducts` | db.ts:24-26 | the stored catalog becomes exactly the argument (replace, not merge) |
| `Db.Store.GetTransactions` | db.ts:28-31 | an absent ledger reads as empty, a stored one as itself |
| `Db.Store.SaveTransaction` | db.ts:33-47 | the ledger becomes the transaction followed by the old ledger; the catalog becomes the decremented old catalog, seeded first if absent |
| `Db.ColdStart` | db.ts:15-21 | from an empty store two reads both return the five seed products |
| `Db.SaveThenRead` | db.ts:15-26 | a read after a save returns exactly what was saved; an empty catalog is not reseeded |
| `Db.RecordThenList` | db.ts:33-36 | after saving a transaction it is at index 0 and the old ledger follows |
| `Pricing.SubtotalAppend` | App.tsx:50 | the subtotal of two carts side by side is the sum of their subtotals |
| `Pricing.Subtotal` | App.tsx:50 | the price × quantity sum over the lines; never negative when no line has a negative price or quantity |
| `Pricing.Price` | App.tsx:50-52 | tax is 11/100 of the subtotal; total = subtotal + tax = subtotal × 1.11; with non-negative lines 0 ≤ tax ≤ total and subtotal ≤ total |
| `Pricing.TwoIcedLattes` | App.tsx:50-52 | two lattes at 28000 price to 56000 / 6160 / 62160 |
| `App.AddToCart` | App.tsx:24-36 | out of stock: cart unchanged; existing line: that line becomes min(q+1, stock) and others and order are kept; new product: one line of quantity 1 appended |
| `App.UpdateCartQty` | App.tsx:38-47 | every remaining line is positive; other ids' positive lines are kept; the id's line becomes min(max(0, q+d), live stock) and stays iff that is positive; every line of the id in the result is such an updated copy, so a line updated to 0 is gone |
| `App.UpdateCartQtyKeepsOrder` | App.tsx:39-46 | the update distributes over concatenated carts, so surviving lines keep their cart order |
| `App.AddToCartKeepsInvariant` | App.tsx:24-35 | adding keeps one line per id and 1 ≤ quantity ≤ live stock |
| `App.UpdateCartQtyKeepsInvariant` | App.tsx:38-46 | updating keeps one line per id and 1 ≤ quantity ≤ live stock |
| `App.UpdateOfMissingProductRemovesLine` | App.tsx:42-46 | a line whose product is gone from the live catalog is removed |
| `App.AddTwiceWithOneInStock` | App.tsx:31 | adding twice with stock 1 leaves quantity 1 |
| `App.LargeDecreaseRemovesLine` | App.tsx:41-46 | a decrease of 100 removes the line when its quantity is at most 100 |
| `App.BuildTransaction` | App.tsx:54-64 | the record copies the cart lines; total = subtotal + tax = subtotal × 1.11; change = amountPaid − total |
| `App.Session.Load` | App.tsx:19-22 | the component shows the stored (or seeded) catalog and the stored ledger |
| `App.Session.Refresh` | App.tsx:88 | the shown catalog is re-read from the store |
| `App.Session.HandleAddToCart` | App.tsx:24-36 | the cart becomes `AddToCart` of the old cart |
| `App.Session.HandleUpdateCartQty` | App.tsx:38-47 | the cart becomes `UpdateCartQty` of the old cart against the shown catalog |
| `App.Session.HandleCheckout` | App.tsx:49-71 | the record is prepended to the store ledger and to the shown ledger; the catalog is decremented and re-read; the cart is empty; stocks stay non-negative when the cart respected them |
| `PointOfSale.Categories` | views/PointOfSale.tsx:18 | 'All' first, then each product category exactly once, and nothing else |
| `PointOfSale.CategoriesInFirstAppearanceOrder` | views/PointOfSale.tsx:18 | the categories after 'All' follow the order of their first appearance |
| `PointOfSale.FilterProducts` | views/PointOfSale.tsx:20-24 | a product is shown iff (name or SKU contains the term, case-folded) and (category 'All' or equal); the list is never longer than the catalog |
| `PointOfSale.FilterProductsKeepsOrder` | views/PointOfSale.tsx:20-24 | the filter keeps catalog order |
| `PointOfSale.EmptySearchShowsAll` | views/PointOfSale.tsx:20-24 | empty search with 'All' shows the whole catalog in order |
| `PointOfSale.ItemCount` | views/PointOfSale.tsx:111 | with no negative quantity the badge is non-negative and at least any single line's quantity |
| `PointOfSale.ItemCountAppend` | views/PointOfSale.tsx:111 | the badge of two carts side by side is the sum of their badges |
| `PointOfSale.ItemCountAtLeastLines` | views/PointOfSale.tsx:111 | with positive quantities the item counter is at least the line count, and 0 only for the empty cart |
| `PointOfSale.HandleFinish` | views/PointOfSale.tsx:30-38 | accepted iff card, QRIS, or a parsed cash amount ≥ total; cash is forwarded unchanged; card and QRIS forward exactly the total |
| `PointOfSale.PayButton` | views/PointOfSale.tsx:176-199 | the three pay buttons do nothing on an empty cart |
| `PointOfSale.AcceptedPaymentChange` | views/PointOfSale.tsx:31-36 | an accepted payment records change ≥ 0; card and QRIS record amountPaid = total and change 0 |
| `PointOfSale.CashChangeExamples` | App.tsx:61 | cash equal to the total gives change 0; total + 5000 gives 5000 |
| `ProductsView.NewProduct` | views/ProductsView.tsx:23-27 | a new product takes the fresh id, keeps a non-empty image or gets the placeholder, and keeps every other field |
| `ProductsView.Upsert` | views/ProductsView.tsx:19-29 | an existing id replaces exactly its first index; an absent id changes nothing; a new product is prepended before all old entries in order |
| `ProductsView.HandleSave` | views/ProductsView.tsx:14-31 | no draft: no write; otherwise the stored catalog (seeded if absent) is replaced by its upsert; the `onRefresh()` re-read that follows is `App.Session.Refresh` |
| `ProductsView.Delete` | views/ProductsView.tsx:38 | a product survives iff its id differs |
| `ProductsView.DeleteKeepsOrder` | views/ProductsView.tsx:38 | survivors keep their order |
| `ProductsView.DeleteAbsentIsIdentity` | views/ProductsView.tsx:38 | deleting an absent id changes nothing |
| `ProductsView.DeleteIdempotent` | views/ProductsView.tsx:38 | deleting twice equals deleting once |
| `ProductsView.HandleDelete` | views/ProductsView.tsx:36-39 | once confirmed, the shown catalog minus the id replaces the stored one; otherwise nothing is written; the `onRefresh()` re-read that follows is `App.Session.Refresh` |
| `Dashboard.TotalRevenue` | views/Dashboard.tsx:12 | the sum of the totals; never negative when no total is |
| `Dashboard.RevenueAppend` | views/Dashboard.tsx:12 | revenue is additive over concatenated ledgers |
| `Dashboard.RevenueBetween` | views/Dashboard.tsx:12 | with every total in [lo, hi], revenue lies in [n·lo, n·hi] |
| `Dashboard.AvgOrderValue` | views/Dashboard.tsx:13-14 | 0 for no orders, otherwise average × count = revenue |
| `Dashboard.AverageWithinBounds` | views/Dashboard.tsx:13-14 | the average lies between the smallest and largest total |
| `Dashboard.DayTotal` | views/Dashboard.tsx:20-22 | the filter-then-reduce bucket equals the direct sum, transaction by transaction, of the totals whose date starts with the day |
| `Dashboard.DayTotalAtMostRevenue` | views/Dashboard.tsx:20-23 | with non-negative totals a bucket lies between 0 and the revenue |
| `Dashboard.Trend` | views/Dashboard.tsx:17-25 | one bucket per given day, oldest first |
| `Dashboard.TrendAtMostRevenue` | views/Dashboard.tsx:17-25 | with non-negative totals and distinct `YYYY-MM-DD` days (a hypothesis, see below), the bars together lie between 0 and the revenue: no sale is counted in two buckets |
| `Dashboard.CategoryCount` | views/Dashboard.tsx:30 | the number of products in the category, counted one by one; positive iff some product is in it |
| `Dashboard.CategoryData` | views/Dashboard.tsx:28-31 | one slice per distinct category in first-appearance order, valued by its product count; no slice has value 0 |
| `Dashboard.CategoryDataSumsToProductCount` | views/Dashboard.tsx:28-31 | the slice values sum to the number of products |
| `Dashboard.LowStockCount` | views/Dashboard.tsx:73 | the number of products with stock below 10, counted one by one; at most the product count, and 0 iff every stock is at least 10 |
| `Dashboard.LowStockNeverDropsAfterSale` | views/Dashboard.tsx:73 | a sale with non-negative quantities never lowers the low-stock figure |
| `Legacy.AddToCartUnclamped` | index.tsx:239-245 | an existing line gains one unit with no cap; a new product is appended with quantity 1 |
| `Legacy.UpdateQtyUnclamped` | index.tsx:247-249 | the line becomes max(0, q+d) and is dropped at 0; every line of the id in the result is such an updated copy; no stock clamp; other ids' positive lines are kept and the cart never grows |
| `Legacy.UpdateQtyUnclampedKeepsOrder` | index.tsx:248 | the update distributes over concatenated carts, so surviving lines keep their cart order |
| `Legacy.AddVariantsAgreeBelowStock` | index.tsx:241-243 | while the line stays below stock, both add handlers agree |
| `Legacy.UnclampedAddOverdraws` | index.tsx:242 | with stock 1, adding twice gives 2 (1 in App.tsx), and committing it drives stock to -1 |
| `Legacy.UpdateVariantsAgreeWithinStock` | index.tsx:248 | while the floored quantity stays within live stock, both update handlers agree |
| `Legacy.LegacyTransaction` | index.tsx:253-260 | the record copies the lines, total = subtotal + tax, and change is 0 whatever was paid |
| `Legacy.LegacyPricingAgrees` | index.tsx:253-258 | in exact arithmetic, subtotal × 1.11 and subtotal × 0.11 price as App.tsx does; only the change differs |
| `Legacy.PayNow` | index.tsx:220 | the pay button submits cash equal to the total |
| `Legacy.LegacySession.HandleAddToCart` | index.tsx:239-245 | the cart becomes the unclamped add of the old cart |
| `Legacy.LegacySession.HandleUpdateQty` | index.tsx:247-249 | the cart becomes the unclamped update of the old cart |
| `Legacy.LegacySession.HandleCheckout` | index.tsx:251-266 | an empty cart changes nothing; otherwise the record (change 0) is committed and prepended, stock is decremented and re-read, and the cart is emptied |

## Left out

- JSX rendering and formatting: `Intl.NumberFormat`, the chart labels of the seven-day trend (`MM/DD`), and the stock badges. All are presentation.
- The sidebar, the transaction history view and the AI insight view, including `analyzeBusiness` and `geminiService.ts`. The AI call is a network request whose only output is a string.
- localStorage, and `JSON.stringify`/`JSON.parse`: the store holds the sequences themselves.
- IEEE floating point: money derived from the tax and the average are exact rationals.
- Clocks: `Date.now()` and `new Date()` are parameters. Two calls to `Date.now()` inside one `handleSave` are one parameter `now`.
- Aliasing: the model works on values, so it does not capture this. On a cold read `getProducts` returns the module's `initialProducts` array itself, and a later in-place edit of that array (stock decrement, edit-in-place) also changes the in-memory seed.
- `alert` and `confirm` dialogs, and React's batching of `setState`.
- App.LargeDecreaseRemovesLine: a decrease of 100 removes a line only when its quantity is at most 100; a line holding more keeps the remainder, so the statement is not made for every line.
- Dashboard.TrendAtMostRevenue: the seven days are assumed distinct, which the dashboard does not guarantee. It steps back with `setDate` in local time and reads the date with `toISOString` in UTC, so around a daylight-saving change two of the seven days can coincide and that day's sales appear in two bars.
- UI state of the products form: `setEditingProduct` (opening, closing and clearing the draft after a save, `views/ProductsView.tsx:33`).
- Legacy.LegacyPricingAgrees: the agreement holds in exact arithmetic only. In IEEE doubles `subtotal * 1.11` and `subtotal + subtotal * 0.11` can differ in the last bit (for 56000 they give 62160.00000000001 and 62160).
- The multi-tab lost-update race between the ledger write and the catalog write.
- Fields of a `Partial<Product>` draft that were never set (`undefined`) are not distinguished from empty strings, and a `NaN` from `parseInt` in the form is not modelled.
- The search box of the legacy point-of-sale view (`index.tsx:192`, name only) and its dashboard (`index.tsx:140-180`): these duplicate the `PointOfSale` and `Dashboard` aggregations.
