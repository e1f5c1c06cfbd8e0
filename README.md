# Mall point-of-sale: verified model of the data layer and the billing cart

This project models the two sequential cores of a small multi-tenant
point-of-sale web application:

- **The server's data layer** (`app.py`). A mall registers under a unique
  mall code. Its administrator logs in with that code, creates staff users
  and adds products. Staff log in by username; only active accounts are
  considered. The billing page looks products up by barcode within the
  session's mall, and a checkout commits one transaction header plus one
  item row and one stock update per cart line. The reports page rolls
  item quantities up into a top-ten list.
  The five SQLite tables (`malls`, `users`, `products`, `transactions`,
  `transaction_items`) are sequences of rows with AUTOINCREMENT counters,
  fields of the class `App.Database`. The Flask session is the value
  `Schema.Session`.
- **The billing page's cart** (`static/js/billing.js`): a module-level array of
  lines `{id, name, price, quantity, stock}` that the page's buttons change in
  place, the total `updateCart` displays, and the request `completeBilling`
  posts. It is the class `Billing.Cart`, whose field `lines` the methods
  reassign.

Files:

- `schema.dfy` (module `Schema`): the rows, the session and the abstract
  password hash. `FirstMatch` models `fetchone()` over a `WHERE` clause.
  `KeysFresh` is the AUTOINCREMENT discipline: ids are positive, strictly
  increasing and bounded by the table's counter.
- `app.dfy` (module `App`): the read-only handlers are functions of the
  tables and the session. These are mall login, staff login and barcode
  lookup. The spec functions of the checkout are `ItemRows`,
  `DecrementStock`, `ApplyCheckout` and `QuantityFor`. The class
  `Database` holds the writing handlers. Its invariant `Valid()` is: the
  AUTOINCREMENT discipline on all five tables, unique mall codes, and every
  item row naming an existing transaction.
- `reports.dfy` (module `Reports`): the top-products query. It covers the
  joins, the grouping per product, a stable descending sort by units sold
  and the cut at ten rows.
- `billing.dfy` (module `Billing`): the cart transitions as functions of the
  old cart (`AddLine`, `IncrementAt`, `DecrementAt`, `RemoveAt`), the total,
  the checkout request, and the class `Cart` carrying them out.

Money (`price REAL`, `total_amount REAL`, JavaScript numbers) is modelled as
integer cents.

The model mirrors what the code does. Three behaviours are kept as written
and proved:

- The checkout has no stock guard; `App.CheckoutCanOversell` drives a stock to -1.
- The stock update has no mall filter. `App.CheckoutReachesOtherMall`
  shows that a product of any mall other than the checkout's loses the
  units the cart names it with.
- An item row is written even for a product id that no product has.

## Model

| member | source | states |
|---|---|---|
| Schema.HashPassword | app.py:85 | the stored hash accepts exactly the password it was made from, whatever the salt |
| Schema.FirstMatch | app.py:110 | `fetchone()`: the result is the first row satisfying the filter, or none when no row does |
| Schema.KeysFreshAppend | app.py:20 | appending a row with the counter's next id keeps ids positive, increasing and bounded by the counter |
| App.MallLogin | app.py:110-119 | mall login yields either a session or invalid credentials; success needs a mall with the code whose hash accepts the password, and the session gets that mall's id, name and role admin (other keys kept); no mall with the code means failure |
| App.MallLoginDecided | app.py:110-117 | with unique codes, the mall holding the code decides the login on its password alone, in both directions |
| App.RegisteredMallLogsIn | app.py:110-117 | a mall appended under a fresh code keeps codes unique and logs in with the password it registered with |
| App.StaffLogin | app.py:130-145 | staff login succeeds only for the first active user with the name, when its hash accepts the password and its mall exists; the session gets user id, mall id, role and mall name; no active user with the name (inactive ones included) means invalid credentials; the missing-mall outcome arises only after the first active namesake's password was accepted and no mall has its mall id |
| App.StaffLoginDecided | app.py:130-140 | the first active user with the name decides the login on its password; later same-named users are never tried |
| App.CreatedUserLogsIn | app.py:130-136 | a user just created, active and without an active namesake before it, logs in to its own mall |
| App.ScanProduct | app.py:236-252 | no mall in the session exactly when unauthorized; a found product is the first row of the session's mall with that barcode, as `{id, name, price, stock}`; not-found exactly when the mall has no such row, so another mall's row is never returned |
| App.AddedProductScanned | app.py:240-252 | a product added under a barcode new to its mall is what the lookup finds; a barcode the mall already had keeps answering with the older row |
| App.ItemRowsCopyCart | app.py:273-275 | the item rows are one per cart line, in order, with consecutive ids, the transaction id and the line's product id, quantity and price |
| App.DecrementStock | app.py:276 | the stock update keeps the table's length and every row's id |
| App.CheckoutStock | app.py:273-276 | after the loop each product's stock is its old stock minus the sum of the quantities of the lines naming it, with no lower bound, and every other column is unchanged |
| App.UnnamedProductUnchanged | app.py:276 | a product no line names keeps its row |
| App.CheckoutCanOversell | app.py:276 | a cart of 3 units against a stock of 2 leaves the stock at -1 |
| App.CheckoutReachesOtherMall | app.py:276 | for any checkout mall `m`, a product of a mall other than `m` loses exactly the quantities the cart names it with, like a product of `m` |
| App.ReferencesSurviveInsert | app.py:269-270 | appending a transaction header keeps every item row's transaction reference valid |
| App.ReferencesSurviveItem | app.py:274-275 | an item row naming an existing transaction keeps all references valid |
| App.DecrementKeepsKeys | app.py:276 | the stock update keeps the products' AUTOINCREMENT discipline |
| App.CheckoutStep | app.py:273-276 | one more cart line extends the item rows by exactly its row and applies exactly its stock update |
| App.CheckoutTurn | app.py:273-276 | one turn of the checkout loop keeps the item and product tables' discipline and references and extends both spec functions by one line |
| App.Database.constructor | app.py:17-74 | the store starts with five empty tables and satisfies its invariant |
| App.Database.Register | app.py:90-97 | a code already present fails and changes nothing; a fresh code appends exactly one mall row with the next id and the hashed password; no other table changes; the invariant (unique codes included) is kept |
| App.Database.CreateUser | app.py:207-218 | without a mall or without role admin nothing is written; otherwise exactly one user row with the session's mall, the hashed password and is_active 1 is appended; no other table changes |
| App.Database.AddProduct | app.py:183-196 | without a mall nothing is written; otherwise exactly one product row of the session's mall is appended; no other table changes |
| App.Database.InsertLines | app.py:273-276 | the loop appends the cart's item rows in order and leaves the products table as `ApplyCheckout` of the lines, keeping the invariant |
| App.Database.CompleteTransaction | app.py:256-281 | without a mall: unauthorized, no write at all; otherwise exactly one header with the session's mall, its user id or null and the client's total verbatim, then the item rows and the stock updates of the cart, returning the header's fresh id; malls and users are unchanged |
| Reports.GroupsExact | app.py:297-303 | each group is a product with a joined sale, carrying its name and the sum of its quantities in the mall's transactions, and every product with such a sale has its group |
| Reports.InsertBySoldPermutes | app.py:302 | inserting into the ordered list adds exactly that row |
| Reports.InsertBySoldSorted | app.py:302 | inserting into a list ordered by units sold descending keeps it ordered |
| Reports.SortBySoldSorted | app.py:302 | the sort orders by units sold descending |
| Reports.SortBySoldPermutes | app.py:302 | the sort is a permutation of the groups |
| Reports.CutOfOrdered | app.py:302 | cutting an ordered permutation of the groups keeps an ordered sub-multiset of them, and every row kept sells at least as much as every row dropped |
| Reports.TopRowsCorrect | app.py:302 | sort then limit keeps min(groups, 10) of the groups with multiplicity, ordered by units sold descending, none dropped outselling any kept, and all of them when there are at most ten |
| Reports.TopProducts | app.py:297-303 | no report without a mall; otherwise min(groups, 10) of the mall's groups with multiplicity, ordered by units sold descending, with no left-out group selling more than a kept one, and exactly the groups when there are at most ten |
| Reports.SoldAppend | app.py:297 | the units sold over two batches of item rows is the sum over each |
| Reports.SoldIgnoresNewTransaction | app.py:297-301 | a new transaction that no existing item names leaves the existing items' counts unchanged |
| Reports.SoldOfNewRows | app.py:297-301 | the item rows of a transaction of the mall count exactly the cart's quantities for each product |
| Reports.CheckoutAddsToSales | app.py:297-301 | after a checkout in a mall every product's units sold there grow by exactly the quantities the cart named it with |
| Reports.TwoSalesReported | app.py:297-303 | two sales of 3 and 5 units of one product report it with 8 sold |
| Billing.AddNewProduct | static/js/billing.js:52-59 | a product not in the cart is appended at the end with quantity 1 and the scanned price and stock; existing lines are untouched |
| Billing.AddExistingProduct | static/js/billing.js:43-51 | a product in the cart gains exactly one unit when its line holds fewer units than the scanned stock, otherwise the cart is unchanged |
| Billing.AddKeepsWellFormed | static/js/billing.js:43-60 | adding keeps ids unique and every quantity at least 1 |
| Billing.QuantityRisesOnlyBelowStock | static/js/billing.js:43-98 | under add and the + button a line's quantity rises only by one, only for the named line, and only while below the relevant stock; otherwise the line is unchanged |
| Billing.IncrementKeepsWellFormed | static/js/billing.js:96-103 | the + button keeps ids unique and quantities at least 1 |
| Billing.DecrementKeepsWellFormed | static/js/billing.js:105-110 | the - button keeps ids unique and never lowers a quantity below 1 |
| Billing.RemoveKeepsWellFormed | static/js/billing.js:112-115 | removing keeps ids unique and quantities at least 1 |
| Billing.RemoveDeletesOne | static/js/billing.js:112-115 | removing deletes exactly the line at the index and keeps the others in order |
| Billing.TotalAppend | static/js/billing.js:70-74 | the total of two carts placed end to end is the sum of their totals |
| Billing.TotalReplace | static/js/billing.js:70-74 | replacing one line changes the total by the difference of the two subtotals |
| Billing.TotalAfterRemove | static/js/billing.js:112-115 | removing a line lowers the total by its price times its quantity |
| Billing.TotalAfterAdd | static/js/billing.js:43-60 | adding raises the total by the scanned price (new line), by the line's price (existing line below stock), or not at all |
| Billing.TotalAfterButtons | static/js/billing.js:96-110 | the + and - buttons move the total by one unit price exactly when they act |
| Billing.CheckoutRecordsCart | static/js/billing.js:134-139 | the server's item rows for the posted cart copy its lines in order, and their sum of price times quantity equals the total sent |
| Billing.CheckoutStockOfCart | static/js/billing.js:134-139 | with unique ids the checkout lowers each cart product's stock by exactly its line's quantity |
| Billing.AbsentIdCountsZero | static/js/billing.js:134-139 | a product id that no cart line carries receives no stock decrement |
| Billing.Cart.constructor | static/js/billing.js:1 | the cart starts empty |
| Billing.Cart.AddToCart | static/js/billing.js:42-64 | the cart becomes `AddLine` of the old cart and stays well formed; the "added" answer is false exactly when the cart did not change (not enough stock) |
| Billing.Cart.IncreaseQuantity | static/js/billing.js:96-103 | the cart becomes `IncrementAt` of the old cart; it reports an increase exactly when the quantity was below the line's stored stock |
| Billing.Cart.DecreaseQuantity | static/js/billing.js:105-110 | the cart becomes `DecrementAt` of the old cart and stays well formed |
| Billing.Cart.RemoveItem | static/js/billing.js:112-115 | the cart becomes `RemoveAt` of the old cart (an index past the end changes nothing) and stays well formed |
| Billing.Cart.ClearCart | static/js/billing.js:117-122 | a confirmed clear empties the cart, a refused one changes nothing |
| Billing.Cart.UpdateCart | static/js/billing.js:70-74 | the loop's total is the sum over the lines of price times quantity |
| Billing.Cart.CompleteBilling | static/js/billing.js:124-158 | an empty cart sends nothing and stays empty; otherwise the cart's items and total are sent, and the cart is emptied exactly when the reply reports success |

## Left out

- Flask routing, templates, `flash`, `redirect` and `jsonify` are not modelled. Handler results are outcome datatypes (`RegisterOutcome`, `LoginOutcome`, `ScanOutcome`, `CheckoutOutcome`, ...), and a redirect to the login page is the "not logged in" outcome.
- The sqlite3 connection, `commit` and `close` are not modelled. Each handler's writes are one atomic step on the store; the schema is the row datatypes and the counters.
- The dashboard, the daily sales of the reports page, `created_at` and every other timestamp are left out: they depend on the wall clock and sqlite's date functions.
- Werkzeug's `generate_password_hash` and `check_password_hash` are a foreign library. They are modelled as an ideal hash that accepts exactly its password; the random salt is a parameter.
- Floating-point prices and totals (`REAL`, `toFixed`, `parseFloat`) are integer cents, so rounding is not modelled.
- `fetch`, async, the DOM, notifications, tab switching and the camera scanner are left out: they are I/O and browser APIs. The server's reply to `completeBilling` is the parameter `succeeded`, and a failed request counts as no success.
- static/js/particles.js is not part of this model: it is a random-driven animation.
- App.StaffLogin: when the user's mall row is missing, the source has already written `user_id`, `mall_id` and `role` into the session before it fails. The model returns `MallMissing` and does not model that partial session write.
- Billing.Cart.IncreaseQuantity: requires an index inside the cart. The page only passes indices of rendered lines, and the source would throw on any other index.
- Billing.Cart.DecreaseQuantity: requires an index inside the cart, for the same reason.
- Billing.Cart.CompleteBilling: the total it sends is the cart's `Total`. The source parses the rendered text instead, and the model assumes that text is up to date.
- Reports.TopProducts: among groups that sell the same number of units, the contract does not say which order they come in or which of them is kept at the tenth place. SQLite leaves the order of ties unspecified; the model's function uses a stable sort over product-table order.
- Reports.TopProducts: the join is modelled for stores whose primary keys are unique, which `App.Database` maintains. A duplicated key, which would multiply joined rows in SQL, is not modelled.
- Malformed requests are not modelled: the handlers take typed arguments, so a missing form or JSON key, a non-numeric `price` or `stock`, or a cart line without `id` cannot arise; the source fails on these before its commit and writes nothing. An absent `customer_name` is the empty string, as the source defaults it. The cart index is a natural number, so `splice` with a negative index, which would remove from the end, is not modelled; the buttons never pass one.
- Billing.Cart: the lines are values, so aliasing of a line object held elsewhere is not modelled; the source holds no such reference.
