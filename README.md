# Storefront cart: a Dafny model

This project models the cart core of a small storefront backend (an Express
server over an in-memory SQLite database). The database has two tables:

- `products` is seeded at startup with eight products and never written again.
- `cart_items` holds the lines of one cart that every client shares.

Five request handlers act on those tables:

- `GET /api/products` lists the catalog.
- `GET /api/cart` joins the cart lines with their products and adds up `total` and `itemCount`.
- `POST /api/cart` adds a product. A product that already has a line gets that line's quantity raised (merge) instead of a second line.
- `DELETE /api/cart/:id` removes a line by its id.
- `POST /api/checkout` validates the customer, takes a snapshot of the cart with its total, empties the cart and returns a receipt.

Layout:

- `tables.dfy` (module `Tables`) has the row types and the SQL statements that need more than a plain sequence operation: the two lookups, the UPDATE by `productId`, the DELETE by id and the two joins, each a function on the rows. The INSERT of a new line (`items + [line]`), checkout's `DELETE FROM cart_items` (`items := []`) and `SELECT * FROM products` (`rows := products`) are written directly in the `Store` methods. It also has the cart invariant and the lemmas that the statements keep it: one line per product, distinct line ids, and every line pointing to a catalog product.
- `totals.dfy` (module `Totals`) has the `reduce` fold (`Sum`) and the `Reduce` loop that computes it. It also has the reference sums `ItemCount` (quantities) and `CartTotal` (price times quantity), proved equal to the folds over the joined rows, and lemmas on how each cart change moves them.
- `catalog.dfy` (module `Catalog`) holds the seed rows, with prices in integer cents.
- `server.dfy` (module `Server`) holds class `Store`: a `const` product table, a mutable `items` sequence for `cart_items`, and one method per handler. `AddItem`, `RemoveItem` and `Checkout` return an explicit `Ok`, `BadRequest` or `NotFound` with the source's messages. `ListProducts` and `ViewCart`, which have no error path besides storage failures, return their bodies directly. `MergeExample` is a worked example "add product 1 with quantity 1, then 2".

Modelling choices:

- Tables are sequences of rows in insertion order. The joins list their rows in cart-line order. The SQL itself has no `ORDER BY`, so the model fixes an order the database does not promise.
- `productId` arrives as `Option<string>`. JavaScript's `!productId` is "absent or empty".
- `quantity` arrives as `Option<int>`. An absent quantity defaults to 1, as the destructuring default does. The code never checks that the quantity is positive, so a quantity of 0 or less is stored (or added to an existing line) as given.
- The `cart_items` foreign key is declared, but SQLite only enforces foreign keys when asked to. "Every line refers to a catalog product" is therefore proved as an invariant the add handler keeps by its own product lookup.
- The UUID of a new line is the `freshId` parameter. It is required not to be the id of an existing line. The time-derived order id is the `orderId` parameter.

## Model

| member | source | states |
|---|---|---|
| `Catalog.Seed` | backend/server.js:37-94 | The eight seed products (ids "1" to "8", prices from 14.99 to 199.99, in cents) have distinct ids, as the `products` primary key requires |
| `Server.Store.constructor` | backend/server.js:96-100 | After startup the product table is exactly the seed, the cart is empty, and the cart invariant holds |
| `Server.Store.ListProducts` | backend/server.js:106-113 | Returns every product row, in order. The table is a constant fixed by startup |
| `Tables.SelectProduct` | backend/server.js:145 | The lookup finds a row exactly when some product has that id, and what it finds has that id |
| `Tables.SelectProductAt` | backend/server.js:145-151 | With distinct product ids, looking up a product's id returns that product |
| `Tables.SelectLineByProduct` | backend/server.js:154 | The lookup finds a line exactly when some line has that product, and what it finds is a line for that product |
| `Tables.SelectLineAt` | backend/server.js:154-159 | With one line per product, looking up a line's product returns that very line |
| `Tables.UpdateQuantityByProduct` | backend/server.js:162-164 | The UPDATE keyed on `productId` keeps the number of rows; what it does to each row is stated by `Tables.UpdateOnlyMatching` |
| `Tables.CartJoin` | backend/server.js:117-121 | The cart view's inner join never yields more rows than there are cart lines; with every line in the catalog, `Tables.JoinAligned` gives exactly one row per line |
| `Tables.OrderJoin` | backend/server.js:214-218 | Checkout's join has exactly as many rows as the cart view's join over the same tables |
| `Totals.SumLeftFold` | backend/server.js:126 | The fold `Sum` is the left fold `reduce` computes: the sum over all but the last row, plus the last row's term |
| `Tables.UpdateOnlyMatching` | backend/server.js:162-164 | The UPDATE keyed on `productId` sets the new quantity on every line of that product and leaves every other line equal |
| `Tables.UpdateTouchesOneLine` | backend/server.js:159-164 | Under one line per product, that UPDATE replaces exactly the existing line's quantity; no line is added, dropped or otherwise changed |
| `Tables.MergeKeepsInvariant` | backend/server.js:159-170 | Raising one line's quantity keeps distinct ids, one line per product and catalog membership |
| `Tables.InsertKeepsInvariant` | backend/server.js:172-183 | Appending a fresh-id line for a catalog product that has no line keeps the cart invariant |
| `Tables.DeleteWhereId` | backend/server.js:194 | The DELETE by id leaves no line with that id, adds no line and never adds rows |
| `Tables.DeleteAbsent` | backend/server.js:194-200 | A DELETE whose id matches no line leaves the table unchanged, so zero rows change |
| `Tables.DeleteAt` | backend/server.js:194-201 | Under distinct line ids, a DELETE by a line's id removes exactly that line and keeps the others in order |
| `Tables.DeleteKeepsInvariant` | backend/server.js:194 | Deleting by id keeps the cart invariant |
| `Tables.JoinAligned` | backend/server.js:117-121 | When every line refers to a catalog product, the cart view's join has one row per line, in order, with that line's id, product and quantity and its product's name, price and image |
| `Tables.OrderJoinAligned` | backend/server.js:214-218 | Under the same condition, checkout's join lists, per line and in order, its quantity with its product's price and name |
| `Totals.SumAppend` | backend/server.js:126 | The fold over a concatenation is the sum of the folds over the two parts |
| `Totals.Reduce` | backend/server.js:126 | The `reduce` loop returns the sum of the projection over all rows |
| `Totals.JoinTotal` | backend/server.js:126 | The view's `total` fold over the joined rows equals the sum of price times quantity over the cart lines |
| `Totals.JoinCount` | backend/server.js:131 | The view's `itemCount` fold over the joined rows equals the sum of line quantities when every line refers to a catalog product |
| `Totals.OrderTotal` | backend/server.js:223 | Checkout's total fold over its own join equals the cart's price-times-quantity sum |
| `Totals.MergeRaisesTotals` | backend/server.js:159-164 | Raising one line's quantity by q raises the item count by q and the total by that product's price times q |
| `Totals.InsertRaisesTotals` | backend/server.js:172-177 | Appending a line raises the item count by its quantity and the total by its price times its quantity |
| `Totals.RemoveLowersTotals` | backend/server.js:194 | Removing a line lowers the item count by its quantity and the total by its price times its quantity |
| `Server.Store.ViewCart` | backend/server.js:116-134 | `total` is the price-times-quantity sum over the lines and `itemCount` the quantity sum. There is one row per line, in order, joined with its product. An empty cart gives no rows, 0 and 0 |
| `Server.Store.AddItem` | backend/server.js:137-188 | A `productId` that is absent or empty (the `Blank` guard, JavaScript's `!productId`) gives 400 and an unknown product gives 404, both with the cart unchanged. For a product with a line, that line's quantity rises by `RequestedQuantity`: the given quantity, or 1 when it is absent; its id is returned, and no other line changes. Otherwise exactly one new line (fresh id, product, quantity) is appended. Item count and total move accordingly, and the invariant is kept |
| `Server.Store.RemoveItem` | backend/server.js:191-203 | An id matching no line gives 404 with the cart unchanged. Otherwise exactly that line is removed, the others keep their order, and count and total drop by that line's share |
| `Server.Store.Checkout` | backend/server.js:206-244 | A missing `customerInfo`, or one whose name or email is absent or empty (the `MissingCustomer` guard), gives 400 and the cart is not cleared. Otherwise the receipt holds the pre-checkout joined lines, the pre-checkout total and status `completed`, and the cart is empty afterwards |
| `Server.MergeExample` | backend/server.js:159-170 | Adding product "1" with quantity 1 and then 2 leaves one line of quantity 3, an item count of 3 and a total of 29997 cents (299.97) |

## Left out

- HTTP plumbing is not modelled: CORS, JSON body parsing, the 404 and 500 fallback handlers and `app.listen`. It is framework I/O.
- Storage failures are not modelled: every `err` branch that answers 500 is absent, because every SQL statement is taken to succeed. They come from a foreign library.
- Prices are not floating point: they are SQL `REAL` in the source and integer cents here, and the `toFixed(2)`/`parseFloat` rounding of totals is not modelled.
- UUID generation is left out. The new line id is the `freshId` parameter, required unused; a colliding id would be a primary-key failure, a storage error.
- `Date.now()` order ids, the receipt's ISO timestamp and the `addedAt` column are left out. The order id is the `orderId` parameter; the two timestamps are not modelled.
- Interleaving between requests is not modelled: each handler is one atomic step. The source's snapshot-then-clear checkout is not atomic against concurrent adds.
- Server.Store.AddItem: quantities, and the item count and total summed from them, are exact unbounded integers. The sum `existingItem.quantity + quantity` (backend/server.js:161) is a JavaScript double, exact only up to 2^53, and SQLite stores `quantity` as a 64-bit INTEGER; neither limit is modelled.
- Server.Store.AddItem: accepts only an absent or integer `quantity`. A `null` or non-numeric quantity, where JavaScript's `+` would concatenate or the NOT NULL column would reject the insert, is not modelled.
- Server.Store.AddItem: takes `productId` as an absent or string value. Numeric or other JSON values, which SQLite would coerce, are not modelled.
- Server.Store.Checkout: the receipt carries no timestamp. `customerInfo` is modelled only through its `name` and `email` fields.
- Server.Store.ViewCart: the joined rows are in cart-line order, an order the SQL query does not promise.
- The client (frontend/src/App.js) is not modelled: React view state, network calls, alerts and image fallbacks. It holds no business rules of its own.
