# MiTienda computer store: the cart and order data layer

MiTienda is a Kivy shop app for computer parts. Its data layer is the
`DatabaseManager` class in `App.py`. That class keeps four SQLite tables:

- `productos`: the catalogue.
- `carrito`: the cart, one line per product, with the unit price copied when the line is created.
- `pedidos`: orders, with status `'pendiente'` by default.
- `detalles_pedidos`: one detail row per cart line of an order.

The cart screen builds two actions on top of it: deleting one cart line, and
checkout. Checkout turns the cart into an order and then empties the cart.

This project models that layer in Dafny:

- `wrappers.dfy`: `Option`, for a `fetchone()` that may find no row.
- `sql_like.dfy`: SQLite's `LIKE` operator, as the product search uses it.
  `%` and `_` are wildcards, and only ASCII `A`..`Z` are case-folded. It also
  proves that, for a text without wildcard characters, `LIKE '%t%'` is a
  case-insensitive substring test.
- `tables.dfy`: the row datatypes. Each query and each SQL statement is a
  function over the tables, which are sequences in rowid order. None of the
  queries has an ORDER BY, so SQL itself promises no order. Rowid order is
  what SQLite's plans for these queries give: a full scan of the table, and,
  for the join, a scan of `carrito` that looks up each product by its INTEGER
  PRIMARY KEY. The lemmas state what each statement does to the rows.
- `seed.dfy`: the 18-product sample catalogue `init_database` inserts, and
  lemmas about the queries on it.
- `store.dfy`: the state-changing side.
  - `DatabaseManager` is a class. Its fields are the four tables and the
    AUTOINCREMENT counters.
  - Its methods (`AddToCart`, `ClearCart`, `CreateOrder`) change those fields.
    They keep an invariant `Valid()`: ids increase, there is one cart line per
    product, and every cart line names a catalogue product.
  - `CartScreen` holds `RemoveItem` and `Checkout`.

Prices are whole cents (`int`): the source's REAL prices all have two decimals.
Quantities, ids and the AUTOINCREMENT counters are unbounded integers here; in the source they are SQLite INTEGERs, which are signed 64-bit.

## Model

| member | source | states |
|---|---|---|
| SqlLike.Like | App.py:133-134 | SQLite's `s LIKE p` with '%' (any run), '_' (one character) and ASCII-case-insensitive literals; a pattern without '%' matches only texts of its own length. Its meaning is pinned down by SqlLike.LikePercentAll, SqlLike.LikeLeadingPercent and SqlLike.LikeLiteralPrefix |
| SqlLike.FoldCase | App.py:133-134 | LIKE's case folding maps exactly the ASCII capitals 'A'..'Z' to lower case and leaves every other character unchanged |
| SqlLike.ContainsPattern | App.py:133-134 | the pattern `%t%` is the text wrapped in one '%' on each side |
| SqlLike.LikePercentAll | App.py:133-134 | the pattern '%' matches every text |
| SqlLike.LikeLiteralPrefix | App.py:133-134 | for a text t without wildcards, `s LIKE t%` holds iff s starts with t, ignoring ASCII case |
| SqlLike.LikeLeadingPercent | App.py:133-134 | `s LIKE %q` holds iff some suffix of s matches q |
| SqlLike.LikeContainsIsSubstring | App.py:132-134 | for a search text without wildcards, `s LIKE '%t%'` holds iff t occurs in s, ignoring ASCII case |
| SqlLike.UnderscoreMatchesAnyCharacter | App.py:132-134 | a '_' in the search text is a wildcard: searching "_" matches any one-character text, though that text does not contain '_' |
| Tables.Filter | App.py:122-137 | a WHERE scan keeps a row iff the row is in the table and meets the condition, in table order (a subsequence) |
| Tables.FindFirst | App.py:141-146 | fetchone() on a scan is None iff no row meets the condition; otherwise it is the first row that does |
| Tables.FilterKeepsAll | App.py:125-137 | a condition that every row meets keeps the whole table |
| Tables.FilterKeepsNone | App.py:125-137 | a condition that no row meets selects nothing |
| Tables.FilterConcat | App.py:125-137 | scanning a table in two parts selects each part's rows, concatenated |
| Tables.FilterAgrees | App.py:125-137 | two conditions that agree on every row select the same rows |
| Tables.ListProducts | App.py:120-137 | get_productos lists a product iff it passes the category condition (skipped for None, '' or 'Todos') AND the name-or-description LIKE condition (skipped for None or ''); result in table order |
| Tables.ListProductsUnfiltered | App.py:124-137 | with no category (or 'Todos') and no search text, every product is listed in table order |
| Tables.ListProductsTodos | App.py:128-130 | category 'Todos' gives the same list as no category, for every search text |
| Tables.ListProductsByCategory | App.py:128-130 | a real category lists exactly the products of that category |
| Tables.ListProductsCategoryBlock | App.py:128-137 | when a category's products come first in the table, the category filter returns exactly that prefix |
| Tables.ListProductsBySearch | App.py:132-134 | a search text without wildcards lists exactly the products whose name, or non-NULL description, contains it, ignoring ASCII case |
| Tables.FindByBarcode | App.py:141-146 | get_producto_por_codigo is None iff no product has that code (NULL codes never match); otherwise it is the first product with that code |
| Tables.FindByBarcodeOtherLength | App.py:141-146 | a code whose length differs from every stored code finds nothing |
| Tables.ProductById | App.py:166-167 | the price lookup by id is None iff no product has that id; otherwise it returns a product with that id |
| Tables.ProductByIdFirst | App.py:166-167 | a successful lookup by id returns the first product, in table order, with that id |
| Tables.ProductByIdUnique | App.py:40-41 | with a unique primary key, the lookup by id returns the one product with that id |
| Tables.LineFor | App.py:156-157 | the lookup of a product's cart line is None iff no line names the product; otherwise it is the first line, in rowid order, of that product |
| Tables.SetQuantity | App.py:162-163 | the UPDATE sets the quantity of every line of the product and changes no id, product or unit price, and no other line |
| Tables.CartAfterAdd | App.py:150-173 | agregar_al_carrito fails iff the product has no cart line and no row in productos |
| Tables.AddIsUpdate | App.py:159-163 | when the product has a line, the add is the UPDATE of its quantity to the old quantity plus the requested one |
| Tables.AddMergesIntoLine | App.py:159-163 | adding a product that has a line keeps the line count and one line per product; its line now has the summed quantity; every line keeps its id and unit price; other lines are untouched |
| Tables.SetQuantityFindsLine | App.py:156-163 | after the UPDATE there is still one line per product, and the lookup finds the product's line with the new quantity |
| Tables.LineForUnique | App.py:156-157 | with one line per product, the lookup by a line's product finds that line |
| Tables.AddInsertsLine | App.py:164-173 | adding a product without a line appends one line with the next id, the requested quantity and the product's current price; one line per product still holds |
| Tables.AddFailsOnlyForUnknownProduct | App.py:166-167 | a failed add means no product has that id and no line names it |
| Tables.AddAllAccumulates | App.py:150-173 | repeated adds of a product that has a line keep one line for it, with the same id and unit price and the sum of all quantities; the line count does not change |
| Tables.FirstAddFreezesPrice | App.py:150-173 | from a cart without the product, a series of adds leaves one new line for it, priced at the product's price at the first add, holding the sum of the quantities |
| Tables.CartView | App.py:178-189 | get_carrito has no more rows than the cart, and every row joins one cart line with a product of the same id; subtotal = quantity x unit price |
| Tables.CartViewEmpty | App.py:178-189 | the join is empty iff no cart line names an existing product |
| Tables.CartViewEmptyIffCartEmpty | App.py:178-189 | when every line names a product, the join is empty iff the cart is |
| Tables.CartViewSkip | App.py:182-186 | a first line whose product is missing contributes no row: the view is that of the other lines |
| Tables.CartViewCons | App.py:182-186 | a first line whose product exists contributes the first row of the join, ahead of the rows of the other lines |
| Tables.CartViewPerLine | App.py:178-189 | when every line names a product, the join has one row per line, in cart order, copying the line and its product's name |
| Tables.Total | App.py:563 | checkout's total, the sum of the view rows' subtotals; not negative when no subtotal is. Tables.ViewTotalIsCartTotal equates it with the cart's worth |
| Tables.ViewTotalIsCartTotal | App.py:182-183 | when every line names a product, the sum of the view's subtotals is the sum of quantity x unit price over the cart |
| Tables.WithoutLine | App.py:537-543 | the DELETE by line id keeps exactly the other lines, in order |
| Tables.WithoutUnknownLine | App.py:537-543 | deleting an id that no line has leaves the cart as it was |
| Tables.FilterDropsOne | App.py:537-543 | a condition that fails on exactly one row removes that row and keeps the rest in order |
| Tables.WithoutLineRemovesMatching | App.py:537-543 | with unique line ids, deleting any id that some line has removes exactly that line and keeps the rest in order |
| Tables.WithoutLineRemovesOne | App.py:537-543 | with unique line ids, deleting an existing id removes exactly that line |
| Tables.DetailsFor | App.py:213-219 | crear_pedido's detail rows: one per view row, in order, with consecutive ids, the order id, and the row's product, quantity and unit price |
| Tables.DetailsForSnoc | App.py:214-219 | one more loop iteration appends exactly the next detail row |
| Tables.DetailsTotalIsViewTotal | App.py:213-219 | the detail rows are worth the view's total |
| Tables.SnapshotOfCart | App.py:209-219 | when every line names a product, an order's details copy the cart line for line (product, quantity, unit price) and are worth the cart's total |
| Seed.Catalogue | App.py:92-111 | the sample catalogue has 18 products |
| Seed.CatalogueRows | App.py:90-116 | row i of the seeded table has id i + 1, a non-negative price and stock, and a 13-character barcode |
| Seed.ProcessorsFirst | App.py:93-95 | the 'Procesadores' rows are exactly the first three |
| Seed.LookupSampleBarcode | App.py:682-701 | the scanner's sample code 1234567890123 finds the AMD Ryzen 9 7950X |
| Seed.LookupUnknownBarcode | App.py:141-146 | a code no product carries finds nothing |
| Seed.ListSampleProcessors | App.py:128-130 | the 'Procesadores' filter lists the three processors in table order |
| Seed.ListSampleAll | App.py:128-130 | the 'Todos' filter lists the whole catalogue |
| Seed.SearchIgnoresCase | App.py:132-134 | searching "ryzen" lists every product whose name contains "Ryzen" |
| Store.CartIdsUnique | App.py:55-56 | increasing line ids are unique |
| Store.DatabaseManager.constructor | App.py:28-117 | init_database on a fresh file yields the valid state: the seeded catalogue, empty cart, orders and details, and every AUTOINCREMENT counter at 1 (so the first order is number 1) |
| Store.DatabaseManager.AddToCart | App.py:150-173 | (quantity defaults to 1) the new cart is the one the add specifies, or the old cart when the add fails; the line counter advances exactly when a line is inserted; the invariant is kept |
| Store.DatabaseManager.ClearCart | App.py:192-198 | the cart is empty afterwards and nothing else changes |
| Store.DatabaseManager.CreateOrder | App.py:200-223 | appends one 'pendiente' order with the next order id and the given total, address and GPS text; appends the detail rows of the current cart view; cart and products unchanged; the invariant is kept |
| Store.DatabaseManager.InsertDetails | App.py:213-219 | the loop appends exactly the detail rows of the view, numbered from the next detail id |
| Store.CartScreen.constructor | App.py:436-439 | the cart screen works on the store's database |
| Store.CartScreen.RemoveItem | App.py:537-543 | the cart loses exactly the line with that id; an unknown id changes nothing; the invariant is kept |
| Store.CartScreen.Checkout | App.py:556-576 | an empty cart creates no order and changes nothing. Otherwise: one order appended with the next id, the cart's total and status 'pendiente'; the order counter advanced by one; earlier details kept; one new detail per line, numbered consecutively from the next detail id, copying the line and worth the total; the detail counter advanced by the number of lines; the cart cleared; the products unchanged |
| Store.OrderAppendKeepsValid | App.py:202-211 | appending an order with the next id keeps order ids increasing and below the counter |
| Store.DetailsAppendKeepsValid | App.py:213-219 | appending the new order's details, numbered from the next detail id, keeps detail ids increasing and every detail's order id below the order counter |
| Store.MergeKeepsCartValid | App.py:159-163 | the quantity UPDATE keeps the cart invariant |
| Store.SameKeysKeepCartValid | App.py:159-163 | lines with the same ids and products as a valid cart form a valid cart |
| Store.JoinKeptBySameProducts | App.py:182-186 | lines naming the same products as joined lines join as well |
| Store.InsertKeepsCartValid | App.py:164-173 | inserting a line with the next id, for a catalogue product that has no line, keeps the cart invariant |
| Store.RemainingLinesValid | App.py:537-543 | the DELETE of a line keeps the cart invariant |
| Store.SubsequenceKeepsOrder | App.py:537-543 | the lines left after a DELETE keep increasing ids and one line per product |
| Store.SubsequenceElements | App.py:537-543 | every line left after a DELETE was in the cart |

## Left out

- The Kivy screens, popups, image loading and currency formatting (`f'{total:,.2f}'`): user interface, not data.
- GPS, accelerometer, camera and barcode scanning: device I/O. `Checkout` takes the GPS text `ubicacion_gps` as a parameter, and the scanner's decoded code is a parameter of `FindByBarcode`.
- The `created_at` timestamps: `SELECT *` in `get_productos` and `get_producto_por_codigo` returns `productos.created_at`, but no caller reads that column; `pedidos.created_at` is never selected. `Tables.Product` and `Tables.Order` have no such field.
- The connection handling of each method (`connect`, `commit`, `close`): each method is one committed transaction.
- In `crear_pedido`, the cart is read through a second connection while the order INSERT is still uncommitted. The model reads the same rows, as that transaction sees them.
- The deletion of `computer_store.db` at the start of `init_database`. Three of the four screens (home, cart and scanner) build their own `DatabaseManager` at app start, and so re-run that initialisation; the map screen builds none. The model starts from the freshly seeded state once, and every screen shares the one `DatabaseManager`.
- The screens that only call the modelled queries (home list, category buttons, search box, scanner, map), and the map's distance computation.
- Integer width: quantities, ids and the AUTOINCREMENT counters are bounded by 64 bits in the source and unbounded in the model. In the source, a summed quantity above 2^63-1 makes sqlite3 raise `OverflowError` when it binds the UPDATE's parameter, and nothing is committed; in the model that add succeeds with the sum.
- Prices are REAL in the schema and floats in Python. The model uses exact cents, so float rounding in the subtotals and the total is not modelled.
- `stock` is stored but never read or decremented by the cart or the checkout, so no operation of the model changes it.
- Error cases: the code has no not-found error for an unknown line id in `remove_item`, and no invalid-argument error for a zero or negative quantity in `agregar_al_carrito`.
  - An unknown line id in `remove_item` changes nothing.
  - An unknown product in `agregar_al_carrito` makes `fetchone()[0]` raise before any write. The model returns `ok == false` with the cart unchanged.
  - A zero or negative quantity is accepted, as the code does.
- LIKE's wildcards are not escaped: a `%` or `_` typed into the search box acts as a wildcard. `SqlLike.UnderscoreMatchesAnyCharacter` shows one consequence.
- The foreign keys are not enforced (SQLite's default). That a cart line names an existing product is part of the invariant `Valid()`, because it holds while the only writes are the modelled ones.
- Store.DatabaseManager.AddToCart: states the new cart through `Tables.CartAfterAdd`. The line-level facts (summed quantity, frozen price, one line per product) are proved in `Tables.AddMergesIntoLine` and `Tables.AddInsertsLine`, and not repeated in the method's contract.
