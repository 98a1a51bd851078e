# Storefront cart and checkout, modelled in Dafny

A model of the cart and checkout logic of a small storefront API, together with the catalog
handlers around it. The store holds two collections:

- **products**: a map from product id to a `Product` document (title, description, price,
  thumbnail, code, stock, status, category, owner);
- **carts**: a map from cart id to an ordered list of line items, each a product id and a quantity.

It also keeps an append-only log of purchase **tickets**.

Every handler that reads or changes a collection is a method. It answers `Ok`/`Created`
(200/201), `NotFound` (404), `BadRequest` (400) or `ServerFault` (500), and states how the
collections change. Two handlers are different. The product listing (`CatalogQuery.GetProducts`)
is a function that returns a `Listing`. The catalog page (`Views.RenderProducts`) returns a
`CatalogPage`.

- `ProductStore` (module `Products`) is the product collection. Its methods are the product API:
  fetch one, create, update and delete. It also has the stock `$inc` that checkout uses.
- `CartStore` (module `Carts`) holds the carts and the ticket log, and refers to the product
  collection. Its methods are the cart API: create, fetch, add one unit, remove a product, replace
  the list, set a quantity, clear, and purchase.
- Checkout is all or nothing:
  - every line is checked against the current stock of its product;
  - if any line fails, every failing line is reported, in cart order, and nothing changes;
  - otherwise stock is taken off line by line, one ticket for Σ price × quantity is logged, and
    the cart is emptied.
- The pure parts are functions with lemmas. Module `CartLines` holds the line-list edits, module
  `Checkout` the checkout's specification, and module `CatalogQuery` the mapping from listing
  parameters to filter, sort and paging options and the previous/next links. Module
  `QueryString` renders a link's query string and reads it back. Module `ProductValidation` holds
  the create-time checks and the update merge.
- `Views` holds the rendered pages. The catalog page binds the browser `Session` to a cart: it
  creates one empty cart the first time and reuses it after that.

Prices are integer cents. Ids are naturals handed out by a counter per collection.

Some behaviour of the handlers is easy to miss:

- Removing a product drops *every* line for it, not one line.
- A missing quantity is rejected along with zero and negative ones.
- A price or stock of 0 is rejected at create time as a *missing* field, because the check tests
  truthiness. So only a price and stock of at least 1 are accepted.
- A duplicate code at create time is a 400, not a separate conflict status.
- An update is merged without checking the schema's bounds. The unique index on `code` still
  refuses a duplicate code, and the handler answers that with a 500.
- Checkout checks each line on its own against the stock from before the checkout. A cart with two
  lines for one product can therefore pass and drive that product's stock below zero.
  `DuplicateLinesOverdraw` exhibits this. `CheckoutKeepsStockNonNegative` proves that stock stays
  at 0 or more when the cart's product ids are distinct.

## Model

| member | source | states |
|---|---|---|
| `ProductModel.WithDefaults` | src/models/Product.js:5-13 | the supplied fields are kept; a given `status` or `owner` is kept, a missing `status` defaults to true and a missing `owner` to none; the document meets the schema's constraints exactly when its four strings are non-empty and price and stock are at least 0 |
| `ProductModel.Codes` | src/models/Product.js:9 | the set of codes in use: a code is in it exactly when some stored product carries it |
| `Checkout.DecrementKeepsCodes` | src/models/Product.js:9 | taking stock off at checkout never breaks the unique index on `code` |
| `CatalogQuery.FilterForMeaning` | src/controllers/productsController.js:7-11 | no query matches every product; `available` matches exactly the products with status true and stock above 0; any other query matches exactly that category |
| `CatalogQuery.SortForMeaning` | src/controllers/productsController.js:15 | no sort parameter imposes no order; `asc` asks for rising price; any other given value asks for falling price |
| `CatalogQuery.OptionsFor` | src/controllers/productsController.js:6-16 | `limit` defaults to 10 and `page` to 1, given values are passed through, and the sort is the one the sort parameter selects |
| `CatalogQuery.PageLinkEchoesQuery` | src/controllers/productsController.js:27-36 | a link exists exactly when the library reports a page on that side; it is the path, `?`, and a query string that reads back as limit, page, then sort and query only when they were given, in that order |
| `CatalogQuery.LinkRendersParams` | src/controllers/productsController.js:28-30 | the template string equals the path, `?`, and the rendering of the link's parameter list |
| `CatalogQuery.GetProducts` | src/controllers/productsController.js:4-41 | the listing carries the filter and paging options the query selects and the library's figures; a previous or next link exists exactly when the library reports that page, and is the API path, `?` and the rendered link parameters |
| `CatalogQuery.ApiLinksExtendViewLinks` | src/controllers/viewsController.js:43-52 | the catalog page's links are the API's links without the `/api` prefix, present in exactly the same cases |
| `QueryString.ParseRender` | src/controllers/productsController.js:28-35 | reading back a rendered query string gives exactly its pairs in order, provided no value holds an `&` (the template does not escape) |
| `QueryString.ParseNatToString` | src/controllers/productsController.js:13-14 | the printed limit and page read back with `parseInt` as the same numbers |
| `Products.ProductStore.GetProductById` | src/controllers/productsController.js:43-48 | 404 when the product is absent, otherwise the stored document with status 200 |
| `ProductValidation.MissingRequiredExact` | src/controllers/productsController.js:56-62 | a required field is listed exactly when its value is falsy, and the list keeps the order title, description, price, code, stock, category |
| `ProductValidation.ValidateCreate` | src/controllers/productsController.js:56-73 | an accepted body yields a document that meets the schema's constraints, has no owner, and carries the body's title, description, price, thumbnail, code, stock and category, with the body's status or true when none is given |
| `ProductValidation.CreateAcceptsExactly` | src/controllers/productsController.js:56-67 | a body is accepted exactly when its strings are non-empty and price and stock are at least 1; missing fields are reported first; the negative-value rejection is given exactly when no field is missing and the price or stock is negative |
| `Products.ProductStore.CreateProduct` | src/controllers/productsController.js:54-83 | the answer is 201 or 400, and 201 exactly when the body passes and its code is free; a rejected body or a duplicate code answers 400 and adds nothing; otherwise exactly one new product under a fresh id, with the unique index kept |
| `Products.ProductStore.UpdateProduct` | src/controllers/productsController.js:86-93 | 404 and no change when absent; otherwise the body is merged without re-validation and only that product changes; a code taken by another product is refused by the index (500, no change) |
| `ProductValidation.MergeIdempotent` | src/controllers/productsController.js:92 | applying an update twice equals applying it once, and an empty update changes nothing |
| `ProductValidation.MergeSkipsValidation` | src/controllers/productsController.js:92 | an update can set a negative stock or price on a valid product |
| `Products.ProductStore.DeleteProduct` | src/controllers/productsController.js:99-106 | 404 and no change when absent; otherwise exactly that product is removed |
| `Carts.CartStore.CreateCart` | src/controllers/cartsController.js:5-9 | one new cart with no lines, under an id not in use; the other carts are unchanged |
| `CartLines.Populate` | src/controllers/cartsController.js:17 | the looked-up cart has a line per cart line with the same quantity, carrying the product exactly when it still exists |
| `Carts.CartStore.GetCartById` | src/controllers/cartsController.js:15-19 | 404 when the cart is absent, otherwise the cart with its products looked up |
| `CartLines.FirstIndex` | src/controllers/cartsController.js:36 | the position of the first line for the product, or none exactly when no line is for it |
| `CartLines.FindLine` | src/controllers/cartsController.js:36 | the search returns the first line for the product |
| `Carts.CartStore.AddProductToCart` | src/controllers/cartsController.js:25-47 | 404 when the cart is absent (checked first) or the product is absent, with no change; otherwise the cart becomes `AddOne` of its lines, whatever the stock |
| `CartLines.AddOneEffect` | src/controllers/cartsController.js:36-44 | the first line for the product gains exactly 1 and every other position keeps its line; or, with no line for it, the old list is kept as a prefix and a line with quantity 1 is added at the end; the lines of every other product are unchanged |
| `Checkout.AddOneQuantity` | src/controllers/cartsController.js:38-44 | adding raises the cart's total quantity of that product by exactly 1 and no other product's |
| `CartLines.AddTwice` | src/controllers/cartsController.js:36-44 | adding a product twice to a cart without it, with any edits of other products in between, leaves one line for it with quantity 2 |
| `CartLines.UnrelatedEdits` | src/controllers/cartsController.js:36-93 | add, remove and set-quantity edits of other products never change a product's lines |
| `Carts.CartStore.DeleteProductFromCart` | src/controllers/cartsController.js:54-61 | 404 when the cart is absent; otherwise the cart becomes its lines without the product |
| `CartLines.WithoutAppend` | src/controllers/cartsController.js:59 | removing from a concatenation concatenates the removals, so the kept lines keep their relative order across products |
| `CartLines.WithoutEffect` | src/controllers/cartsController.js:59 | no line for the product remains, every other product's lines stay in order, the removed lines are exactly that product's, and an absent product is a no-op |
| `Carts.CartStore.UpdateCart` | src/controllers/cartsController.js:67-78 | 404 when the cart is absent; otherwise its lines become exactly the given list |
| `Carts.CartStore.UpdateProductQuantity` | src/controllers/cartsController.js:84-95 | a missing, zero or negative quantity answers 400 before any lookup, with no change; then 404 for a missing cart or line; otherwise only the first line for the product gets the quantity |
| `CartLines.WithQuantityEffect` | src/controllers/cartsController.js:91-93 | only the first line for the product is rewritten; the length and every other position are unchanged; a product with no line leaves the list as it is |
| `Carts.CartStore.DeleteAllProductsFromCart` | src/controllers/cartsController.js:101-108 | 404 when the cart is absent; otherwise the cart stays with no lines |
| `Carts.CartStore.PurchaseCart` | src/controllers/cartsController.js:114-160 | 404 for a missing cart, 400 for an empty one, 500 for a line whose product is gone, 400 with every failing line when stock is short, all with no change; otherwise a ticket for the total, each product's stock down by the cart's quantity of it, the cart empty and the ticket logged |
| `Carts.CartStore.CheckStock` | src/controllers/cartsController.js:122-134 | the first pass reports exactly the failing lines in order, keeps exactly the passing ones, and sums their amount; it stops at a line whose product is gone |
| `Checkout.ShortfallsAppend` | src/controllers/cartsController.js:126-142 | the failure report over two runs of lines is the first run's report followed by the second's, so entries keep cart order |
| `Checkout.ShortfallsSingle` | src/controllers/cartsController.js:128-133 | a single line is reported exactly when it asks for more than its product's stock, as (title, quantity asked for, stock on hand) |
| `Checkout.StockCheckExact` | src/controllers/cartsController.js:126-142 | the cart passes exactly when every line asks for no more than its product's stock, and then every line is fulfilled; failing plus passing lines are all the lines |
| `Checkout.Fulfillable` | src/controllers/cartsController.js:130-133 | every kept line refers to an existing product and passes the stock check |
| `Products.ProductStore.TakeStock` | src/controllers/cartsController.js:144-146 | the second pass leaves the products as the stock decrements of the lines, one after another, and keeps the unique index |
| `Products.ProductStore.IncrementStock` | src/controllers/cartsController.js:145 | an `$inc` changes only that product's stock, without the schema's bound, and does nothing for a missing product |
| `Checkout.Decrement` | src/controllers/cartsController.js:144-146 | the decrements keep exactly the same product ids |
| `Checkout.DecrementStock` | src/controllers/cartsController.js:144-146 | after checkout every product is unchanged except that its stock is down by the cart's total quantity of it |
| `Checkout.DecrementStockAt` | src/controllers/cartsController.js:144-146 | one product after checkout: unchanged except that its stock is down by the cart's total quantity of it |
| `Checkout.QuantityOfDistinctAt` | src/controllers/cartsController.js:126-146 | with one line per product, the quantity checked for a line is exactly the quantity taken off its product |
| `Checkout.QuantityOfAbsent` | src/controllers/cartsController.js:144-146 | a product with no line in the cart has nothing taken off |
| `Checkout.CheckoutKeepsStockNonNegative` | src/controllers/cartsController.js:126-146 | with one line per product, a cart that passes leaves each of its products with stock at 0 or more and the others untouched |
| `Checkout.DuplicateLinesOverdraw` | src/controllers/cartsController.js:126-146 | two lines of 1 for a product with stock 1 pass the check and leave stock -1 |
| `Checkout.PurchaserLabel` | src/controllers/cartsController.js:149 | the purchaser is the one given when non-empty, otherwise `cliente_desconocido`; it is never empty |
| `Checkout.ScenarioShortOfStock` | src/controllers/cartsController.js:126-142 | a cart of (2 of stock 5, 1 of stock 0) fails, reporting only the second line |
| `Checkout.ScenarioCheckout` | src/controllers/cartsController.js:126-158 | the same cart with the second stock at 1 passes: amount 40, stocks 3 and 0 |
| `Views.RenderProducts` | src/controllers/viewsController.js:5-54 | the listing of the API with `/products` links; a session without a cart gets exactly one new empty cart and its id; a session with a cart keeps it and no cart is created |
| `Views.RenderProduct` | src/controllers/viewsController.js:60-68 | 404 when the product is absent; otherwise the product with no cart id |
| `Views.RenderCart` | src/controllers/viewsController.js:74-79 | 404 when the cart is absent; otherwise the cart with its products looked up |

## Left out

- The paging library's arithmetic is not modelled. This covers total pages, previous and next
  page, the has-previous and has-next flags, and the page of documents itself. Those figures are
  an input (`PageInfo`) to the listing and link functions. The filter and sort are given
  meanings (`Matches`, `InOrder`), but no page of documents is computed.
- The `limit` and `page` parameters are naturals. Non-numeric text and the `NaN` that `parseInt`
  gives for it are not modelled. The links print the numbers back in decimal, where the code
  echoes the raw text.
- A value with an `&` in it makes a link that does not read back, because the template does not
  escape. `PageLinkEchoesQuery` therefore assumes `sort` and `query` hold no `&`.
- `QueryString.Parse` only splits on `&` and `=`. It does not percent-decode, read `+` as a space
  or stop at `#`, as a browser and a server do. A `sort` or `query` value holding `%`, `+` or `#`
  therefore reads back differently in practice, and `PageLinkEchoesQuery` does not cover that.
- Request bodies are typed. A string sent where a number is expected, and how the database layer
  casts it, are not modelled. A replace request without a `products` list (a 500) is not modelled.
- Malformed ids, connection faults and every other exception answered with 500 are not modelled.
  Two 500 paths are modelled: a checkout line whose product was deleted, and an update that
  collides with another product's code.
- The cart and ticket schemas (Cart.js, Ticket.js) are not part of this model. Carts accept any
  quantity, as the handlers do.
- The ticket code is built from the clock and a random number. It is a parameter (`code`) of
  `PurchaseCart`.
- Prices are JS numbers (floating point) in the code. They are integer cents here, so totals are
  exact.
- Handlers run one at a time. The read-then-`$inc` race between concurrent checkouts is not
  modelled.
- The real-time feed (a socket event that creates a product and broadcasts the list) is I/O and
  event plumbing and is not modelled. So are HTTP routing, template rendering, the session store
  and the user model.
