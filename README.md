# Minimalist e-commerce storefront: a Dafny model of its core

This project models the core of a small Next.js storefront:

- **Cart.** The client-side cart store is a list of cart lines. `addItem` merges a line into an existing product line or appends a new one. `removeItem` and `updateQuantity` work by line id, and three getters fold over the list.
- **Checkout page.** A four-step wizard (shipping, payment, review, confirmation) over the cart. It prices the basket: 8% tax, and free shipping strictly above 50. It checks a proof-of-transfer file. It posts the order and, after a success, clears the cart.
- **Order endpoint.**
  - `POST` checks the session and the body, then checks each line's product and stock. Then, as one atomic unit, it writes the order, its lines and a pending payment, and takes the quantities out of stock.
  - `GET` lists the caller's own orders, newest first, a page at a time.
- **Catalog endpoints.** The filtered, sorted and paged product list, and the featured strip: at most eight in-stock featured products, newest first.
- **Admin endpoints.**
  - The product list.
  - Product creation with its guards: the required fields, a unique SKU and an existing category.
  - The order list, searched by order id and by the buyer's name and email.
  - The dashboard statistics.
  - All of them answer 403 without an ADMIN session.
- **Registration.** The required fields, a valid role and a unique email, then the new user row.
- **Request middleware.** The path matcher, the authentication wrapper that turns away requests without a token, and the inner role check.
- **Image list field.** The new-product form's comma-separated list of image URLs: it is displayed joined with ", " and parsed back by split, trim and filter.

## How the model is built

- **Database tables are sequences of rows.** Each handler takes the session and the tables as parameters. The handlers that write are methods of a store class whose fields are the tables: `Orders.OrderStore`, `AdminProducts.ProductStore` and `Register.UserStore`.
- **The query layer is shared, in module `Query`.**
  - `where` is a filter, `Query.Where`.
  - `orderBy` on one column is a stable insertion sort, `Query.SortBy`.
  - `skip`/`take` is `Query.Window`, and paging is `Query.Paginate`.
- **The cart and the checkout page are classes.** Their actions reassign the fields that the source's `set` calls replace.
- **Pure code is functions and lemmas.** This covers the middleware, the pricing and the image-list parser.
- **Values the environment supplies are parameters.** These are new row ids, timestamps, the bcrypt hash, the cart line id (`Date.now()`), the fate of each `fetch` on the checkout page, and the chosen file.

Behaviour worth knowing, modelled as the handlers do it:

- A placed order is answered with status 200.
- A duplicate SKU or email is answered with 400; there is no separate conflict status.
- An admin order-list status filter outside the enum makes the database query fail, and the handler answers 500 "Failed to fetch orders".
- The stock pre-check tests each line on its own against the stock that was read, so two lines of the same product can together take the stock below zero (`Orders.DuplicateLinesDriveStockNegative`). A negative quantity is not refused and raises the stock (`Orders.NegativeQuantityRaisesStock`).

## Model

| member | source | states |
|---|---|---|
| Text.ContainsImpliesInsensitive | src/app/api/products/route.ts:25-30 | an exact occurrence of the search text is also a case-insensitive match |
| Schema.ParseRole | src/app/api/auth/register/route.ts:17-22 | a role is accepted exactly when it is one of the enum's spellings, and its name is the text given |
| Schema.ParseStatus | src/app/api/admin/orders/route.ts:33-35 | a status filter names an enum value exactly when some status is spelled that way |
| Schema.ParsePaymentMethod | src/app/api/orders/route.ts:98 | an upper-cased method is stored exactly when it is one of the four enum spellings, and the stored method is spelled as the text given; any other text names no method |
| Query.InsertSorted | src/app/api/orders/route.ts:170-172 | inserting into a sorted listing keeps it sorted and adds exactly that row |
| Query.SortBySpec | src/app/api/orders/route.ts:170-172 | `orderBy` yields the rows ordered by the key in the requested direction, as a permutation of the input |
| Query.SortByLength | src/app/api/orders/route.ts:170-172 | ordering keeps the number of rows |
| Query.Where | src/app/api/orders/route.ts:153-155 | a row is in the filtered result exactly when it is in the table and satisfies the filter |
| Query.Take | src/app/api/admin/dashboard/route.ts:49 | `take: n` yields the first min(n, rows) rows of the listing, in order |
| Query.Window | src/app/api/orders/route.ts:173-174 | `skip`/`take` yields at most `take` rows, the k-th being row `skip + k`, and min(take, rows - skip) of them |
| Query.CeilDiv | src/app/api/orders/route.ts:183 | `Math.ceil(count / size)`: the least page count whose pages hold every row, 0 for no rows |
| Query.Paginate | src/app/api/orders/route.ts:147-183 | a page exists exactly for page >= 1 and limit >= 1; a negative skip is its own outcome; the page is the window at (page - 1) * limit, counts every row and reports the ceiling page count |
| Query.WindowOfSorted | src/app/api/orders/route.ts:170-174 | a page of a sorted listing is sorted |
| Query.WindowRowsFrom | src/app/api/orders/route.ts:173-174 | every row on a page is a row of the listing |
| Cart.HasLine | src/stores/cart.ts:81-83 | `some(item => item.productId === pid)` is true exactly when some line has that product |
| Cart.WithoutId | src/stores/cart.ts:48-52 | removal never lengthens the list |
| Cart.CartStore.constructor | src/stores/cart.ts:28 | the store starts with no lines |
| Cart.CartStore.AddItem | src/stores/cart.ts:30-46 | the new list is the product's line bumped to min(quantity + 1, stock) when the product is in the cart, else the old list plus the new line with its id |
| Cart.CartStore.RemoveItem | src/stores/cart.ts:48-52 | the new list is the old one without the lines of that id |
| Cart.CartStore.UpdateQuantity | src/stores/cart.ts:54-67 | a quantity <= 0 removes the lines of that id; otherwise those lines get min(quantity, stock) and the others are unchanged |
| Cart.CartStore.ClearCart | src/stores/cart.ts:69-71 | the list is empty, and both totals are 0 |
| Cart.CartStore.IsInCart | src/stores/cart.ts:81-83 | true exactly when some line has that product |
| Cart.AddNewAppendsOneLine | src/stores/cart.ts:41-45 | adding a product not in the cart appends one line with the quantity as passed and keeps the other lines |
| Cart.AddExistingMerges | src/stores/cart.ts:33-40 | adding a product in the cart adds no line, sets its line to min(old + 1, stock) whatever quantity was passed, and keeps the other lines |
| Cart.AddedKeepsUnique | src/stores/cart.ts:30-46 | `addItem` never creates a second line for a product |
| Cart.AddOnlyKeepsProductsUnique | src/stores/cart.ts:30-46 | any run of `addItem` calls from a cart without duplicates leaves none |
| Cart.WithoutIdAppend | src/stores/cart.ts:48-52 | removal keeps the order of the remaining lines: it distributes over concatenation |
| Cart.WithoutIdMembers | src/stores/cart.ts:48-52 | a line survives removal exactly when its id differs |
| Cart.WithoutIdAbsent | src/stores/cart.ts:48-52 | removing an id no line has changes nothing |
| Cart.WithoutIdKeepsUnique | src/stores/cart.ts:48-52 | removal never creates a duplicate product |
| Cart.RequantifiedKeepsUnique | src/stores/cart.ts:60-66 | changing quantities never creates a duplicate product |
| Cart.SumQuantitiesAppend | src/stores/cart.ts:73-75 | the item count grows by a new line's quantity |
| Cart.SumQuantitiesConcat | src/stores/cart.ts:73-75 | the item count of two lists together is the sum of their counts |
| Cart.SumPricesAppend | src/stores/cart.ts:77-79 | the total price grows by a new line's price times quantity |
| Cart.BumpedTotalAtMostOneMore | src/stores/cart.ts:33-40 | re-adding a product raises the item count by at most one |
| Cart.SumQuantities | src/stores/cart.ts:73-75 | the item count is not negative while no line's quantity is |
| Cart.SumPricesNonNegative | src/stores/cart.ts:77-79 | the price total is not negative while no line's price or quantity is |
| Cart.CartStore.TotalItems | src/stores/cart.ts:73-75 | `getTotalItems` is the fold of the quantities over the current lines, not negative while none is |
| Cart.CartStore.TotalPrice | src/stores/cart.ts:77-79 | `getTotalPrice` is the fold of price times quantity over the current lines, not negative while no price or quantity is |
| Cart.ReAddOutOfStockDropsToZero | src/stores/cart.ts:30-46 | a product with no stock enters with quantity 1, and adding it again sets its line to 0 |
| Orders.FindProduct | src/app/api/orders/route.ts:47 | `find` returns a row with that id, and None exactly when no row has it |
| Orders.StockRejection | src/app/api/orders/route.ts:46-60 | the stock loop answers nothing exactly when every line's product exists with enough stock, and otherwise a 404 or 400 rejection |
| Orders.Rejection | src/app/api/orders/route.ts:11-60 | the handler rejects (401, 400, 404 or 500) unless, and only unless, there is a session user, a non-empty item list, an address and a method, every line is available and the upper-cased method is in the enum |
| Orders.LineItems | src/app/api/orders/route.ts:80-91 | one order-item row per request line, the k-th carrying the new order id and the k-th line's product, quantity and price |
| Orders.StockAfter | src/app/api/orders/route.ts:104-115 | the decrements keep every product row and change nothing in a row but its stock |
| Orders.OrderStore.CheckStock | src/app/api/orders/route.ts:46-60 | the loop answers the rejection for the first missing (404) or short (400) line, and none exactly when every line is available |
| Orders.OrderStore.DecrementStock | src/app/api/orders/route.ts:104-115 | every product's stock ends reduced by the total ordered of it |
| Orders.OrderStore.PlaceOrder | src/app/api/orders/route.ts:7-133 | the rejections in the handler's order (401, 400 items, 400 address/method, 404/400 stock, 500 for a method outside the enum) change no table; otherwise exactly one order (PENDING, billing = shipping address), one item row per line, one pending payment for the total are appended and stock is decremented |
| Orders.StockAfterStep | src/app/api/orders/route.ts:104-115 | applying one more line's decrement extends the running stock update by that line |
| Orders.StockRejectionFirst | src/app/api/orders/route.ts:46-60 | the answer is for the first unavailable line, whatever the later lines are |
| Orders.OrderedAppend | src/app/api/orders/route.ts:104-115 | a product's ordered quantity adds up over concatenated line lists |
| Orders.OrderedNone | src/app/api/orders/route.ts:104-115 | a product no line names loses no stock |
| Orders.OrderedSingleLine | src/app/api/orders/route.ts:104-115 | a product named on exactly one line loses exactly that line's quantity |
| Orders.FindUnique | src/app/api/orders/route.ts:47 | with unique ids, looking a row's id up finds that row |
| Orders.StockStaysNonNegativeWhenDistinct | src/app/api/orders/route.ts:46-115 | with no product named twice and non-negative quantities, a request that passes the check leaves every stock non-negative |
| Orders.DuplicateLinesDriveStockNegative | src/app/api/orders/route.ts:46-115 | two one-unit lines of a product with stock 1 pass the check, and the stock ends at -1 |
| Orders.NegativeQuantityRaisesStock | src/app/api/orders/route.ts:54-115 | a negative quantity passes the check and raises the product's stock |
| Orders.ClientPricesAreStored | src/app/api/orders/route.ts:80-91 | each stored line carries the client's price and quantity, not the table's |
| Orders.ListOrders | src/app/api/orders/route.ts:137-144 | the answer is 401 exactly when there is no session user id |
| Orders.ListOrdersWindow | src/app/api/orders/route.ts:151-175 | a listed page is the window at (page - 1) * limit of the caller's orders newest first, holds at most `limit` orders, and is sorted newest first |
| Orders.SortedOwnOrders | src/app/api/orders/route.ts:152-155 | ordering the caller's orders brings in no other user's |
| Orders.ListOrdersOwn | src/app/api/orders/route.ts:152-155 | every listed order is in the table and belongs to the caller |
| Orders.ListOrdersCounts | src/app/api/orders/route.ts:147-192 | the page and limit are those requested (1 and 10 by default, both >= 1), totalCount counts all of the caller's orders, and totalPages is its ceiling over the limit |
| Catalog.ArrangeSpec | src/app/api/products/route.ts:42-59 | a product listing is ordered by the chosen column and direction and is a permutation of its input |
| Catalog.ListProducts | src/app/api/products/route.ts:6-95 | a page exactly when page and limit (1 and 12 by default) are both at least 1; the 500 answer exactly when the skip (page - 1) * limit is negative; a page counts every match and holds at most `limit` products |
| Catalog.LiteralNameMatchIsFound | src/app/api/products/route.ts:25-30 | a product whose name contains the search text with the same case, and which passes the other filters, is among the matches |
| Catalog.ListProductsFilters | src/app/api/products/route.ts:18-40 | every listed product is in the table and passes each filter set: category, case-insensitive search on name or description, inclusive price bounds, `featured` only for "true" |
| Catalog.ListProductsPaging | src/app/api/products/route.ts:61-87 | the page is the window at (page - 1) * limit (12 by default) of the matches ordered as `sortBy` asks, at most `limit` long; totalCount counts every match and totalPages is its ceiling over the limit |
| Catalog.ListProductsSortMapping | src/app/api/products/route.ts:42-59 | price-low lists prices upwards, price-high downwards, name alphabetically, and anything else newest first |
| Catalog.FeaturedProducts | src/app/api/products/featured/route.ts:6-29 | `count` is the number of products shown, at most eight and no more than are eligible |
| Catalog.FeaturedProductsSpec | src/app/api/products/featured/route.ts:6-29 | at most eight featured, in-stock products of the table, newest first, min(8, eligible) of them; count is their number; no eligible product left out is newer than one shown |
| AdminProducts.AdminListProductsSpec | src/app/api/admin/products/route.ts:6-73 | 403 exactly without an ADMIN session; otherwise a product is listed exactly when it matches the search on name, description or SKU and the category, each match once, in the requested order |
| AdminProducts.AdminListProducts | src/app/api/admin/products/route.ts:6-73 | denied with 403 exactly without an ADMIN session; otherwise as many products as match |
| AdminProducts.CreateRejection | src/app/api/admin/products/route.ts:88-160 | a rejection is 403, 400, 404 or 500, and there is none exactly when the session is an admin's, name, price and category are given, the SKU is free, the category exists and no second empty SKU would be inserted |
| AdminProducts.AdminSortMapping | src/app/api/admin/products/route.ts:37-57 | name alphabetical, price-low and stock upwards, price-high downwards, anything else newest first |
| AdminProducts.FindSku | src/app/api/admin/products/route.ts:116-127 | the SKU lookup finds a row exactly when some product has that SKU |
| AdminProducts.FindCategory | src/app/api/admin/products/route.ts:130-139 | the category lookup succeeds exactly when the category exists |
| AdminProducts.ProductStore.CreateProduct | src/app/api/admin/products/route.ts:84-174 | the rejections in the handler's order (403, 400 missing fields, 400 duplicate SKU, 404 category, 500 for a second empty SKU) leave the table alone; otherwise exactly one product is appended, with stock 0 and featured false unless given |
| AdminProducts.SecondSameSkuRejected | src/app/api/admin/products/route.ts:115-127 | once a product with a non-empty SKU is created, a second complete request with that SKU is refused with 400 |
| AdminProducts.CreateKeepsSkusUnique | src/app/api/admin/products/route.ts:115-160 | an accepted creation keeps SKUs unique |
| AdminOrders.FindUser | src/app/api/admin/orders/route.ts:28-29 | the order's user is a row with that id, or no row has it |
| AdminOrders.AdminListOrders | src/app/api/admin/orders/route.ts:6-93 | an error exactly without an ADMIN session (403) or with a status filter outside the enum (500); otherwise as many orders as match |
| AdminOrders.AdminListOrdersSpec | src/app/api/admin/orders/route.ts:6-93 | 403 exactly without an ADMIN session; 500 exactly for a status filter that no status is spelled as; otherwise an order is listed exactly when it matches the search (order id, buyer name or email, ignoring case) and the exact status, each once, and no other |
| AdminOrders.AdminOrderSortMapping | src/app/api/admin/orders/route.ts:37-54 | oldest first, total-high downwards, total-low upwards, anything else newest first |
| Dashboard.RevenueAppend | src/app/api/admin/dashboard/route.ts:36-45 | one more order adds its total exactly when it is shipped or delivered |
| Dashboard.RevenueWithoutCompleted | src/app/api/admin/dashboard/route.ts:36-77 | with no shipped or delivered order the revenue is 0 (an empty sum falls back to 0) |
| Dashboard.RevenueIsSumOfCompleted | src/app/api/admin/dashboard/route.ts:36-45 | revenue is the sum over the shipped and delivered orders alone |
| Dashboard.Revenue | src/app/api/admin/dashboard/route.ts:36-45 | the revenue is not negative while no order total is |
| Dashboard.Stats | src/app/api/admin/dashboard/route.ts:6-86 | denied with 403 exactly without an ADMIN session; otherwise the counts are the table sizes and both lists hold at most ten entries |
| Dashboard.LowStockProducts | src/app/api/admin/dashboard/route.ts:63-74 | min(10, low-stock products) entries, each a product of the table with stock below 10 |
| Dashboard.StatsSpec | src/app/api/admin/dashboard/route.ts:6-86 | 403 exactly without an ADMIN session; otherwise the table sizes, the revenue, and min(10, orders) recent orders newest first, with no order left out newer than one shown |
| Dashboard.LowStockSpec | src/app/api/admin/dashboard/route.ts:63-74 | min(10, low-stock products) products, all from the table with stock below 10, by ascending stock, with no low-stock product left out lower than one shown |
| Register.FindEmail | src/app/api/auth/register/route.ts:25-27 | the email lookup finds a row exactly when some user has that email |
| Register.NewUser | src/app/api/auth/register/route.ts:40-55 | the inserted row has the requested role, the hashed password and a verified email, and the answer shows id, name, email, role and creation time only |
| Register.UserStore.Register | src/app/api/auth/register/route.ts:6-60 | the rejections in the handler's order (missing fields, invalid role, taken email, all 400) leave the users alone; otherwise exactly one user is appended and "User created successfully" is answered |
| Register.RegisterKeepsEmailsUnique | src/app/api/auth/register/route.ts:24-47 | an accepted registration keeps emails unique |
| Register.SecondRegistrationRejected | src/app/api/auth/register/route.ts:24-34 | a second complete registration with the same email is refused |
| Middleware.Inner | middleware.ts:5-27 | the inner function only ever redirects to the sign-in page, and always does so for an /admin path without an ADMIN token |
| Middleware.Gate | middleware.ts:4-41 | an unmatched path passes; the library's sign-in route is chosen exactly for a matched path without a token; every redirect is for a matched path and goes to one of the two sign-in routes |
| Middleware.BelowStartsWith | middleware.ts:35-41 | a path the matcher catches under a base starts with that base |
| Middleware.AdminPagesNeedAdmin | middleware.ts:4-41 | an admin page passes exactly with an ADMIN token; no token goes to the library's sign-in route, any other role to /auth/signin |
| Middleware.BuyerPagesNeedToken | middleware.ts:4-41 | account and checkout pages pass exactly when there is a token, of any role |
| Middleware.AdminApiNeedsOnlyToken | middleware.ts:28-41 | an /api/admin path passes with any token, a BUYER's included |
| Middleware.UnmatchedPasses | middleware.ts:35-41 | a path outside the matcher is never redirected |
| Middleware.AdministratorIsOutsideTheGate | middleware.ts:13-41 | the inner test would turn a BUYER away from "/administrator", but the matcher lets it through even without a token |
| Middleware.InnerTokenCheckUnreachable | middleware.ts:19-32 | for a matched path with a token, the gate passes exactly unless the path starts with /admin and the role is not ADMIN: the inner token test never fires |
| Checkout.IndexOf | src/app/checkout/page.tsx:94-102 | every step has exactly one place in the steps array |
| Checkout.StepMoves | src/app/checkout/page.tsx:101-113 | next moves one place on except at confirmation, previous one place back except at shipping |
| Checkout.NextThenPrevious | src/app/checkout/page.tsx:101-113 | next then previous returns to the step (except from the last), previous then next likewise (except from the first) |
| Checkout.ThreeStepsToConfirmation | src/app/checkout/page.tsx:94-106 | three presses of next go shipping, payment, review, confirmation |
| Checkout.ShippingFee | src/app/checkout/page.tsx:91 | shipping is 0 exactly above 50, else 9.99 |
| Checkout.Total | src/app/checkout/page.tsx:89-92 | the total is 1.08 × subtotal, plus 9.99 at or below 50 |
| Checkout.ShippingThreshold | src/app/checkout/page.tsx:91-92 | a basket of exactly 50 pays shipping, and crossing the threshold lowers the total |
| Checkout.TotalMonotoneOnEachSide | src/app/checkout/page.tsx:89-92 | on each side of the threshold the total grows with the subtotal |
| Checkout.FileProblem | src/app/checkout/page.tsx:118-129 | a file is accepted exactly when its type is allowed and it is at most 10 MiB; the type error is reported before the size error |
| Checkout.AddressText | src/app/checkout/page.tsx:176 | the address travels as one braced object text |
| Checkout.PaymentOptionsAreAccepted | src/app/checkout/page.tsx:346-349 | each of the four options, upper-cased, is a payment method the order handler stores |
| Checkout.OrderBodyPassesRequestChecks | src/app/checkout/page.tsx:165-183 | a body from a non-empty cart and an offered option passes every request check of the order handler that does not read the product table; its total is subtotal + tax + shipping over the cart's prices |
| Checkout.CartLinesStored | src/app/checkout/page.tsx:165-183 | the order lines stored from the posted body are the cart's lines with their product, quantity and price, and the order row carries the page's subtotal, tax, shipping and total, PENDING, and the address text as both addresses |
| Checkout.CheckoutPage.constructor | src/app/checkout/page.tsx:53-87 | the page starts at shipping with credit card, no file, country US and everything else empty |
| Checkout.CheckoutPage.HandleNextStep | src/app/checkout/page.tsx:101-106 | the step becomes the next one |
| Checkout.CheckoutPage.HandlePreviousStep | src/app/checkout/page.tsx:108-113 | the step becomes the previous one |
| Checkout.CheckoutPage.HandleFileUpload | src/app/checkout/page.tsx:115-144 | no file changes nothing; a rejected file sets its error and keeps the stored file; an accepted one replaces it and clears the error |
| Checkout.CheckoutPage.RemoveUploadedFile | src/app/checkout/page.tsx:146-152 | the file is gone and the progress is 0 |
| Checkout.CheckoutPage.HandlePlaceOrder | src/app/checkout/page.tsx:154-211 | bank transfer without a file posts nothing and sets the error; otherwise the body built from the cart before the call is posted, and the cart is cleared and the step set to confirmation exactly after a 2xx answer and an upload, when one was due, that did not throw |
| Checkout.CheckoutPage.AfterOrderPlaced | src/app/checkout/page.tsx:186-202 | the proof is posted exactly for bank transfer with a file; unless that post throws, the cart is cleared and the step is confirmation |
| ImageList.Split | src/app/admin/products/new/page.tsx:296 | `split(",")` yields at least one piece, none holding a comma |
| ImageList.Trim | src/app/admin/products/new/page.tsx:296 | `trim()` yields a run of the text with no white space at either end, and every character dropped is white space |
| ImageList.Parse | src/app/admin/products/new/page.tsx:296 | every parsed URL is non-empty, trimmed and comma-free |
| ImageList.Join | src/app/admin/products/new/page.tsx:293 | joining no URLs gives the empty text; otherwise the text starts with the first URL |
| ImageList.Display | src/app/admin/products/new/page.tsx:293 | the displayed text of well-formed URLs is empty exactly when there are none, and starts with the first URL |
| ImageList.ParseAppend | src/app/admin/products/new/page.tsx:296 | the URLs before a comma come first, those after it next |
| ImageList.ParseBlank | src/app/admin/products/new/page.tsx:296 | text made only of commas and white space parses to no URLs |
| ImageList.ParseDisplay | src/app/admin/products/new/page.tsx:293-296 | parsing the displayed text gives back any list of non-empty, trimmed, comma-free URLs |
| ImageList.ParseIdempotent | src/app/admin/products/new/page.tsx:293-296 | displaying the parsed list and parsing again changes nothing |

## Left out

- I/O is not modelled: JSON request and response bodies, HTTP, cookies and the session lookup. The session is a parameter, and each response is a datatype holding its status and error text.
- The bcrypt hash is a parameter, `hashed`. New row ids, timestamps and the cart line id (`Date.now().toString()`) are parameters too.
- JavaScript numbers are modelled as `real`, and money is taken as exact. Floating-point rounding of tax, totals and price sums is not modelled.
- The database's case-insensitive `contains` is modelled as ASCII case folding. Collation and Unicode case rules are not modelled.
- Text.Upper: upper-cases ASCII letters only, and keeps the length. JavaScript's `toUpperCase` follows Unicode: it maps "ſ" to "S" and "ı" to "I", and turns "ß" into "SS". So Orders.Rejection and Orders.OrderStore.PlaceOrder answer 500 for a method such as "bank_tranſfer", which the handler stores as BANK_TRANSFER.
- Ties in `orderBy` are broken by one fixed order, the one the stable insertion sort produces; the database leaves that order open.
  - These hold for any ordering by the key: orderedness, membership and permutation, the counts, and the "none left out is newer or lower" clauses of `Dashboard.StatsSpec`, `Dashboard.LowStockSpec` and `Catalog.FeaturedProductsSpec`.
  - These fix the tie order to the insertion sort's: the `Window(...)` clauses of `Orders.ListOrdersWindow`, `Catalog.ListProductsPaging` and `Query.Paginate`. With ties, the database may put tied rows on other pages.
- Concurrency is not modelled. Two requests racing on the same stock cannot be expressed. The order transaction is one method whose rejections restore every table.
- The database schema file is not part of this model. The enums are taken from the handlers that use them:
  - Role: BUYER, ADMIN;
  - order status: the seven values;
  - payment method: the upper-cased checkout options.
- `parseInt`/`parseFloat` of non-numeric text is not modelled. A page, limit or price is either absent or a number. An admin product's stock that `parseInt` cannot read is None, which becomes 0.
- Orders.ListOrders, Catalog.ListProducts: a negative skip `(page - 1) * limit` is modelled: the database rejects it, and the handler answers 500. This covers a page below 1 with a positive limit, and a page of 2 or more with a negative limit. `PagingOutsideModel` is the answer only when the skip is 0 or more and the limit is below 1 (a limit of 0, or a negative limit with a page of 1 or less). In the code, the database treats a negative `take` as reverse order, and `Math.ceil(count / 0)` gives Infinity.
- The joined `include` data of the responses is not modelled: category names, order lines with product names, payments, files, and the user's name and email.
- The success messages of the order and product creation responses are not modelled. The registration message is.
- Errors thrown by the database, and the generic 500 answers that result, are only modelled where the input decides them:
  - a payment method outside the enum;
  - a second empty SKU;
  - a status filter outside the enum;
  - a negative skip.
- Checkout.AddressText: states only that the address is one braced text. `JSON.stringify`'s escaping of quotes inside the fields is not modelled.
- Checkout.CheckoutPage.HandleFileUpload: the simulated upload progress timer is not modelled. The file's bytes are not modelled either; only its type and size are.
- Checkout.CheckoutPage.HandlePlaceOrder: the answer of the proof-of-transfer upload is never read by the page, so only whether that request throws is modelled. A failure to read the order response's JSON is not modelled.
- The proof-of-transfer upload endpoint and the file download and delete endpoints are not part of this model. The same goes for the order status endpoint, the category and user admin pages, and the rendering of every page.
- Middleware.Gate: the redirect for a request without a token goes to the authentication library's default sign-in route, "/api/auth/signin". That route is the library's, not the application's.
