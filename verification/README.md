# Speed shop: a Dafny model of the order, product, payment and auth logic

This project models the decision-making core of a Node/MongoDB e-commerce backend and of the Redux slices of its React storefront, and proves properties of that model:

- **Product documents** (`ProductModel`): the stock counter clamped at zero, the `isInStock`/`isAvailable`/`discountPercentage` rules, the schema bounds and the catalog statics that only return active products.
- **Order documents** (`OrderModel`): the status enum and required-field validators, the two pre-save hooks (order number `SS` + YYMMDD + four-digit daily counter, and the totals recomputation), `orderSummary`, `updateStatus`, `markAsPaid` and the page-skip arithmetic of the list statics.
- **The store** (`Store`): a `Database` object holding the `products` and `orders` collections as maps from id to document. Its invariant says every stored document is keyed by its id and passed its schema, and that every order with items carries the totals its pre-save hook computed. Every controller method keeps it.
- **Order endpoints** (`OrderController`): `createOrder`'s item loop, `cancelOrder`, `updateOrderToDelivered`, `updateOrderStatus` and `getOrders`.
  - The checkout loop is a method with a loop invariant tying it to `Assemble`, a left fold of one checkout `Step` per item.
  - Everything promised about checkout is proved about that fold: success exactly when every item fits the stock the earlier items left, stock decreasing by the total requested per product, no rollback on a failure, and cancel undoing checkout.
- **Product endpoints** (`ProductController`): `getProducts`' query, sort, pagination and defaults, the soft `deleteProduct`, and `updateStock` applying a signed delta.
- **Payment endpoints** (`PaymentController`): the guards before a Stripe payment intent, and the webhook's dispatch over the event kinds it knows.
- **Auth middleware** (`Auth`): bearer-token extraction, `protect`, `authorize`, `optionalAuth` and `checkOwnership`. The middleware works on a `Request` object whose `user` and `resource` fields it assigns.
- **Front-end slices** (`CartSlice`, `ProductSlice`, `OrderSlice`, `AuthSlice`): each slice state is a class whose reducers are methods.
  - Cart: one entry per product, every quantity at least one.
  - Product slice: the list on show is always a subsequence of the catalogue.
  - Order slice: a status update reaches the first order with the id.
  - Auth slice: the token in memory is always the one the browser has stored.

Modelling conventions:

- Money is integer cents.
- The clock (`now`, today's date and today's time window) is a parameter.
- Stripe's intent creation and `jwt.verify` are function parameters (oracles).
- The webhook's signature check is a `Verification` value handed in.
- `Reply` distinguishes a handled answer (`Success`, `Failure` with its status code) from an exception that escapes to the error middleware (`Thrown`).
- A guard that sets `res.status(code)` and then throws is modelled as `Failure(code, message)`.
- Mongoose documents are values. A document method that assigns fields on `this` and saves is a function from the old document to the new one, and the controller writes the result back into the store.

Two behaviours of the code are modelled as written although they look unintended (see Findings), and one more is worth knowing:

- `handlePaymentFailure` stores the status `payment_failed`, which is not in the order status enum. The save is rejected by validation, so the failed payment is never recorded on the order and the webhook request ends in the error middleware (`PaymentController.MarkedFailed`, `PaymentController.HandleWebhook`).
- The OpenAPI comment of the stock route describes an absolute stock value, but the controller applies the body's quantity as a delta. The model follows the controller.

## Model

| member | source | states |
|---|---|---|
| ProductModel.UpdateStock | backend/models/Product.js:146-149 | the new stock is never negative; it is stock + quantity unless that is negative, in which case 0; no other field changes |
| ProductModel.UpdateStockKeepsSchema | backend/models/Product.js:146-149 | a product within the schema bounds stays within them after any stock update |
| ProductModel.InStockDecrementIsExact | backend/models/Product.js:146-154 | after `isInStock(q)` held, `updateStock(-q)` leaves exactly stock − q: the clamp never engages |
| ProductModel.InactiveNeverSold | backend/models/Product.js:141-154 | an inactive product is neither available nor in stock for any quantity |
| ProductModel.InStockDefaultIsAvailable | backend/models/Product.js:141-154 | `isInStock()` with its default quantity 1 holds exactly when `isAvailable` does |
| ProductModel.DiscountPercentage | backend/models/Product.js:133-138 | the discount is 0 unless an original price is set and is above the price |
| ProductModel.DiscountBounds | backend/models/Product.js:133-138 | for prices within the schema bounds the discount lies between 0 and 100 |
| ProductModel.GetByCategory | backend/models/Product.js:157-159 | exactly the active products of the category: everything returned is one, and every one is returned |
| ProductModel.GetFeatured | backend/models/Product.js:162-164 | exactly the active featured products |
| ProductModel.GetOnSale | backend/models/Product.js:167-169 | exactly the active products on sale |
| ProductModel.Search | backend/models/Product.js:172-185 | exactly the active products whose name, description or a tag contains the term, ignoring case |
| OrderModel.OrderNumberShape | backend/models/Order.js:144-158 | for a real date the number is the 8-character date prefix followed by digits whose value is count + 1 |
| OrderModel.DatePrefixLength | backend/models/Order.js:144-147 | for a real date the `SS` + year + month + day prefix is exactly 8 characters |
| OrderModel.OrderNumberLength | backend/models/Order.js:144-158 | the number is 12 characters long exactly when count + 1 fits in four digits |
| OrderModel.OrderNumberInjective | backend/models/Order.js:154-158 | on the same day, different counts give different order numbers |
| OrderModel.SameDaySequence | backend/models/Order.js:154-158 | the first two orders of a day end in 0001 and 0002 |
| OrderModel.OrderNumberExample | backend/models/Order.js:144-158 | the first two orders of 7 March 2025 are SS2503070001 and SS2503070002 |
| OrderModel.DatePrefixExample | backend/models/Order.js:144-147 | 7 March 2025 gives the prefix SS250307 |
| OrderModel.AssignOrderNumber | backend/models/Order.js:142-161 | only a new order without an order number gets one; an existing number is never overwritten |
| OrderModel.ComputeTotals | backend/models/Order.js:164-170 | with items, itemsPrice becomes Σ price × quantity and totalPrice itemsPrice + tax + shipping, overriding stored values, and nothing else changes; without items nothing changes |
| OrderModel.PreSaveKeepsSchema | backend/models/Order.js:142-170 | the pre-save hooks keep a validated order valid, keep its id, user, items and status, and leave its totals consistent when it has items |
| OrderModel.ComputeTotalsIdempotent | backend/models/Order.js:164-170 | saving twice computes the same totals as saving once |
| OrderModel.ComputeTotalsKeepsConsistent | backend/models/Order.js:164-170 | an order whose totals are already consistent is not changed by the hook |
| OrderModel.ItemsPriceAppend | backend/models/Order.js:166 | the items sum splits over a concatenation of item lists |
| OrderModel.ItemsPriceNonNegative | backend/models/Order.js:166 | with non-negative prices and quantities of at least one, the items sum is non-negative |
| OrderModel.Summary | backend/models/Order.js:173-181 | the summary's totalItems is Σ quantity, and it carries the order's number, total, status and creation time |
| OrderModel.TotalQuantityAtLeastLines | backend/models/Order.js:176 | when every quantity is at least one, totalItems is at least the number of lines |
| OrderModel.StatusOf | backend/models/Order.js:108-113 | a status string is in the enum exactly when it is one of the six spellings; any other string stays unlisted under its own name |
| OrderModel.MethodOf | backend/models/Order.js:78-82 | a request's payment method is in the enum exactly when it is present and one of the four spellings; otherwise it is unlisted (the empty name when absent) |
| OrderModel.UpdateStatus | backend/models/Order.js:184-193 | the status is set; only 'delivered' also sets isDelivered and deliveredAt; no other field changes |
| OrderModel.MarkAsPaid | backend/models/Order.js:196-203 | isPaid and paidAt are set; the payment result is replaced only when one is supplied; no other field changes |
| OrderModel.UpdateStatusValidity | backend/models/Order.js:109-114 | a status update keeps a valid order valid exactly when the new status is in the enum |
| OrderModel.ParamOr | backend/controllers/orderController.js:261-262 | `parseInt(x) or d`: a parsed non-zero value is kept; NaN and 0 give the default |
| OrderModel.PagesAreConsecutive | backend/models/Order.js:206-213 | for positive limit, page n follows pages 1..n−1 with no overlap or gap, and pages 1..n together are the first n × limit results |
| OrderModel.PageOf | backend/models/Order.js:206-213 | a page exists exactly when the skip is non-negative, and then it is the window of `limit` results starting (page − 1) × limit records in |
| OrderModel.GetUserOrders | backend/models/Order.js:206-213 | with a non-negative skip, the page is the (page − 1) × limit window of the user's orders in query order, so every order shown belongs to the user |
| OrderModel.GetByStatus | backend/models/Order.js:216-224 | with a non-negative skip, the page is the (page − 1) × limit window of the orders with that status in query order |
| Seqs.PagesTile | backend/models/Order.js:206-224 | the first n pages of size `limit`, concatenated, are exactly the first n × limit results: pages neither overlap nor leave gaps |
| Store.CreatedBetween | backend/models/Order.js:150-156 | the orders counted for today are exactly those created in today's window |
| Store.CreatedBetweenGrows | backend/models/Order.js:154-156 | saving a new order created today raises the next order's daily count by one |
| OrderController.Snapshot | backend/controllers/orderController.js:47-58 | an order line carries the requested product and quantity, and the product's name, price, image and sku at checkout time |
| OrderController.AssembleInvariant | backend/controllers/orderController.js:30-62 | after the loop over any items: it got through the first n items (all of them unless it failed); each product's stock went down by exactly those items' total; the lines are their snapshots in request order; itemsPrice is their sum |
| OrderController.AssembleKeepsProductsValid | backend/controllers/orderController.js:61 | checkout never takes a product outside its schema bounds |
| OrderController.AssembleSucceedsIff | backend/controllers/orderController.js:30-45 | checkout gets through all items exactly when each one exists, is active and fits the stock the earlier items in the request left |
| OrderController.FailureIsFinal | backend/controllers/orderController.js:33-45 | once an item has failed, later items change nothing |
| OrderController.FailureKeepsEarlierDecrements | backend/controllers/orderController.js:30-61 | on a failure at item n: items before n fitted; item n did not and its error names it; the stock the earlier items took stays taken (no rollback) |
| OrderController.OrderedMatchesRequested | backend/controllers/orderController.js:47-61 | lines that mirror the items carry the same per-product totals |
| OrderController.SuccessfulCheckout | backend/controllers/orderController.js:30-64 | after a successful checkout: one snapshot line per item; each stock lower by the total requested for it; itemsPrice is Σ price × quantity; lines and request agree per product |
| OrderController.CheckoutExample | backend/controllers/orderController.js:30-64 | 2 units at 10.00 with stock 5, tax 1.00 and shipping 5.99 give items 20.00, total 26.99 and stock 3 |
| OrderController.RestoreAccounting | backend/controllers/orderController.js:317-322 | restoring adds back exactly each product's ordered quantity; products that no longer exist are skipped and none appears |
| OrderController.CancelUndoesCheckout | backend/controllers/orderController.js:317-322 | cancelling the lines of a successful checkout gives the catalog back exactly as it was |
| OrderController.ShippingFor | backend/controllers/orderController.js:72-78 | missing first name, last name and phone become Test, User and 123-456-7890; a missing country becomes US; the rest is kept |
| OrderController.Draft | backend/controllers/orderController.js:64-80 | the created order holds the snapshot lines and itemsPrice; its total is items + tax + shipping, with tax and shipping defaulting to 0; it is pending, unpaid, undelivered and unnumbered |
| OrderController.CheckoutFailure | backend/controllers/orderController.js:33-45 | an unknown product is answered 404 naming it; missing stock is answered 400 naming the product |
| OrderController.DraftValidity | backend/controllers/orderController.js:66-80 | the created order passes validation exactly when its payment method is in the enum, the address is complete and every quantity is at least 1 |
| OrderController.UnlistedMethodKeepsTakenStock | backend/controllers/orderController.js:30-80 | a missing or unlisted payment method fails validation only after the item loop: every product's stock stays lowered by the quantity requested of it |
| OrderController.CreateOrder | backend/controllers/orderController.js:10-91 | no items: 400 and nothing changes; otherwise the stock ends as the checkout fold leaves it, and a failed item answers its error with no order stored; a draft failing validation (an unlisted payment method, say) throws with no order stored and the stock still lowered; else the order is saved numbered and totalled, and returned with 201 |
| OrderController.TakeItems | backend/controllers/orderController.js:30-61 | the item loop leaves exactly the state the checkout fold computes from the starting catalogue: same lines, sum, stock and first failure; orders untouched |
| OrderController.NegativeQuantityRaisesStock | backend/controllers/orderController.js:40-61 | a negative quantity passes the stock check and raises the product's stock, and the order it would create fails validation |
| OrderController.NegativeQuantityExample | backend/controllers/orderController.js:40-61 | with 3 in stock, a request for −5 units leaves 8 in stock and no valid order |
| OrderController.CheckoutNeverRaisesStock | backend/controllers/orderController.js:30-61 | with no negative quantity, a checkout, successful or not, never raises any product's stock |
| OrderController.CreateOrderChecked | backend/controllers/orderController.js:10-91 | `createOrder` with quantities below one refused with 400 before any stock is touched; no request raises any stock |
| OrderController.CancelOrder | backend/controllers/orderController.js:290-332 | checks in order: 404 for a missing order, 401 unless owner or admin, 400 unless pending, each changing nothing; otherwise the stock is restored and the order saved as cancelled |
| OrderController.ReturnItems | backend/controllers/orderController.js:317-322 | the cancel loop leaves the catalogue as restoring every line's quantity to its still-existing product would; orders untouched |
| OrderController.SaveOrder | backend/models/Order.js:163-170 | saving a stored document that passes validation keeps the store valid, replaces just that order by its recomputed-totals version and leaves products alone |
| OrderController.UpdateOrderToDelivered | backend/controllers/orderController.js:200-221 | 404 changing nothing, or the order saved exactly as `updateStatus('delivered')` would leave it |
| OrderController.FollowUp | backend/controllers/orderController.js:240-246 | a truthy tracking number and truthy notes replace the stored ones; nothing else changes |
| OrderController.FollowUpKeepsSaved | backend/controllers/orderController.js:240-248 | tracking number and notes affect neither validation nor the totals |
| OrderController.UpdateOrderStatus | backend/controllers/orderController.js:226-255 | 404 changing nothing; a status outside the enum throws with nothing stored; otherwise the order is saved with the new status and then the follow-up fields |
| OrderController.StatusChangeSaves | backend/controllers/orderController.js:238-248 | for a stored order and an enum status, both the status change and the follow-up pass validation and neither save alters the totals |
| OrderController.GetOrders | backend/controllers/orderController.js:260-285 | a page exists exactly when the skip is non-negative; then total is the number of orders the query matches and data the (page − 1) × limit window of them; with a status filter every order shown has that status |
| OrderController.StatusQuery | backend/controllers/orderController.js:263-268 | a status sets a query condition exactly when it is present and non-empty |
| ProductController.QueryFor | backend/controllers/productController.js:15-46 | each filter is present exactly when its parameter is; the sale and featured flags only for the string "true" |
| ProductController.SortFor | backend/controllers/productController.js:49-72 | price_asc and price_desc sort by price, rating by rating descending, oldest by creation ascending, anything else or nothing by creation descending |
| ProductController.PaginationFor | backend/controllers/productController.js:83-95 | next = {page+1, limit} exactly when page × limit < total; prev = {page−1, limit} exactly when (page−1) × limit > 0 |
| ProductController.GetProductsContract | backend/controllers/productController.js:7-104 | success exactly when the skip is non-negative; data is the skip/limit window of the products matching every present filter, so only active matching products, at most `limit` of them, in the requested sort order; total counts the active products |
| ProductController.NextLinkCountsUnfilteredProducts | backend/controllers/productController.js:12 | one Books and one Electronics product, Books one per page: page 1 offers a next page, and page 2 is empty |
| ProductController.CountedNextLinkIsExact | backend/controllers/productController.js:83-95 | with total counting the matching products, the page is unchanged and a next link is offered exactly when the next page is non-empty |
| ProductController.DeleteProduct | backend/controllers/productController.js:169-187 | 404 changing nothing, or the product kept in the collection with isActive false and nothing else changed |
| ProductController.SoftDeleteHides | backend/controllers/productController.js:179-181 | a soft-deleted product is still stored, but is not available, cannot be bought and appears in no listing |
| ProductController.UpdateStockEndpoint | backend/controllers/productController.js:256-275 | 404 changing nothing, or the quantity added to the stock as a delta, clamped at zero |
| PaymentController.IntentFor | backend/controllers/paymentController.js:34-42 | the intent is for the order's total, in usd, for this order and the paying user |
| PaymentController.CreatePaymentIntentContract | backend/controllers/paymentController.js:10-49 | checks in order: 404 for a missing order, 403 unless the caller owns it, 400 if already paid; past them, success exactly when Stripe answers, with its client secret and no amount |
| PaymentController.NoAdminBypassForPayment | backend/controllers/paymentController.js:21-25 | an admin who does not own the order is refused with 403 |
| PaymentController.PaidByStripe | backend/controllers/paymentController.js:110-126 | the order becomes paid now, by Stripe, and processing, with the intent's id, status and receipt e-mail as payment result |
| PaymentController.PaidByStripeIsMarkAsPaid | backend/controllers/paymentController.js:115-126 | the success handler is `markAsPaid` plus the payment method and the status, and keeps a valid order valid |
| PaymentController.MarkedFailed | backend/controllers/paymentController.js:135-147 | the failure handler's status is outside the enum, so the document fails validation |
| PaymentController.HandleWebhook | backend/controllers/paymentController.js:69-104 | a rejected signature is answered 400 and changes nothing; a succeeded intent marks its order paid (if the order exists); a failed intent stores nothing and throws if the order exists; charges and unknown kinds change nothing; products never change |
| Auth.TokenOf | backend/middleware/auth.js:9-11 | a header starting with "Bearer" whose second space-separated field is non-empty yields exactly that field, and no other header yields a token |
| Auth.TokenOfBearerHeader | backend/middleware/auth.js:9-11 | the header "Bearer " + t gives back t, for any non-empty t without spaces |
| Auth.NoTokenWithoutBearer | backend/middleware/auth.js:9-11 | a header not starting with "Bearer" never yields a token |
| Auth.Authorize | backend/middleware/auth.js:46-56 | passes exactly when the user's role is listed, otherwise 403 |
| Auth.OwnerOf | backend/middleware/auth.js:102 | the owner is `user` when present, else `createdBy` |
| Auth.OwnershipDecisionContract | backend/middleware/auth.js:83-119 | 404 for a missing resource; an admin always passes; anyone else passes exactly when they are the owner |
| Auth.Protect | backend/middleware/auth.js:5-43 | 401 without a token, on a failed verification or for an unknown user, leaving req.user alone; otherwise req.user is the token's user and the request proceeds |
| Auth.OptionalAuth | backend/middleware/auth.js:59-80 | never rejects; req.user is the token's user exactly when the token verifies and the user exists, and null otherwise |
| Auth.CheckOwnership | backend/middleware/auth.js:83-119 | the ownership decision, with the resource attached to the request exactly when it passes |
| CartSlice.IndexOf | src/store/slices/cartSlice.ts:24-26 | the position of the first entry for the id, or −1 when there is none |
| CartSlice.Without | src/store/slices/cartSlice.ts:35-39 | exactly the entries for other products remain |
| CartSlice.WithoutKeepsWellFormed | src/store/slices/cartSlice.ts:35-39 | removing keeps ids distinct and quantities at least one, and keeps the order of the rest |
| CartSlice.AddedContract | src/store/slices/cartSlice.ts:23-33 | adding keeps one entry per product: an existing entry grows by one in place, otherwise a new entry of one unit comes last |
| CartSlice.AddThenRemove | src/store/slices/cartSlice.ts:23-39 | adding a product the cart did not hold and then removing it gives the cart back |
| CartSlice.WithQuantityContract | src/store/slices/cartSlice.ts:41-52 | unknown id: no change; quantity ≤ 0: exactly that entry goes and the others stay in order; otherwise it is set exactly in place; the invariant holds throughout |
| CartSlice.CartState.constructor | src/store/slices/cartSlice.ts:14-17 | the cart starts empty and closed |
| CartSlice.CartState.AddToCart | src/store/slices/cartSlice.ts:23-33 | the items become the added list; the open flag is untouched; the invariant is kept |
| CartSlice.CartState.RemoveFromCart | src/store/slices/cartSlice.ts:35-39 | the items become those for other products; the invariant is kept |
| CartSlice.CartState.UpdateQuantity | src/store/slices/cartSlice.ts:41-52 | the items become the quantity-updated list; the invariant is kept |
| CartSlice.CartState.ClearCart | src/store/slices/cartSlice.ts:54-56 | the cart is emptied and the open flag is untouched |
| CartSlice.CartState.SetCartOpen | src/store/slices/cartSlice.ts:58-60 | only the open flag changes |
| ProductSlice.InCategory | src/store/slices/productSlice.ts:29-38 | "All" gives the whole catalogue; any other category gives exactly the products of that category |
| ProductSlice.Searched | src/store/slices/productSlice.ts:40-51 | an empty term gives the whole catalogue; otherwise exactly the products whose lower-cased name or category contains the lower-cased term |
| ProductSlice.ShownIsDrawnFromCatalogue | src/store/slices/productSlice.ts:24-51 | both filtered lists are subsequences of the catalogue |
| ProductSlice.SearchByCategoryNameCoversCategory | src/store/slices/productSlice.ts:40-51 | searching for a category's own name finds every product of that category |
| ProductSlice.ProductState.constructor | src/store/slices/productSlice.ts:12-18 | empty lists, category "All", not loading, no error |
| ProductSlice.ProductState.SetProducts | src/store/slices/productSlice.ts:24-27 | products and the list on show both become the payload |
| ProductSlice.ProductState.SetSelectedCategory | src/store/slices/productSlice.ts:29-38 | the category is recorded and the list on show is its products; the catalogue is untouched |
| ProductSlice.ProductState.SearchProducts | src/store/slices/productSlice.ts:40-51 | the list on show is the search result over the whole catalogue; the selected category is neither consulted nor changed |
| ProductSlice.ProductState.SetLoading | src/store/slices/productSlice.ts:53-55 | only the loading flag changes |
| ProductSlice.ProductState.SetError | src/store/slices/productSlice.ts:57-59 | only the error changes |
| ProductSlice.ProductState.ClearError | src/store/slices/productSlice.ts:61-63 | only the error changes, to none |
| OrderSlice.FirstWithId | src/store/slices/orderSlice.ts:72 | the position `find` stops at: the first order with the id, or −1 |
| OrderSlice.WithStatusContract | src/store/slices/orderSlice.ts:70-79 | only the first order with the id changes, and only in its status; ids and length are kept; an unknown id changes nothing |
| OrderSlice.WithStatusIdempotent | src/store/slices/orderSlice.ts:70-79 | setting the same status twice is the same as once, for the list and for the current order |
| OrderSlice.AddedOrderShadowsOlder | src/store/slices/orderSlice.ts:62-79 | after adding an order, a status update by its id reaches it and leaves older orders with the same id untouched |
| OrderSlice.OrderState.constructor | src/store/slices/orderSlice.ts:47-52 | no orders, no current order, not loading, no error |
| OrderSlice.OrderState.SetOrders | src/store/slices/orderSlice.ts:58-60 | the list is replaced wholesale; nothing else changes |
| OrderSlice.OrderState.AddOrder | src/store/slices/orderSlice.ts:62-64 | the new order is prepended before the old ones |
| OrderSlice.OrderState.SetCurrentOrder | src/store/slices/orderSlice.ts:66-68 | only the current order changes |
| OrderSlice.OrderState.UpdateOrderStatus | src/store/slices/orderSlice.ts:70-79 | the first order with the id, and the current order if it has the id, take the status; nothing else changes |
| OrderSlice.OrderState.SetLoading | src/store/slices/orderSlice.ts:81-83 | only the loading flag changes |
| OrderSlice.OrderState.SetError | src/store/slices/orderSlice.ts:85-87 | only the error changes |
| OrderSlice.OrderState.ClearError | src/store/slices/orderSlice.ts:89-91 | only the error changes, to none |
| AuthSlice.MergeLaws | src/store/slices/authSlice.ts:84-94 | spreading a patch: an empty patch changes nothing, a patch twice is a patch once, two patches compose; named fields take the patch's values and the rest keep theirs |
| AuthSlice.AuthState.constructor | src/store/slices/authSlice.ts:21-27 | the token is read from storage; no user, not authenticated, not loading, no error |
| AuthSlice.AuthState.LoginStart | src/store/slices/authSlice.ts:51-54 | loading, with the error cleared; nothing else changes |
| AuthSlice.AuthState.LoginSuccess | src/store/slices/authSlice.ts:56-69 | authenticated with the payload's user and token, not loading, no error, and the token stored |
| AuthSlice.AuthState.LoginFailure | src/store/slices/authSlice.ts:71-74 | not loading, with the error recorded; user, token and the authenticated flag are untouched |
| AuthSlice.AuthState.Logout | src/store/slices/authSlice.ts:76-82 | user, token and the authenticated flag cleared, no error, and the stored token removed |
| AuthSlice.AuthState.UpdateUser | src/store/slices/authSlice.ts:84-94 | a signed-in user gets the patch spread over it; signed out, nothing changes |
| AuthSlice.AuthState.ClearError | src/store/slices/authSlice.ts:96-98 | only the error changes, to none |
| AuthSlice.AuthState.SetAuthenticated | src/store/slices/authSlice.ts:101-103 | only the authenticated flag changes |
| AuthSlice.AuthState.TestSetAuth | src/store/slices/authSlice.ts:106-118 | like a successful login, but the loading flag is untouched |
| AuthSlice.AuthState.ProfilePending | src/store/slices/authSlice.ts:122-125 | loading, with the error cleared |
| AuthSlice.AuthState.ProfileFulfilled | src/store/slices/authSlice.ts:126-131 | authenticated with the loaded profile as user; token untouched |
| AuthSlice.AuthState.ProfileRejected | src/store/slices/authSlice.ts:132-139 | signed out in memory with the error recorded, while the stored token is kept |
| AuthSlice.RejectedTokenReturnsOnReload | src/store/slices/authSlice.ts:132-139 | after a rejected profile load, the next page load starts again with the rejected token |

## Left out

- Network, database and process plumbing is not modelled: Express routing, `asyncHandler`, the error middleware (`backend/middleware/error.js` is not part of this model), and MongoDB query execution. A `find(query).sort(sort)` is the collection handed in already sorted, and `populate` is omitted.
- Concurrency is not modelled. Each `await` is one sequential step on the store, so the count-then-use order numbering race and the check-then-decrement oversell race are outside the model.
- Stripe and JSON Web Tokens are oracles: intent creation, signature verification and `jwt.verify`. `User.findById` is a map lookup.
- Floating-point money is not modelled: prices are integer cents, so `Math.round(totalPrice * 100)` and IEEE rounding of the discount are not reproduced. The discount's `Math.round` is computed exactly on rationals.
- Request parsing is simplified. `parseInt` and `parseFloat` results are given as optional integers; a malformed id (CastError), a missing `shippingAddress` object and a missing item `quantity` (where `isInStock` would use its default of 1) are not modelled.
- Search terms are compared as case-insensitive substrings. Regular-expression metacharacters in the backend's `$regex` search are not interpreted, and case folding is ASCII only.
- Mongoose timestamps are not modelled: `createdAt` is set from the given `now`, and `updatedAt` is omitted.
- `getMyOrders`, `getOrderById`, `updateOrderToPaid`, `getStats`, `getPaymentIntent`, the payment-method and customer endpoints, and the product CRUD endpoints other than `deleteProduct` and `updateStock` are outside the modelled core.
- Document methods (`updateStock`, `updateStatus`, `markAsPaid`, the pre-save hooks) are functions from the old document to the new one. The in-place update of a loaded document and aliasing between two loaded copies of one document are not modelled; the controllers write each new document back to the store.
- The front end's `localStorage` is a field of the auth state. Reads and writes by other tabs are not modelled.
- Slice states hold values. In the order slice, `currentOrder` and the matching entry of `orders` are updated independently; sharing of one object between them is not modelled.
- A `Partial<User>` key present with the value `undefined` is not modelled: a patch field is either absent or holds a value.
- `console.log` calls are omitted.
- Quantities and stock are integers. Order-item quantities, product stock, the stock delta of the stock endpoint and cart quantities are JavaScript numbers in the source, checked only by `min` bounds, so fractional values such as 1.5 units are accepted there and are not representable here. This concerns OrderController.CreateOrder, ProductController.UpdateStockEndpoint and CartSlice.WithQuantity. ProductModel.InStockDefaultIsAvailable holds only for integer stock: at stock 0.5 the product is available but `isInStock()` is false.
- PaymentController.CreatePaymentIntentContract: the order's populated `user` is taken to exist; a dangling user reference, which makes the ownership check throw, is not modelled.

## Findings

| source | as written | input that shows it | evidently intended | confidence | as-written member | corrected member |
|---|---|---|---|---|---|---|
| backend/controllers/productController.js:12 | `total`, and with it `pagination.next`, counts every active product whatever the filters | one active Books product and one active Electronics product; `?category=Books&limit=1` offers page 2, which is empty | `total` counts the products the query matches, so `next` appears exactly when the next page has products | medium, not executed | ProductController.NextLinkCountsUnfilteredProducts | ProductController.CountedNextLinkIsExact |
| backend/controllers/orderController.js:40-61 | a negative quantity passes `isInStock`, and `updateStock(-quantity)` adds to the stock; the order is then refused by validation but the added stock stays saved | an active product with stock 3 and items `[{product, quantity: -5}]`: stock becomes 8 and the request fails | quantities below one are refused before any stock is touched, so no request raises stock | high, not executed | OrderController.NegativeQuantityRaisesStock | OrderController.CreateOrderChecked |
