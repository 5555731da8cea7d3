# An electronics shop, modelled in Dafny

This project models the logic of an online electronics shop. The shop has a
Spring backend (catalogue, cart, orders, payments, administration) and a
React frontend (product list, wishlist, sign-in, cart, checkout, order
tracking, profile and admin dashboard). Every module lives in one file under
`src/`, and all files are verified together.

**Backend.**
- The repositories are tables held by one `Store.Db` object. Each table is a
  sequence of rows in ascending key order, with a counter for the next key.
- `Db.Valid()` is the integrity the schema keeps: unique keys and emails, one
  cart line per user and product, linked foreign keys, and the declared
  product constraints.
- Each service or controller operation is a method on the database. Its
  contract states the reply (or the error, modelled as a `Result`), the
  whole new state of every table, and the key counters: `Store.CountersKept`
  and `Store.CountersKeptBut` say which counters a call leaves as they were.
- Money is an exact `real`. Java's 32-bit `int` arithmetic is written out
  where the source relies on it: cart quantities and the paise conversion.
- Foreign code is passed in as function parameters:
  - HMAC-SHA256;
  - the password encoder;
  - the JWT signer;
  - the clock;
  - the date zone;
  - the authentication manager.

**Frontend.**
- Each page's React state is a class whose fields are the state variables.
  Each event handler is a method, and each memo or helper is a function.
- The browser's `localStorage` is a `Browser.LocalStorage` object with the
  `token` and `wishlist` keys.
- HTTP replies are `Client.Response` values: a body, a rejection with a
  status, or no answer.
- JavaScript's conversions are modelled as they behave:
  - `Number(text)`, with NaN and its comparisons;
  - `parseInt`, `parseFloat` and `slice`;
  - truthiness, i.e. `||` defaults.

Shared modules:
- `Wrappers`: Option and Result.
- `Text`: strings.
- `Numbers`: parsing and integer conversions of both runtimes.
- `Tables`: filters, sums, slices and order-preservation facts.
- `Sorting`: a stable sort, proved to be a permutation, and sorted whenever
  the order is a total preorder.

## Model

| member | source | states |
|---|---|---|
| CartService.GetCart | backend/src/main/java/com/example/ecommerce/service/CartService.java:25-28 | an unknown email fails with "no value present"; otherwise the reply is exactly that user's cart lines, in key order |
| CartService.AddToCart | backend/src/main/java/com/example/ecommerce/service/CartService.java:30-43 | an unknown user or product fails and changes nothing; otherwise the user's line for the product is created or merged, its quantity is the 32-bit sum of the old quantity and the added one, every other line is untouched and the store stays valid; only the cart-line counter may advance, by one exactly when a new line is created |
| CartService.MergeLine | backend/src/main/java/com/example/ecommerce/service/CartService.java:33-42 | the find-or-create step: the saved line belongs to the user and product, its quantity wraps as a Java int does, and the cart table becomes the merged table; only the cart-line counter may advance |
| CartService.AddLineQuantity | backend/src/main/java/com/example/ecommerce/service/CartService.java:33-41 | after a merge the quantity held for (user, product) is the 32-bit wrapped sum of the previous quantity and the added one |
| CartService.AddLineKeepsUnique | backend/src/main/java/com/example/ecommerce/repository/CartItemRepository.java:12 | merging keeps at most one line per (user, product), which is what the single-result lookup relies on |
| CartService.AddLineOthers | backend/src/main/java/com/example/ecommerce/service/CartService.java:33-42 | a merge leaves the line of every other (user, product) pair as it was |
| CartService.AddLineValid | backend/src/main/java/com/example/ecommerce/service/CartService.java:33-42 | a merge keeps the cart table valid: keys ascending and below the next key, lines unique and linked to a user and a product |
| CartService.RemoveFromCart | backend/src/main/java/com/example/ecommerce/service/CartService.java:45-49 | an unknown email fails and changes nothing; otherwise the user's line for the product is deleted (if any) and every other line is kept; no key counter moves |
| CartService.RemoveLineRemoves | backend/src/main/java/com/example/ecommerce/service/CartService.java:47-48 | after removal no line for (user, product) remains |
| CartService.RemoveLineOthers | backend/src/main/java/com/example/ecommerce/service/CartService.java:47-48 | removal keeps every line of other pairs, in order |
| CartService.ClearCart | backend/src/main/java/com/example/ecommerce/service/CartService.java:51-54 | an unknown email fails; otherwise the user's cart becomes empty and all other users' lines are kept; no key counter moves |
| CartService.ClearLeavesOthers | backend/src/main/java/com/example/ecommerce/service/CartService.java:51-54 | after clearing, the user's cart is empty and every other user's cart is exactly what it was |
| CartService.DeleteByUser | backend/src/main/java/com/example/ecommerce/repository/CartItemRepository.java:13 | deletes exactly the lines of one user, keeps the store valid and changes no other table or counter |
| CartService.FilterKeepsUnique | backend/src/main/java/com/example/ecommerce/repository/CartItemRepository.java:11-13 | deleting lines by any criterion keeps the one-line-per-(user, product) property |
| OrderService.NormalizePaymentMethod | backend/src/main/java/com/example/ecommerce/service/OrderService.java:47-49 | the method is always COD or RAZORPAY, and it is RAZORPAY exactly when the request said RAZORPAY |
| OrderService.InitialStatusOfNormalized | backend/src/main/java/com/example/ecommerce/service/OrderService.java:53-65 | a placed order starts PLACED exactly when it is cash on delivery and PENDING exactly when it is paid by Razorpay |
| OrderService.ItemsValueOfCart | backend/src/main/java/com/example/ecommerce/service/OrderService.java:69-78 | the total of the copied order items (price at purchase times quantity) equals the value of the cart at current prices |
| OrderService.PlacedOrderFacts | backend/src/main/java/com/example/ecommerce/service/OrderService.java:51-79 | a placed order has one item per cart line with the same product and quantity and the current price, its total is the sum of its items, its payment status is PENDING and its status is PLACED exactly for COD |
| OrderService.CollectItems | backend/src/main/java/com/example/ecommerce/service/OrderService.java:69-77 | the loop succeeds exactly when every line's product has a price, and then yields the copied items and the cart's value |
| OrderService.PlaceOrder | backend/src/main/java/com/example/ecommerce/service/OrderService.java:41-82 | unknown user: "User not found" and nothing changes; empty cart: "Cart is empty" and nothing changes; a product without a price: the transaction rolls back orders and cart but the order counter has advanced by one; otherwise the placed order, under the old counter value, is appended and the user's cart is emptied, users and products untouched; only the order counter ever moves |
| OrderService.PlaceFromCart | backend/src/main/java/com/example/ecommerce/service/OrderService.java:51-81 | from a non-empty cart: either rollback on a missing price, or the placed order is stored under the next key and the user's cart lines are deleted; in both cases the order counter advances by one and no other counter moves |
| OrderService.CompleteOrder | backend/src/main/java/com/example/ecommerce/service/OrderService.java:78-80 | the second save replaces the just-inserted order by its filled-in version and the user's cart lines are deleted; no key counter moves |
| OrderService.InsertOrder | backend/src/main/java/com/example/ecommerce/service/OrderService.java:68 | saving a new order gives it the next key and appends it, changing nothing else; the order counter advances by one and no other counter moves |
| OrderService.RestoreOrders | backend/src/main/java/com/example/ecommerce/service/OrderService.java:40-41 | the transactional rollback puts the order table back while the identity counter stays advanced; no key counter moves |
| OrderService.LinesLinked | backend/src/main/java/com/example/ecommerce/service/OrderService.java:72 | every copied order item refers to an existing product |
| OrderService.NewestFirstIsPreorder | backend/src/main/java/com/example/ecommerce/service/OrderService.java:34 | "created at, descending" is a total preorder, so sorting by it is well defined |
| OrderService.OrdersOfFacts | backend/src/main/java/com/example/ecommerce/service/OrderService.java:34 | a user's order list is newest first, is a permutation of that user's orders, holds only their orders and misses none of them |
| OrderService.ListMyOrders | backend/src/main/java/com/example/ecommerce/service/OrderService.java:32-38 | an unknown email fails with "no value present"; otherwise the reply is the user's orders, newest first |
| OrderService.FindById | backend/src/main/java/com/example/ecommerce/service/OrderService.java:84-86 | succeeds exactly when an order has that key, and then returns that order; otherwise "Order not found" |
| OrderService.FindByTrackingId | backend/src/main/java/com/example/ecommerce/service/OrderService.java:92-94 | a tracking id that is not a Java long raises NumberFormatException; otherwise the reply is the order with that key, or null exactly when there is none |
| OrderService.SaveOrder | backend/src/main/java/com/example/ecommerce/service/OrderService.java:88-90 | saving an existing order replaces that row in place and changes nothing else; no key counter moves |
| AdminService.UpdateUserRole | backend/src/main/java/com/example/ecommerce/service/AdminService.java:140-145 | an unknown user id fails with "User not found" and changes nothing; otherwise only that user's role is replaced (by any string, or null) and the row is saved in place; no key counter moves |
| AdminService.UpdateOrderStatus | backend/src/main/java/com/example/ecommerce/service/AdminService.java:151-156 | an unknown order id fails with "Order not found"; otherwise only that order's status is replaced, with no check on the value; no key counter moves |
| AdminService.CreateProduct | backend/src/main/java/com/example/ecommerce/service/AdminService.java:162-164 | a product breaking its declared constraints is refused and nothing changes; a description over 2000 characters is refused by the database (a DataIntegrityViolationException) and nothing changes; otherwise it is stored under the next key; only the product counter advances, by one, on success |
| AdminService.UpdateProduct | backend/src/main/java/com/example/ecommerce/service/AdminService.java:166-177 | an unknown id fails with "Product not found"; otherwise the five editable fields are copied over, the key and creation time are kept, and a row breaking the constraints is refused; a description over 2000 characters is refused by the database (a DataIntegrityViolationException) and nothing changes; no key counter moves |
| AdminService.DeleteProduct | backend/src/main/java/com/example/ecommerce/service/AdminService.java:179-184 | a missing product fails with "Product not found"; a product still in a cart or an order is refused by its foreign keys; otherwise the table becomes the old one without exactly that row; no key counter moves |
| Analytics.PendingAndCompleted | backend/src/main/java/com/example/ecommerce/service/AdminService.java:49-54 | pending (PENDING or PLACED) and completed (DELIVERED) orders together never outnumber all orders |
| Analytics.RevenueCountsOnce | backend/src/main/java/com/example/ecommerce/service/AdminService.java:57-60 | revenue is the paid orders' total plus the delivered-but-unpaid orders' total, so an order that is both counts once |
| Analytics.TallyCounts | backend/src/main/java/com/example/ecommerce/service/AdminService.java:67-68 | grouping and counting has a key for exactly the values that occur, and each count is the number of occurrences |
| Analytics.TallySum | backend/src/main/java/com/example/ecommerce/service/AdminService.java:67-73 | the counts of a grouping add up to the number of values grouped |
| Analytics.StatusCountsSum | backend/src/main/java/com/example/ecommerce/service/AdminService.java:66-74 | the status and the payment-method distributions each add up to the number of orders |
| Analytics.DayInWindow | backend/src/main/java/com/example/ecommerce/service/AdminService.java:84-101 | for a day inside the thirty-day window, picking that day's orders from the window gives exactly that day's orders from all orders |
| Analytics.DailySalesData | backend/src/main/java/com/example/ecommerce/service/AdminService.java:82-108 | thirty entries, one per day from thirty days ago up to yesterday; each day's sales and order count are exactly those of the orders created that day |
| Analytics.MergedTotals | backend/src/main/java/com/example/ecommerce/service/AdminService.java:116-123 | the merged maps have a key for exactly the sold products, and hold each product's total quantity and total revenue |
| Analytics.MoreSoldIsPreorder | backend/src/main/java/com/example/ecommerce/service/AdminService.java:126 | "more units sold first" is a total preorder |
| Analytics.RankedFacts | backend/src/main/java/com/example/ecommerce/service/AdminService.java:125-126 | the ranking is a permutation of the sold products without repeats, in non-increasing quantity |
| Analytics.TopIdsFacts | backend/src/main/java/com/example/ecommerce/service/AdminService.java:125-127 | the listed products are at most ten distinct products that were sold, in non-increasing total quantity, and any sold product left off sold no more than the tenth |
| Analytics.TopSellingFacts | backend/src/main/java/com/example/ecommerce/service/AdminService.java:110-134 | at most ten entries, in non-increasing quantity, distinct products, each with its name, total quantity and total revenue; any sold product left out sold no more than the tenth entry |
| Analytics.TopSellingProducts | backend/src/main/java/com/example/ecommerce/service/AdminService.java:110-134 | the merge loop over all order items yields the top-selling list that Analytics.TopSellingFacts describes |
| Analytics.GetAnalytics | backend/src/main/java/com/example/ecommerce/service/AdminService.java:39-80 | an order without a status makes the grouping fail; otherwise the report holds the table sizes, the pending and completed counts, the revenue, thirty daily entries, both distributions and the top sellers |
| ProductService.FindAll | backend/src/main/java/com/example/ecommerce/service/ProductService.java:17 | every product, in key order |
| ProductService.FindById | backend/src/main/java/com/example/ecommerce/service/ProductService.java:18 | succeeds exactly when a product has the key and returns it; otherwise "no value present" |
| ProductService.Create | backend/src/main/java/com/example/ecommerce/service/ProductService.java:19 | a valid product is stored under the next key with its creation time; an invalid one is refused and nothing changes; a description over 2000 characters is refused by the database (a DataIntegrityViolationException) and nothing changes; only the product counter advances, by one, on success |
| ProductService.InsertProduct | backend/src/main/java/com/example/ecommerce/service/ProductService.java:19 | saving a new row appends it and advances only the product counter |
| ProductService.EditAt | backend/src/main/java/com/example/ecommerce/service/ProductService.java:21-27 | the row is replaced in place by the edited row, or the edit is refused when it breaks the constraints; a description over 2000 characters is refused by the database (a DataIntegrityViolationException) and nothing changes; no key counter moves |
| ProductService.Update | backend/src/main/java/com/example/ecommerce/service/ProductService.java:20-28 | an unknown id fails with "no value present"; otherwise the editable fields are overwritten in place and nothing else changes, unless the edit breaks the constraints or its description is over 2000 characters (a DataIntegrityViolationException), which changes nothing; no key counter moves |
| ProductService.Delete | backend/src/main/java/com/example/ecommerce/service/ProductService.java:29 | deleting a missing key does nothing; a referenced product is refused; otherwise only that row goes; no key counter moves |
| ProductService.RemoveUnused | backend/src/main/java/com/example/ecommerce/service/ProductService.java:29 | deleting an unreferenced row removes exactly that position and keeps the store valid; no key counter moves |
| Entities.Product.constructor | backend/src/main/java/com/example/ecommerce/model/Product.java:11-30 | a new product has every field null except the creation time, which is now |
| Entities.Product.Load | backend/src/main/java/com/example/ecommerce/model/Product.java:11-30 | loading a stored row gives an object whose fields are that row |
| Entities.Product.SetId | backend/src/main/java/com/example/ecommerce/model/Product.java:32-33 | sets the id and no other field |
| Entities.Product.SetName | backend/src/main/java/com/example/ecommerce/model/Product.java:34-35 | sets the name and no other field |
| Entities.Product.SetDescription | backend/src/main/java/com/example/ecommerce/model/Product.java:36-37 | sets the description and no other field |
| Entities.Product.SetPrice | backend/src/main/java/com/example/ecommerce/model/Product.java:38-39 | sets the price and no other field |
| Entities.Product.SetImageUrl | backend/src/main/java/com/example/ecommerce/model/Product.java:40-41 | sets the image URL and no other field |
| Entities.Product.SetStock | backend/src/main/java/com/example/ecommerce/model/Product.java:42-43 | sets the stock and no other field |
| Entities.Product.SetCreatedAt | backend/src/main/java/com/example/ecommerce/model/Product.java:44-45 | sets the creation time and no other field |
| Entities.Product.CopyEditable | backend/src/main/java/com/example/ecommerce/service/AdminService.java:170-174 | the five setter calls turn the object into the edited row |
| Entities.EditedRow | backend/src/main/java/com/example/ecommerce/service/ProductService.java:22-26 | an edited row keeps its key and creation time and carries exactly the given editable fields |
| Entities.EditedRowOverrides | backend/src/main/java/com/example/ecommerce/service/ProductService.java:20-28 | a second edit overrides the first, and repeating an edit changes nothing |
| Entities.EditedRowRestores | backend/src/main/java/com/example/ecommerce/service/ProductService.java:20-28 | editing back to a row's own fields restores the row |
| DataLoader.CatalogueMeetsConstraints | backend/src/main/java/com/example/ecommerce/config/DataLoader.java:29-77 | the six seeded products are priced above zero, have stock and meet the product constraints |
| DataLoader.LoadingIdempotent | backend/src/main/java/com/example/ecommerce/config/DataLoader.java:18-79 | loading a second time adds nothing, and after loading both tables are non-empty |
| DataLoader.SeededAdmin | backend/src/main/java/com/example/ecommerce/config/DataLoader.java:20-27 | an empty user table gets exactly one administrator with the encoded default password; a non-empty one is left alone |
| DataLoader.SaveSeed | backend/src/main/java/com/example/ecommerce/config/DataLoader.java:30-36 | one product's setters and save append its row under the next key; only the product counter advances, by one |
| DataLoader.SeedCatalogue | backend/src/main/java/com/example/ecommerce/config/DataLoader.java:29-77 | the six saves append the catalogue under consecutive keys; the product counter advances by six and no other counter moves |
| DataLoader.Init | backend/src/main/java/com/example/ecommerce/config/DataLoader.java:18-79 | seeds the admin only into an empty user table and the catalogue only into an empty product table, leaving carts and orders alone; the user counter advances by one exactly when the admin is seeded, the product counter by six exactly when the catalogue is, and the others stay |
| Store.UserByEmail | backend/src/main/java/com/example/ecommerce/service/OrderService.java:33 | the lookup finds a user with that email, or reports that none has it |
| Store.LineOf | backend/src/main/java/com/example/ecommerce/repository/CartItemRepository.java:12 | finds the first line of the (user, product) pair, or reports that none exists |
| Store.LineOfUnique | backend/src/main/java/com/example/ecommerce/repository/CartItemRepository.java:12 | with one line per pair, any matching line is the one found |
| Store.SaveNewUser | backend/src/main/java/com/example/ecommerce/controller/AuthController.java:46 | a new user is appended under the next key and nothing else changes |
| Payment.Unsigned | backend/src/main/java/com/example/ecommerce/service/PaymentService.java:68 | masking a signed Java byte with 0xff gives the value below 256 congruent to it |
| Payment.BytesToHex | backend/src/main/java/com/example/ecommerce/service/PaymentService.java:65-71 | the loop builds exactly the hex text of the bytes, two digits per byte |
| Payment.HexOfLowercase | backend/src/main/java/com/example/ecommerce/service/PaymentService.java:68-69 | every character of the hex text is a lower-case hex digit |
| Payment.HexOfAt | backend/src/main/java/com/example/ecommerce/service/PaymentService.java:66-70 | the text is twice as long as the bytes, and characters 2i and 2i+1 are the two digits of byte i |
| Payment.HexValue | backend/src/main/java/com/example/ecommerce/service/PaymentService.java:68-69 | a hex digit's value is below 16 |
| Payment.ByteHexRoundTrip | backend/src/main/java/com/example/ecommerce/service/PaymentService.java:68-69 | decoding a byte's two hex digits gives back the byte, so the padding to two digits loses nothing |
| Payment.HexRoundTrip | backend/src/main/java/com/example/ecommerce/service/PaymentService.java:65-71 | decoding the hex text gives back the byte sequence |
| Payment.HexOfLength | backend/src/main/java/com/example/ecommerce/service/PaymentService.java:65-71 | the hex text has two characters per byte |
| Payment.HexOfInjective | backend/src/main/java/com/example/ecommerce/service/PaymentService.java:55-58 | different digests give different hex texts, so comparing texts compares digests |
| Payment.SignedMessageInjective | backend/src/main/java/com/example/ecommerce/service/PaymentService.java:51 | when order ids contain no bar, "orderId\|paymentId" determines both ids |
| Payment.BarAfterOrderId | backend/src/main/java/com/example/ecommerce/service/PaymentService.java:51 | in the signed message the first bar sits right after the order id |
| Payment.VerifyPayment | backend/src/main/java/com/example/ecommerce/service/PaymentService.java:42-63 | a payment is accepted only when the order id, payment id and signature are all present and non-empty |
| Payment.VerifyPaymentExactly | backend/src/main/java/com/example/ecommerce/service/PaymentService.java:50-62 | with all three present, a payment is accepted exactly when the MAC succeeds and its hex text equals the signature; a MAC failure rejects |
| Payment.VerifyRejectsNonLowercase | backend/src/main/java/com/example/ecommerce/service/PaymentService.java:55-58 | a signature holding anything but lower-case hex digits is always rejected |
| Payment.Paise | backend/src/main/java/com/example/ecommerce/service/PaymentService.java:35 | the amount in paise is always a 32-bit int: the truncated product wrapped as the cast to int does |
| Payment.PaiseInRange | backend/src/main/java/com/example/ecommerce/service/PaymentService.java:35 | when amount times 100 fits in an int, the paise value is its floor |
| Payment.PaiseWraps | backend/src/main/java/com/example/ecommerce/service/PaymentService.java:35 | an order of 21474837 rupees wraps to a negative paise amount |
| Payment.OrderRequestFor | backend/src/main/java/com/example/ecommerce/service/PaymentService.java:33-40 | the gateway request is in INR, carries the receipt, and its amount is the paise value |
| PaymentController.ReceiptNamesInstant | backend/src/main/java/com/example/ecommerce/controller/PaymentController.java:54 | the receipt is "receipt_" followed by the time in milliseconds, which parses back to that time |
| PaymentController.CreateOrder | backend/src/main/java/com/example/ecommerce/controller/PaymentController.java:36-75 | a missing amount, an amount BigDecimal cannot read (bad syntax, or an exponent or scale outside the int range) and an amount not above zero each give their own 400 reply; a 200 reply carries the gateway's order id, amount and currency and the key id, for a positive amount |
| PaymentController.CreateOrderReachesGateway | backend/src/main/java/com/example/ecommerce/controller/PaymentController.java:54-74 | a positive amount that BigDecimal reads reaches the gateway with an INR request; its failure becomes a 400 naming the error and its success a 200 |
| PaymentController.CreateOrderRefusesHugeExponent | backend/src/main/java/com/example/ecommerce/controller/PaymentController.java:44-52 | an amount such as 1e2147483648, whose exponent leaves the int range, is a 400 "Invalid amount format" and never reaches the gateway |
| PaymentController.ReadVerifyRequest | backend/src/main/java/com/example/ecommerce/controller/PaymentController.java:81-108 | a successful read carries exactly the four request fields, the order id parsed as a long |
| PaymentController.FirstMissing | backend/src/main/java/com/example/ecommerce/controller/PaymentController.java:87-101 | names a field that is absent or empty, or reports that all are present |
| PaymentController.ReadReportsFirstMissing | backend/src/main/java/com/example/ecommerce/controller/PaymentController.java:87-101 | the reply names the first missing field in the order razorpayOrderId, razorpayPaymentId, razorpaySignature, orderId |
| PaymentController.ReadChecksOrderIdLast | backend/src/main/java/com/example/ecommerce/controller/PaymentController.java:103-108 | with every field present, the read fails exactly when the order id is not a long, and then says "Invalid orderId format" |
| PaymentController.PaidOrder | backend/src/main/java/com/example/ecommerce/controller/PaymentController.java:113-118 | a paid order is PAID and PLACED, records the three Razorpay values and keeps every other field |
| PaymentController.Verify | backend/src/main/java/com/example/ecommerce/controller/PaymentController.java:78-129 | a bad request or a bad signature leaves orders unchanged with its 400 reply; a valid signature for an unknown order gives "Verification error: Order not found"; a valid signature for a known order marks exactly that order paid and replies 200; no key counter moves |
| OrderController.PaymentMethodOf | backend/src/main/java/com/example/ecommerce/controller/OrderController.java:27 | no body or no paymentMethod key means COD; a present key is passed on as it is, null included |
| OrderController.PlaceDefaultsToCod | backend/src/main/java/com/example/ecommerce/controller/OrderController.java:26-28 | an order is paid by Razorpay exactly when the body says RAZORPAY, and by cash on delivery in every other case |
| OrderController.Place | backend/src/main/java/com/example/ecommerce/controller/OrderController.java:25-29 | places the caller's order with the body's payment method, COD by default: an unknown caller or an empty cart changes nothing; a product without a price rolls back but advances the order counter; otherwise the service's placed order (described by OrderService.PlacedOrderFacts) is appended and the caller's cart is emptied |
| OrderController.TrackOrder | backend/src/main/java/com/example/ecommerce/controller/OrderController.java:31-34 | answers with the order of that key, or "Order not found" exactly when there is none |
| OrderController.MyOrders | backend/src/main/java/com/example/ecommerce/controller/OrderController.java:20-23 | an unknown caller fails; a known caller gets exactly the service's listing of their orders: a rearrangement of their orders, only theirs, newest first |
| AdminController.RoleOf | backend/src/main/java/com/example/ecommerce/controller/AdminController.java:47 | a body without "role" means ROLE_USER; otherwise its value, null included |
| AdminController.Escaped | backend/src/main/java/com/example/ecommerce/controller/AdminController.java:34-75 | a service result becomes a 200 reply exactly when it succeeded; an exception becomes a server error carrying its message |
| AdminController.GetAnalytics | backend/src/main/java/com/example/ecommerce/controller/AdminController.java:25-37 | non-admins are refused; an order without a status is a server error; otherwise the admin gets the service's full report: table sizes, pending and completed counts, revenue, distributions and top sellers |
| AdminController.GetAll | backend/src/main/java/com/example/ecommerce/controller/AdminController.java:40-65 | non-admins are refused; an admin gets every user, order and product in key order |
| AdminController.UpdateUserRole | backend/src/main/java/com/example/ecommerce/controller/AdminController.java:45-48 | non-admins are refused and nothing changes; otherwise the user's role becomes the body's role (ROLE_USER by default), or the call fails for an unknown user; no key counter moves and no other table changes |
| AdminController.UpdateOrderStatus | backend/src/main/java/com/example/ecommerce/controller/AdminController.java:56-59 | non-admins are refused; otherwise the order's status becomes the body's status, null when absent; no key counter moves and no other table changes |
| AdminController.CreateProduct | backend/src/main/java/com/example/ecommerce/controller/AdminController.java:67-70 | non-admins are refused; a product breaking its constraints, or with a description over 2000 characters, is a server error that changes nothing; otherwise the new row under the next key is appended and returned; only the product counter advances, by one, on success |
| AdminController.UpdateProduct | backend/src/main/java/com/example/ecommerce/controller/AdminController.java:72-75 | non-admins are refused; an unknown id, an edit breaking the constraints or a description over 2000 characters is a server error that changes nothing; a valid edit of an existing product is a 200 carrying the edited row, which replaced the old one in place with the same key; no key counter moves |
| AdminController.DeleteProduct | backend/src/main/java/com/example/ecommerce/controller/AdminController.java:77-85 | non-admins are refused; an unknown id is a 400 with "Product not found"; a product still referenced is a 400 and changes nothing; otherwise a 200 and the table loses exactly that row; no key counter moves |
| ProfileController.Hidden | backend/src/main/java/com/example/ecommerce/controller/ProfileController.java:33 | the reply never carries the password hash and keeps the other fields |
| ProfileController.GetCurrentUser | backend/src/main/java/com/example/ecommerce/controller/ProfileController.java:28-35 | the caller's own account without its password hash, or "User not found" |
| ProfileController.UpdateProfile | backend/src/main/java/com/example/ecommerce/controller/ProfileController.java:39-54 | changing to an email another account holds is a 400 that changes nothing; otherwise only the caller's name and email change; no key counter moves |
| ProfileController.ChangePassword | backend/src/main/java/com/example/ecommerce/controller/ProfileController.java:58-71 | a null current password makes the encoder throw, a 500 that changes nothing; a wrong current password is refused and changes nothing; a null new password makes the encoder throw and changes nothing; otherwise only the caller's hash is replaced by the encoded new password; no key counter moves |
| AuthController.TokenClaims | backend/src/main/java/com/example/ecommerce/controller/AuthController.java:47 | claims exist exactly when the user has a role and a name (otherwise the map construction throws), and they carry the subject, role and name |
| AuthController.NewAccount | backend/src/main/java/com/example/ecommerce/controller/AuthController.java:41-45 | a new account has the given name and email, the encoded password and the ROLE_USER role |
| AuthController.SignupClaims | backend/src/main/java/com/example/ecommerce/controller/AuthController.java:41-47 | a new account's token carries its email, ROLE_USER and its name, and exists exactly when a name was given |
| AuthController.Signup | backend/src/main/java/com/example/ecommerce/controller/AuthController.java:36-49 | a taken email gets "Email already in use" and nothing changes; a null password makes the encoder throw before the save, a 500 that changes nothing; otherwise the account is appended and, when it has a name, a token is returned; a new account advances the user counter by one and no other counter moves |
| AuthController.Login | backend/src/main/java/com/example/ecommerce/controller/AuthController.java:51-58 | failed authentication is a 401; an authenticated address with no account is a server error; for a stored user a token with their email, role and name is issued, or a server error when the role or name is null |
| ProductList.Ordered | frontend/src/pages/ProductList.jsx:33-35 | every sort choice only reorders the list: the result is a permutation of it |
| ProductList.Visible | frontend/src/pages/ProductList.jsx:29-37 | the shown list is a permutation of the products that pass the search and both price bounds |
| ProductList.NarrowedIsOneFilter | frontend/src/pages/ProductList.jsx:30-32 | the three successive filters equal a single filter by their conjunction, and keep the catalogue's relative order |
| ProductList.ShownIff | frontend/src/pages/ProductList.jsx:29-37 | a product is shown exactly when it is in the catalogue, its lower-cased name contains the lower-cased query and its price passes each non-empty bound |
| ProductList.EmptySearchKeepsAll | frontend/src/pages/ProductList.jsx:30-32 | an empty query and empty bounds keep every product in catalogue order |
| ProductList.NaNBoundHidesAll | frontend/src/pages/ProductList.jsx:31-32 | a non-empty bound that is not a number hides every product, because every comparison with NaN is false |
| ProductList.NonNumericMinimum | frontend/src/pages/ProductList.jsx:31 | typing "abc" as the minimum price empties the list |
| ProductList.PriceOrdersArePreorders | frontend/src/pages/ProductList.jsx:33-34 | both price comparators are total preorders, so the sorts are well defined |
| ProductList.PriceAscending | frontend/src/pages/ProductList.jsx:33 | with "price-asc" the shown prices never decrease |
| ProductList.PriceDescending | frontend/src/pages/ProductList.jsx:34 | with "price-desc" the shown prices never increase |
| ProductList.NameAscending | frontend/src/pages/ProductList.jsx:35 | with "name-asc" the shown names are in the collator's order |
| ProductList.OtherSortKeepsOrder | frontend/src/pages/ProductList.jsx:33-36 | any other sort value, "relevance" included, keeps the filtered list in catalogue order |
| ProductList.PageItems | frontend/src/pages/ProductList.jsx:39-40 | a page never holds more than twelve products |
| ProductList.PagesCoverList | frontend/src/pages/ProductList.jsx:39-40 | every product of the list is on exactly the page and position its index gives, and that page is within the page count |
| ProductList.ProductListPage.constructor | frontend/src/pages/ProductList.jsx:10-14 | the page starts with no products, no filter, sort "relevance" and page 1 |
| ProductList.ProductListPage.ShownPage | frontend/src/pages/ProductList.jsx:40 | the current page's products, at most twelve |
| ProductList.ProductListPage.TotalPages | frontend/src/pages/ProductList.jsx:165 | the page count handed to the pager, at least 1 |
| ProductList.ProductListPage.Loaded | frontend/src/pages/ProductList.jsx:17-22 | the fetched catalogue replaces the products; filters and page stay |
| ProductList.ProductListPage.QueryChanged | frontend/src/pages/ProductList.jsx:24-27 | the URL's q parameter, or "" when missing, becomes the query; the page is not reset |
| ProductList.ProductListPage.SearchTyped | frontend/src/pages/ProductList.jsx:76 | typing sets the query and goes back to page 1 |
| ProductList.ProductListPage.SortChosen | frontend/src/pages/ProductList.jsx:106 | choosing a sort sets it and goes back to page 1 |
| ProductList.ProductListPage.SidebarChanged | frontend/src/pages/ProductList.jsx:128 | the sidebar's filters replace all four fields and go back to page 1 |
| ProductList.ProductListPage.PrevClicked | frontend/src/pages/ProductList.jsx:165 | the pager's previous button moves one page back, never below 1 |
| ProductList.ProductListPage.NextClicked | frontend/src/pages/ProductList.jsx:165 | the pager's next button moves one page on, never past the last page |
| Pagination.TotalPages | frontend/src/components/Pagination.jsx:2 | the page count is the least count of at least one page whose pages hold every item |
| Pagination.CeilingBounds | frontend/src/components/Pagination.jsx:2 | the ceiling of total over page size is the least number of pages that hold every item |
| Pagination.Prev | frontend/src/components/Pagination.jsx:3 | one page back, but never below page 1 |
| Pagination.Next | frontend/src/components/Pagination.jsx:4 | one page on, but never past the last page |
| Pagination.StaysInRange | frontend/src/components/Pagination.jsx:2-4 | from a page in range, both buttons lead to a page in range |
| Pagination.DisabledIffStuck | frontend/src/components/Pagination.jsx:7-9 | a button is disabled exactly when pressing it would not change the page |
| Wishlist.Stored | frontend/src/pages/Wishlist.jsx:6 | a missing wishlist entry reads as the empty list |
| Wishlist.ListedIff | frontend/src/pages/ProductList.jsx:44 | the find by id succeeds exactly when some listed product has that id |
| Wishlist.Add | frontend/src/pages/ProductList.jsx:42-48 | a product is appended and stored exactly when no listed product has its id; otherwise storage is untouched; the token is never touched |
| Wishlist.AddKeepsIdsUnique | frontend/src/pages/ProductList.jsx:44-46 | adding keeps the ids distinct, keeps the earlier entries and lists the new one |
| Wishlist.Without | frontend/src/pages/Wishlist.jsx:8 | removal drops every product with the id, keeps every other one and keeps their order |
| Wishlist.AddThenRemove | frontend/src/pages/Wishlist.jsx:7-11 | removing a product just added restores the previous wishlist |
| Wishlist.RemoveIdempotent | frontend/src/pages/Wishlist.jsx:7-11 | removing twice is removing once |
| Wishlist.WishlistPage.constructor | frontend/src/pages/Wishlist.jsx:5-6 | after mounting, the page shows the stored wishlist |
| Wishlist.WishlistPage.Remove | frontend/src/pages/Wishlist.jsx:7-11 | the page state and the stored wishlist both become the list without that id; the token is untouched |
| Browser.LocalStorage.constructor | frontend/src/hooks/useAuth.js:4 | the browser storage starts with the given token and wishlist entries |
| Session.UserOf | frontend/src/hooks/useAuth.js:13 | the session user's email is the token's subject; its role is the token's role or ROLE_USER when that is missing or empty; its name is the token's name or "" |
| Session.NoTokenSignedOut | frontend/src/hooks/useAuth.js:7-16 | without a token, or with an empty one, the hook is signed out with no user |
| Session.UndecodableStaysSignedIn | frontend/src/hooks/useAuth.js:9-18 | a non-empty token that does not decode leaves the hook authenticated but without a user |
| Session.DecodableSignsIn | frontend/src/hooks/useAuth.js:9-13 | a token that decodes signs in with the user built from its payload |
| Session.Auth.constructor | frontend/src/hooks/useAuth.js:4-5 | on first render the hook is authenticated exactly when a non-empty token is stored, with no user yet |
| Session.Auth.Refresh | frontend/src/hooks/useAuth.js:7-24 | re-reading the token makes the state exactly the one the stored token determines |
| Session.Auth.Login | frontend/src/hooks/useAuth.js:26-32 | the token is always stored; the call succeeds exactly when it decodes, and then the hook is signed in with the payload's user; a failed decode leaves the state as it was |
| Session.Auth.Logout | frontend/src/hooks/useAuth.js:34-38 | the token is removed and the hook is signed out, which is also what re-reading storage gives; the wishlist stays |
| Routes.GuardRendersIff | frontend/src/App.jsx:20-32 | a protected page renders exactly when signed in and either no roles are demanded, no user is known or the user's role is listed; otherwise it redirects to /login when signed out and to / otherwise |
| Routes.AccessInNone | frontend/src/App.jsx:39-53 | a path matching no route has no access rule |
| Routes.AccessAt | frontend/src/App.jsx:39-53 | a path takes the access rule of the first route that matches it |
| Routes.GuardTable | frontend/src/App.jsx:40-53 | /admin demands ROLE_ADMIN; the shop, wishlist, login and signup pages are open; cart, checkout, orders and profile demand sign-in |
| Routes.AdminRoute | frontend/src/App.jsx:27-28 | a signed-in non-admin is sent home from /admin, while a signed-in visitor whose user is not yet decoded is let through |
| LoginPage.Form.constructor | frontend/src/pages/Login.jsx:9 | the form starts without an error |
| LoginPage.Form.Submit | frontend/src/pages/Login.jsx:13-36 | navigation happens exactly when the server answers and the token decodes: the token is stored, the hook is signed in and an admin goes to /admin, anyone else to /; otherwise the error is "Invalid credentials" and neither storage nor session changes |
| OrderTracking.StatusIndex | frontend/src/pages/OrderTracking.jsx:54 | the index of the first step with that key, or -1 exactly when no step has it |
| OrderTracking.StatusSteps | frontend/src/pages/OrderTracking.jsx:46-60 | always the four steps PLACED, PAID, SHIPPED, DELIVERED with their labels |
| OrderTracking.StepsShape | frontend/src/pages/OrderTracking.jsx:55-59 | the completed steps form a prefix; at most one step is current, and it is the completed step whose key is the status; an unknown status completes nothing |
| OrderTracking.ShownStatus | frontend/src/pages/OrderTracking.jsx:85 | a missing or empty status is shown as PLACED |
| OrderTracking.MissingStatusIsPlaced | frontend/src/pages/OrderTracking.jsx:85 | an order without a status shows only the first step, as current |
| OrdersPage.Seed | frontend/src/pages/Orders.jsx:57 | the picture seed is the product id when non-zero, else its name when non-empty, else "electronics" |
| OrdersPage.ImageFor | frontend/src/pages/Orders.jsx:55-59 | an image URL starting with "http" is used as it is; otherwise the seeded placeholder; either way the URL starts with "http" |
| OrdersPage.Thumbnail.constructor | frontend/src/pages/Orders.jsx:123 | a thumbnail starts on the product's image, not yet fallen back |
| OrdersPage.Thumbnail.Failed | frontend/src/pages/Orders.jsx:125-131 | the first load error switches to the placeholder and marks the fallback; later errors change nothing, so there is no error loop |
| OrdersPage.ShownStatus | frontend/src/pages/Orders.jsx:104-105 | the badge is never empty and shows the status when it has one |
| OrdersPage.ShownQuantity | frontend/src/pages/Orders.jsx:138 | the quantity shown is never 0: a missing or zero quantity shows as 1 |
| OrdersPage.Page.constructor | frontend/src/pages/Orders.jsx:10-12 | no orders, no error, loading |
| OrdersPage.Page.Mounted | frontend/src/pages/Orders.jsx:14-20 | a signed-out visitor is sent to /login and nothing is fetched; a signed-in one fetches |
| OrdersPage.Page.Load | frontend/src/pages/Orders.jsx:22-38 | a reply shows its orders (none when null) and clears the error; a failure keeps the orders and shows the error; the page goes to /login exactly on a 401; loading always ends |
| Client.PriceNumber | frontend/src/pages/ProductList.jsx:31-34 | a product's price read as a number is always the finite price itself |
| Client.ErrorText | frontend/src/pages/Profile.jsx:104 | a failure shows the server's non-empty error text, and the page's fallback message otherwise |
| CartPage.LineValue | frontend/src/pages/Cart.jsx:11 | a line is worth its product's price times its quantity |
| CartPage.Subtotal | frontend/src/pages/Cart.jsx:11 | the sum succeeds exactly when every line carries its product (a missing one makes the page throw), and is then the sum of the line values |
| CartPage.ViewOf | frontend/src/pages/Cart.jsx:20-61 | an empty cart shows the empty state; otherwise the summary's tax is 18% of the subtotal and its total is subtotal plus tax |
| CartPage.SubtotalNonNegative | frontend/src/pages/Cart.jsx:11 | lines of non-negative value never add up to a negative subtotal |
| CartPage.RemovePath | frontend/src/pages/Cart.jsx:10-41 | the remove request's path is the removal prefix followed by the line's product id, which the backend parses back to that id |
| CartPage.IdRoundTrip | frontend/src/pages/Cart.jsx:10 | an id in the Java long range, written out in decimal, parses back to itself |
| Checkout.TotalsAgree | frontend/src/pages/Checkout.jsx:45-47 | where every line has a product, checkout's subtotal, tax and total are exactly the cart page's summary |
| Checkout.Page.constructor | frontend/src/pages/Checkout.jsx:8-11 | the page starts empty, not loading, with cash on delivery chosen and no Razorpay script |
| Checkout.Page.LoadCart | frontend/src/pages/Checkout.jsx:19-30 | a reply replaces the lines (none when it is not a list); the page goes back to /cart exactly when the reply holds no lines; a failure keeps the state |
| Checkout.Page.PlaceDisabledIff | frontend/src/pages/Checkout.jsx:235-239 | the place-order button is disabled exactly when loading, when the total is not positive, or when paying by Razorpay before its script loaded |
| Checkout.OpenWidget | frontend/src/pages/Checkout.jsx:71-85 | the widget opens exactly when the payment order has an id, a key is known and the script is present; otherwise the first failing check names the error |
| Checkout.BackendKeyFirst | frontend/src/pages/Checkout.jsx:78 | a key sent by the backend is used in preference to the build's key |
| Checkout.AfterVerify | frontend/src/pages/Checkout.jsx:104-108 | the page goes to the order's confirmation exactly when verify answers with status "success" |
| Checkout.VerifyOutcomes | frontend/src/pages/Checkout.jsx:97-108 | the backend's success reply leads to the confirmation page; its failure body and a 400 do not |
| ProductDetails.ImageFor | frontend/src/pages/ProductDetails.jsx:7-13 | no product gives the default picture; an image URL starting with "http" is used as it is; otherwise the search URL for the lower-cased name (or "electronics"); the result always starts with "http" |
| ProductDetails.ImageIdempotent | frontend/src/pages/ProductDetails.jsx:7-13 | storing the computed URL as the product's image yields the same URL again |
| ProductDetails.Decrement | frontend/src/pages/ProductDetails.jsx:177 | the minus button lowers the quantity by one but never below 1 |
| ProductDetails.Increment | frontend/src/pages/ProductDetails.jsx:193 | the plus button raises the quantity by one but never above the stock |
| ProductDetails.Typed | frontend/src/pages/ProductDetails.jsx:187 | a typed quantity is its leading integer when that is at least 1, and 1 when it is below 1 or there is none |
| ProductDetails.StepperStaysInRange | frontend/src/pages/ProductDetails.jsx:177-194 | from a quantity between 1 and the stock, both buttons stay between 1 and the stock |
| ProductDetails.TypedIgnoresStock | frontend/src/pages/ProductDetails.jsx:187 | typing is not bounded by the stock: "500" gives 500, while "abc", "0" and "-3" give 1 |
| ProductDetails.AfterAdd | frontend/src/pages/ProductDetails.jsx:36-43 | adding goes to /cart exactly when the backend accepts, and to /login on any failure |
| ProductDetails.WishlistClicked | frontend/src/pages/ProductDetails.jsx:45-52 | the product is appended and "Added to wishlist!" shown exactly when no listed product has its id; otherwise nothing changes |
| ProductCard.ImageFor | frontend/src/components/ProductCard.jsx:7-16 | an image URL starting with "http" is used as it is; otherwise the search URL for the lower-cased name; the result always starts with "http" |
| ProductCard.ImageIdempotent | frontend/src/components/ProductCard.jsx:7-16 | storing the computed URL as the product's image yields the same URL again |
| ProductCard.Badge | frontend/src/components/ProductCard.jsx:40-44 | "In Stock" exactly when the stock is positive, "Out of Stock" otherwise |
| ProductCard.Card.constructor | frontend/src/components/ProductCard.jsx:19-22 | a card starts loading, without error, showing the product's image |
| ProductCard.Card.Src | frontend/src/components/ProductCard.jsx:30 | the fixed fallback after an error, the product's image before |
| ProductCard.Card.Loaded | frontend/src/components/ProductCard.jsx:32 | a load ends the spinner and keeps the picture |
| ProductCard.Card.Errored | frontend/src/components/ProductCard.jsx:33-36 | an error ends the spinner and switches to the fallback |
| ProductCard.Card.WishlistClicked | frontend/src/components/ProductCard.jsx:49 | without a handler nothing happens; with the shared one the product is added exactly when its id is not yet listed |
| RatingStars.Stars | frontend/src/components/RatingStars.jsx:1-3 | five stars; star i is full exactly when i is below the rating's floor, and a missing rating counts as 0 |
| RatingStars.StarsShape | frontend/src/components/RatingStars.jsx:2-3 | the full stars form a prefix whose length is the floor of the rating clamped to 0..5 |
| RatingStars.FilledPrefix | frontend/src/components/RatingStars.jsx:3 | a star row full exactly before k has k full stars |
| RatingStars.Extremes | frontend/src/components/RatingStars.jsx:1-3 | no rating shows five empty stars; a rating of 5 or more shows five full stars |
| ProfilePage.Split | frontend/src/pages/Profile.jsx:115 | splitting on spaces yields at least one piece, none containing a space |
| ProfilePage.JoinSplit | frontend/src/pages/Profile.jsx:115 | joining the pieces with spaces gives the name back |
| ProfilePage.HeadsAreWordStarts | frontend/src/pages/Profile.jsx:115 | the first characters of the pieces are exactly the characters that begin a word |
| ProfilePage.Initials | frontend/src/pages/Profile.jsx:113-116 | "U" without a name; otherwise the first two word-starting characters, upper-cased |
| ProfilePage.InitialsStartWithName | frontend/src/pages/Profile.jsx:113-116 | a name that does not begin with a space starts its initials with its own first letter, upper-cased |
| ProfilePage.PasswordProblem | frontend/src/pages/Profile.jsx:88-95 | the form refuses a mismatched confirmation first, then a password shorter than six UTF-16 code units (JavaScript's length), and accepts exactly the rest |
| ProfilePage.PasswordForm.constructor | frontend/src/pages/Profile.jsx:15-16 | the form starts with empty fields and no message |
| ProfilePage.EmojiPasswordLongEnough | frontend/src/pages/Profile.jsx:92 | three emoji outside the Basic Multilingual Plane are six UTF-16 units, so they pass the six-character check |
| ProfilePage.PasswordForm.Submit | frontend/src/pages/Profile.jsx:86-106 | a request is sent exactly when the checks pass (the length counted in UTF-16 code units), with the current and new password; success clears the fields and says so; a refused check or a failed request shows its error and keeps the fields |
| ProfilePage.LoadStats | frontend/src/pages/Profile.jsx:51-70 | statistics appear exactly when both requests succeed: the numbers of orders and cart lines and the sum of the order totals |
| ProfilePage.SpentMatchesBackend | frontend/src/pages/Profile.jsx:58-60 | for the orders the backend lists, the amount spent is the sum of their stored totals |
| AdminPage.NumberOf | frontend/src/pages/Admin.jsx:53-54 | a form field read as a number: an untouched number is itself, an empty text or null is 0, typed text is JavaScript's conversion |
| AdminPage.EditRoundTrip | frontend/src/pages/Admin.jsx:51-55 | saving an edited product without touching the form sends its own name, price and stock back |
| AdminPage.Editor.constructor | frontend/src/pages/Admin.jsx:12-22 | the dashboard starts with an empty form, nothing being edited and the modal closed |
| AdminPage.Editor.AddNew | frontend/src/pages/Admin.jsx:84-88 | adding clears the form, forgets any edited product and opens the modal |
| AdminPage.Editor.Edit | frontend/src/pages/Admin.jsx:72-82 | editing fills the form from the product, remembers it and opens the modal |
| AdminPage.Editor.Save | frontend/src/pages/Admin.jsx:49-70 | saving sends a PUT for the edited product's id, or a POST when adding, with the form's payload; success resets the form, forgets the product, closes the modal and reloads; failure changes nothing |
| AdminPage.DeleteClicked | frontend/src/pages/Admin.jsx:90-99 | a DELETE for the id is sent exactly when the user confirms, and the dashboard reloads exactly when it also succeeds |
| AdminPage.Processing | frontend/src/pages/Admin.jsx:261 | the processing count is never negative and is total minus completed minus pending whenever that is not negative |
| AdminPage.ProcessingMatchesReport | frontend/src/pages/Admin.jsx:261 | for the backend's report, processing is exactly the orders neither pending nor completed |
| AdminPage.RecentOrders | frontend/src/pages/Admin.jsx:207 | the recent orders are the first five orders, or all of them when there are fewer |
| Newsletter.FirstAt | frontend/src/components/NewsletterSignup.jsx:9 | the position of the first "@", or the length when there is none |
| Newsletter.AcceptsSplit | frontend/src/components/NewsletterSignup.jsx:9 | an accepted address splits into a local part, "@", and a domain with an inner dot, all three without spaces or "@" |
| Newsletter.PatternAccepted | frontend/src/components/NewsletterSignup.jsx:9 | every address of the form local@domain.tld with such parts is accepted by the scan |
| Newsletter.FirstAtIs | frontend/src/components/NewsletterSignup.jsx:9 | in local@rest with a local part free of "@", the first "@" is right after the local part |
| Newsletter.AcceptsIffPattern | frontend/src/components/NewsletterSignup.jsx:9 | the scan accepts exactly the addresses the regular expression matches |
| Newsletter.Refused | frontend/src/components/NewsletterSignup.jsx:9 | the empty address and any address holding a space are refused |
| Newsletter.SingleAt | frontend/src/components/NewsletterSignup.jsx:9 | an accepted address holds exactly one "@" |
| Newsletter.Signup.constructor | frontend/src/components/NewsletterSignup.jsx:4-5 | the form starts empty and idle |
| Newsletter.Signup.Typed | frontend/src/components/NewsletterSignup.jsx:31 | typing replaces the address and keeps the status |
| Newsletter.Signup.Submit | frontend/src/components/NewsletterSignup.jsx:7-16 | a subscription is scheduled exactly when the address matches the pattern, and the form then shows loading; otherwise nothing changes |
| Newsletter.Signup.Delivered | frontend/src/components/NewsletterSignup.jsx:11-13 | when the first timer fires the form shows success and clears the address |
| Newsletter.Signup.Cleared | frontend/src/components/NewsletterSignup.jsx:14 | when the second timer fires the form is idle again |
| Numbers.IndexOf | backend/src/main/java/com/example/ecommerce/service/PaymentService.java:51 | the position of the first occurrence of a character, or the length when there is none |
| Numbers.ShowNatValue | backend/src/main/java/com/example/ecommerce/controller/PaymentController.java:54 | the decimal text of a natural number is all digits and reads back as that number |
| Numbers.ParseLong | backend/src/main/java/com/example/ecommerce/controller/PaymentController.java:105 | a parsed long always lies in the 64-bit range |
| Numbers.ParseLongShowInt | backend/src/main/java/com/example/ecommerce/service/OrderService.java:93 | every long written in decimal parses back to itself |
| Numbers.ParseDecimalShowNat | backend/src/main/java/com/example/ecommerce/controller/PaymentController.java:44-48 | a natural number written in decimal parses as that amount |
| Numbers.ParseBigDecimal | backend/src/main/java/com/example/ecommerce/controller/PaymentController.java:46 | BigDecimal reads exactly the decimal text whose exponent and scale fit an int, and then gives the same value as the decimal grammar |
| Numbers.PlainDecimalAgrees | backend/src/main/java/com/example/ecommerce/controller/PaymentController.java:46 | text without an exponent and with fewer than 2^31 characters reads the same under both parsers |
| Numbers.ParseBigDecimalShowNat | backend/src/main/java/com/example/ecommerce/controller/PaymentController.java:46 | a natural number written in decimal is a BigDecimal of that value |
| Numbers.HugeExponentRefused | backend/src/main/java/com/example/ecommerce/controller/PaymentController.java:46-51 | 1eN with N beyond the int range is a number to the unbounded grammar but a NumberFormatException to BigDecimal |
| Numbers.DecimalChars | backend/src/main/java/com/example/ecommerce/controller/PaymentController.java:44-48 | a text that parses as a decimal holds only sign, digit, point and exponent characters |
| Numbers.NonNumericIsNaN | frontend/src/pages/ProductList.jsx:31-32 | a text holding a character that cannot occur in a number (and is not part of "Infinity") converts to NaN |
| Numbers.TrimmedKeepsChars | frontend/src/pages/ProductList.jsx:31-32 | trimming white space only removes characters |
| Numbers.NotInTrimmed | frontend/src/pages/ProductList.jsx:31-32 | trimming keeps every character that is not white space |
| Numbers.DigitRun | frontend/src/pages/ProductDetails.jsx:187 | the leading digit run is all digits and is followed by a non-digit or the end |
| Numbers.ToInt32 | backend/src/main/java/com/example/ecommerce/service/CartService.java:41 | the Java int result of an addition: in the 32-bit range and congruent to the exact sum modulo 2^32 |
| Numbers.TruncateTowardZero | backend/src/main/java/com/example/ecommerce/service/PaymentService.java:35 | the integer part, rounded toward zero as a cast does |
| Tables.IndexWhere | backend/src/main/java/com/example/ecommerce/repository/CartItemRepository.java:12 | the first row satisfying the condition, or a report that none does |
| Tables.IndexOfKey | backend/src/main/java/com/example/ecommerce/service/OrderService.java:85 | the row holding a key, or a report that no row does |
| Tables.HasKeyIff | backend/src/main/java/com/example/ecommerce/service/AdminService.java:180 | a key exists exactly when the lookup by key finds a row |
| Tables.Filter | frontend/src/pages/ProductList.jsx:30-32 | the kept rows all satisfy the condition, come from the list, and none that satisfies it is lost |
| Tables.FilterEmbeds | frontend/src/pages/ProductList.jsx:30-32 | a filter keeps the relative order of the rows it keeps |
| Tables.FilterBoth | frontend/src/pages/ProductList.jsx:30-32 | filtering twice equals filtering once by both conditions |
| Tables.FilterConcat | backend/src/main/java/com/example/ecommerce/repository/CartItemRepository.java:13 | a filter distributes over concatenation |
| Tables.FilterAll | frontend/src/pages/ProductList.jsx:30 | a filter every row passes keeps the list as it is |
| Tables.FilterKeysAscend | backend/src/main/java/com/example/ecommerce/repository/CartItemRepository.java:13 | deleting rows keeps the keys ascending |
| Tables.AppendKeysAscend | backend/src/main/java/com/example/ecommerce/service/OrderService.java:68 | saving a new row under the next key keeps the keys ascending |
| Tables.ReplaceKeysAscend | backend/src/main/java/com/example/ecommerce/service/OrderService.java:88-90 | saving an existing row in place keeps the keys ascending |
| Tables.RemoveKeysAscend | backend/src/main/java/com/example/ecommerce/service/AdminService.java:183 | deleting one row keeps the keys ascending |
| Tables.RemoveAt | backend/src/main/java/com/example/ecommerce/service/AdminService.java:183 | after deleting a row its key is gone and every other row remains |
| Tables.RemoveKeepsOtherKeys | backend/src/main/java/com/example/ecommerce/service/AdminService.java:183 | deleting a row keeps every other key |
| Tables.SumOfConcat | backend/src/main/java/com/example/ecommerce/service/OrderService.java:76 | a sum over two lists is the sum of the two sums |
| Tables.CountOf | backend/src/main/java/com/example/ecommerce/service/AdminService.java:49-54 | a stream count of a filter is the number of rows that pass it |
| Tables.Slice | frontend/src/pages/ProductList.jsx:40 | JavaScript's slice: never longer than the list or the requested span, and the exact sub-list when the start lies in the list |
| Tables.SliceBound | frontend/src/pages/Admin.jsx:207 | an end past the list is clamped to its length |
| Tables.SumOfSame | frontend/src/pages/Profile.jsx:58-60 | two lists whose elements pair up with equal values have equal sums |
| Sorting.Insert | frontend/src/pages/ProductList.jsx:33-35 | inserting adds exactly one element |
| Sorting.SortBy | frontend/src/pages/ProductList.jsx:33-35 | sorting returns a permutation of its input |
| Sorting.InsertSorted | frontend/src/pages/ProductList.jsx:33-35 | inserting into a sorted list keeps it sorted under a total preorder |
| Sorting.SortBySorted | backend/src/main/java/com/example/ecommerce/service/AdminService.java:126 | the result of sorting by a total preorder is sorted |
| Text.Utf16Length | frontend/src/pages/Profile.jsx:92 | JavaScript's string length: between the number of characters and twice it, and equal to it when every character is in the Basic Multilingual Plane |
| Text.Utf16LengthOfEmoji | frontend/src/pages/Profile.jsx:92 | three characters above U+FFFF have a JavaScript length of six |
| Text.OrElse | frontend/src/hooks/useAuth.js:13 | JavaScript's default with a string: the value when it is present and non-empty, the default otherwise |
| Text.Lower | frontend/src/pages/ProductList.jsx:30 | lower-casing keeps the length and maps each character |
| Text.Upper | frontend/src/pages/Profile.jsx:115 | upper-casing keeps the length and maps each character |
| Text.LowerChar | frontend/src/pages/ProductList.jsx:30 | capital letters become small letters and every other character is kept |
| Text.UpperChar | frontend/src/pages/Profile.jsx:115 | small letters become capital letters and every other character is kept |
| Text.LowerIdempotent | frontend/src/pages/ProductList.jsx:30 | lower-casing twice is lower-casing once |
| Text.ContainsIffOccurs | frontend/src/pages/ProductList.jsx:30 | the containment test holds exactly when the text occurs at some position |
| Text.ContainsEmpty | frontend/src/pages/ProductList.jsx:30 | every name contains the empty query |
| Text.StartsWithAppend | frontend/src/pages/Orders.jsx:56-58 | appending to a text keeps its prefixes |
| Text.HttpsIsHttp | frontend/src/components/ProductCard.jsx:15 | every https URL starts with "http" |

## Left out

- HTTP, Spring and JPA plumbing (request mapping, security annotations, transactions, repository interfaces, the frontend's HTTP client) is not modelled: repositories are sequences of rows in ascending key order, and a request's outcome reaches the pages as a `Client.Response`.
- Referential integrity between tables is assumed rather than enforced by the model; bean validation is modelled as checked when a product is saved.
- HMAC-SHA256, JWT signing and decoding (`atob` and `JSON.parse` of the payload), password hashing and the authentication manager are foreign code and appear as function parameters.
- The clock, the time zone and "today" are parameters; instants and days are integers.
- The Razorpay SDK (the gateway client, the checkout widget and its script loading) is not modelled: the gateway is a parameter, and only the order of the checks before the widget opens is kept.
- PaymentController.CreateOrder: the catch-all 400 "Invalid request: " followed by the exception's message is not modelled; it is reached when the gateway's order lacks its id or currency or has an amount that is not an int, and the gateway's answer is typed here.
- ProductService.Create: a save the database refuses for a too-long description is taken to consume no identity value; the database and its configuration are not part of this model.
- ProfileController.UpdateProfile: a null new email is not modelled; what the save then does depends on the User entity's column declaration, and the User entity is not part of this model, so emails are strings throughout.
- ProfilePage.Initials: a word starting with a character above U+FFFF gets the whole character as its initial, where JavaScript takes a lone surrogate, and the two-initial cut counts characters rather than UTF-16 units; Dafny strings cannot hold a lone surrogate.
- Floating point is not modelled: money is an exact `real`, so `toFixed` rounding, `formatCurrency`, the USD to INR conversion and the float results of the tax computation are out; Cart's subtotal times 1.18 and Checkout's subtotal plus 18% agree only in exact arithmetic.
- JSON serialisation is not modelled (NaN would travel as null).
- `localeCompare` is the parameter `nameLe`, assumed to be a total preorder; `encodeURIComponent` is the parameter `encode`; date formatting is left out.
- Timers, concurrency and promise ordering are not modelled: `Promise.all` on the admin page, unmount races, the timed clearing of messages and of the newsletter status, and the confetti.
- Presentational components (navigation bar, footer, landing page, confirmation page, testimonials, trust badges, category grid, search bar, filters, not-found page) and the admin page's mock chart percentages are not modelled.
- Duplicates and pure delegation are not modelled: the profile dropdown's initials (the same as the profile page's), the landing page's wishlist add (the same as the product list's), the user service's role update (the same as the admin service's), the sign-up page, and the cart and product controllers.
- Numbers.ToNumber: hexadecimal, octal and binary literals are not modelled; such text reads as NaN here.
- Text.Lower and Text.Upper: only ASCII letters change case.
- CartPage.LineValue: a quantity is a number or null, and null multiplies as 0 just as in JavaScript; an absent quantity field, which would give NaN, is not modelled because the backend always sends the field.
- CartPage.RemovePath requires the line to have a product; without one the page would already have failed computing the subtotal.
- Analytics.RankedFacts, Analytics.TopIdsFacts and Analytics.TopSellingFacts: products with equal quantities are ranked in the order they were first sold, where the source follows the iteration order of a hash map, which it does not specify.
- Session.UserOf: the payload's role and name are taken to be strings.
- RatingStars.Stars: a NaN rating is not modelled.
- ProductService.Delete on a missing key is a no-op, as the repository's delete by id behaves in Spring Data 3.
- The cart page's loading of its lines is not modelled as a handler; the views it shows are (`CartPage.ViewOf`).
- The order-tracking page's loading of the order (the request and its error message) is not modelled; the status steps, the default status and the success banner are.
- The profile page's profile update (a request followed by a timed reload) is not modelled; the password form and the statistics are.
- The checkout page's cash-on-delivery handler is not modelled beyond the place button's state; the online-payment path is modelled through `Checkout.OpenWidget` and `Checkout.AfterVerify`.
- The product details page's fetch of the product and its image gallery are not modelled; the quantity stepper, the image choice, adding to the cart and the wishlist are.
- Numbers.ParseLong accepts ASCII digits only, while the Java parser also accepts the decimal digits of other scripts (for example full-width digits); such text is refused here, which affects OrderService.FindByTrackingId and PaymentController.ReadVerifyRequest.
- Numbers.ParseBigDecimal accepts ASCII digits only, while `new BigDecimal(String)` also accepts the decimal digits of other scripts (for example full-width digits); such an amount is refused here, which affects PaymentController.CreateOrder.
- AuthController.Signup: the password encoder is a parameter, since its configuration is not part of this model; a null password is taken to make it throw, as Spring Security's standard encoders do. A null email is not modelled.
- ProfileController.ChangePassword: a null current or new password is taken to make the password encoder throw, as Spring Security's standard encoders do.
- OrderService.ListMyOrders: orders with equal creation instants are listed in key order; the repository query leaves their order unspecified.
- OrderService.OrdersOf: fixes the order of equal creation instants as key order, which the repository query does not promise.
- ProductService.Create: takes only the five editable fields: a request body that carries an id (which the repository's save would merge into an existing row) or a creation instant (which would be stored as sent, null included) is not modelled; the new row always gets the next key and the current instant.
- AdminService.CreateProduct: takes only the five editable fields: a request body that carries an id (which the repository's save would merge into an existing row) or a creation instant (which would be stored as sent, null included) is not modelled; the new row always gets the next key and the current instant.
- AdminController.CreateProduct: takes only the five editable fields: a request body that carries an id (which the repository's save would merge into an existing row) or a creation instant (which would be stored as sent, null included) is not modelled; the new row always gets the next key and the current instant.
- AdminController.DeleteProduct: an exception raised by the database or by bean validation is represented by its class name, where the reply carries the exception's own message text, which the model does not reproduce; the "Product not found" message is exact.
- AdminController.CreateProduct: a bean-validation failure is represented by the exception's class name, where the 500 reply carries the exception's own message text, which the model does not reproduce.
- AdminController.UpdateProduct: a bean-validation failure is represented by the exception's class name, where the 500 reply carries the exception's own message text, which the model does not reproduce; the "Product not found" message is exact.
