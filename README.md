# KoCart core in Dafny

This project is a Dafny model of the rules at the heart of the KoCart shop.

- **Cart engine.** Each user has one cart, a sequence of lines (line id, product reference, quantity ≥ 1) with a cached `totalAmount`. The handlers `getCart`, `addToCart`, `updateCartItem` and `removeFromCart` work on an in-memory store of carts over an abstract catalog of prices and stock. The model proves that after every add, update or remove the cached total is the sum of current price × quantity. `getCart` drops lines whose product is gone but keeps the stored total, which can then be stale.
- **Payment.**
  - The gateway order request: the amount in paise, and the currency and receipt defaults.
  - The client-initiated signature check that marks an order paid.
  - The gateway webhook that moves an order to paid on `captured` and to failed on `failed`.
  - HMAC-SHA256 (RFC 2104 over FIPS 180-4) and the JSON serialisation of the webhook body are passed in as functions.
- **Admin dashboard and users.** The revenue sum over paid orders, the zero-filled seven-day sales series, the admin-delete guard, and the `||`/`??` merge of a user update.
- **Products.** The filter and sort objects `getProducts` builds, `createProduct` validation and defaults, the `updateProduct` merge, the image each handler unlinks, and the name under which an uploaded image is saved.
- **Upload filter.** The MIME type and extension test on uploaded images, and the 5 MB size limit.
- **Client rules.**
  - Checkout page: the displayed total, shipping-address validation, the order payload, and the three-step flow.
  - Admin order list: the status chip, which actions are offered, and how the list changes after an action.
  - Image dropzone: how the preview path is normalised.

There is one module per concern:
- `Http`: results and error statuses
- `Text`, `Paths`, `Seqs`: string, path and list helpers
- `CartModel`, `CartEngine`
- `OrderModel`, `Payment`
- `Admin`
- `Products`
- `UploadFilter`
- `Checkout`
- `AdminOrderList`
- `ImageDropzone`

Handlers that update a document step by step are methods of a class holding the store. Each method's `ensures` gives the error exits in the order the handler checks them, when it succeeds, and the whole new state. The new state is stated through functions (`Added`, `Removed`, `Total`, `MergeProduct`, `MarkedDelivered`, …), and lemmas prove the promised properties of those functions.

Conventions:
- Money is an integer number of minor units.
- Timestamps and calendar days are integers.
- An error is `Error(status, message)`. An exception thrown with no status set is reported as 500, as the error middleware does.

Behaviours of the code worth knowing:
- **Webhook without a payload.** A webhook body with no `payload` fails with a 500 TypeError (backend/controllers/paymentController.js:116-117).
- **Error statuses in `verifyPayment` and `createOrder`.** Every failure leaves with status 500, because the `catch` overwrites the 400 or 404 set before the throw. This includes a bad signature, a missing order and a failed gateway call.
- **`updateProduct` deletes any old image.** When a new file arrives it unlinks the previous image even if it is a default image. `deleteProduct` spares those (`DefaultImageUnlinkedOnlyOnUpdate`).
- **Product ids in `addToCart`.** The id is looked up and stored as the object id it casts to, whose string form is lower-case hex (`CanonicalId`). The line search compares the stored lines with the id as sent, so an id sent with upper-case letters never finds its line. The store models the search on the canonical id; see "## Findings".

## Model

| member | source | states |
|---|---|---|
| CartModel.EmptyCart | backend/models/cartModel.js:16-27 | A newly created cart belongs to its user, has no lines and has `totalAmount` at its default of 0. |
| CartModel.Validate | backend/models/cartModel.js:3-14 | Saving succeeds, leaving the cart as it is, exactly when every line has a product and a quantity of at least 1; otherwise it is a validation error with status 500. |
| CartEngine.CalculateTotal | backend/controllers/cartController.js:174-181 | The loop yields a total exactly when every line's product exists, and that total is Σ price × quantity (`Total`); a deleted product is a 500. |
| CartEngine.TotalAppend | backend/controllers/cartController.js:174-181 | The total of two line lists put together is the sum of their totals. |
| CartEngine.TotalSingle | backend/controllers/cartController.js:177-179 | One line totals its product's price times its quantity; with `TotalAppend` this makes `Total` the sum over the lines. |
| CartEngine.CanonicalId | backend/controllers/cartController.js:56 | The canonical form has the length of the id, keeps a valid id valid and holds no upper-case letter. |
| CartEngine.Added | backend/controllers/cartController.js:78-91 | When the product has a line, only that line changes and its quantity grows by `q`; otherwise the lines are kept and one line `(newId, p, q)` is appended. |
| CartEngine.WithQuantity | backend/controllers/cartController.js:141 | Only line `k` changes, and only its quantity, which becomes `q`. |
| CartEngine.Removed | backend/controllers/cartController.js:161-163 | No kept line has the id, every kept line was in the cart, and every line with another id is kept. |
| CartEngine.Resolved | backend/controllers/cartController.js:27 | Every kept line resolves in the catalog, every kept line was in the cart, and every resolving line is kept. |
| CartEngine.TotalWithQuantity | backend/controllers/cartController.js:141-142 | Setting one line's quantity moves the total by that product's price times the change in quantity. |
| CartEngine.AddedQuantity | backend/controllers/cartController.js:78-91 | Whether it merges or appends, adding `q` of a product raises that product's units by exactly `q` and leaves every other product's units unchanged. |
| CartEngine.AddedTotal | backend/controllers/cartController.js:78-94 | After an add, the total grows by the added product's current price × `q`. |
| CartEngine.AddedKeepsLines | backend/controllers/cartController.js:78-91 | Matching on the canonical id, an add keeps one line per product and distinct line ids, and adds a line only when the product had none. |
| CartEngine.AddedTwice | backend/controllers/cartController.js:82-91 | Matching on the canonical id, adding `a` then `b` of one product gives the same lines as adding `a + b` at once. |
| CartEngine.QuantityOfDistinct | backend/controllers/cartController.js:78-80 | With one line per product, a product's units are those of the line `find` returns, or 0. |
| CartEngine.AddedWithinStock | backend/controllers/cartController.js:63-91 | With one line per product, a quantity within stock and a merge that fits, the cart never holds more units of the product than its stock. |
| CartEngine.AddedAsWritten | backend/controllers/cartController.js:78-91 | The merge as written: a line is appended when no stored line equals the id as sent, and the new line holds the canonical id. |
| CartEngine.UpperCaseIdSplitsLine | backend/controllers/cartController.js:56-91 | As written, an upper-case id passes every check yet appends a second line for its product, holding 6 units against a stock of 5; the canonical match refuses it. |
| CartEngine.StockLimitExample | backend/controllers/cartController.js:84-88 | With 3 units in the cart and 5 in stock, adding 3 more is refused, while adding 2 more merges into one line of 5. |
| CartEngine.RemovedLines | backend/controllers/cartController.js:161-163 | Removal keeps exactly the lines with another id. Removing an absent id changes nothing, and removing twice is removing once. |
| CartEngine.RemovedAppend | backend/controllers/cartController.js:161-163 | Removal works on each part of a cart independently, so the kept lines stay in their order. |
| CartEngine.FilterKeepsLines | backend/controllers/cartController.js:27 | Dropping lines (deleted products, or a removed id) keeps every stored invariant: valid quantities, one line per product, distinct ids. |
| CartEngine.CartStore.GetCart | backend/controllers/cartController.js:9-36 | With no cart, an empty one is created and stored. Otherwise the lines whose product is gone are dropped and stored, and the cached total is not recomputed. |
| CartEngine.CartStore.EnsureCart | backend/controllers/cartController.js:67-75 | A user without a cart gets an empty one. An existing cart, the other carts and the id counter are unchanged. |
| CartEngine.CartStore.MergeLine | backend/controllers/cartController.js:77-103 | A merged quantity over stock gives 400 and changes nothing. Success holds exactly when the merge fits, every old line resolves and the added lines are valid; then the stored lines are `Added` and the total is `Total`. Any other failure leaves the carts unchanged. |
| CartEngine.CartStore.AddToCart | backend/controllers/cartController.js:41-111 | Error exits in the handler's order:<br>1. falsy id or quantity: 400<br>2. malformed id: 400<br>3. no product under the canonical id: 404<br>4. stock < quantity: 400<br>5. merged quantity over stock: 400<br>The first four change no cart. Once the guards pass the user always has a cart, created empty if missing, and a later error changes nothing else. On success the lines are `Added` under the canonical id, the total is `Total`, and nothing else in the store changes. |
| CartEngine.CartStore.UpdateCartItem | backend/controllers/cartController.js:116-148 | 404 with no cart or no line with that id; 500 when the line's product is gone; 400 when stock < quantity. Otherwise only that line's quantity changes and the total is recomputed. |
| CartEngine.CartStore.RemoveFromCart | backend/controllers/cartController.js:153-171 | 404 with no cart; otherwise the lines become `Removed` and the total is recomputed over them. |
| Payment.Round | backend/controllers/paymentController.js:19 | `Math.round` gives an integer within half a unit of its argument. |
| Payment.AmountInPaise | backend/controllers/paymentController.js:19 | The paise amount is within half a paisa of amount × 100. |
| Payment.ExactForTwoDecimals | backend/controllers/paymentController.js:18-19 | An amount with at most two decimals converts to paise exactly. |
| Payment.GatewayOptionsFor | backend/controllers/paymentController.js:11-26 | A missing or zero amount is refused. Otherwise: amount in paise, currency defaulting to "INR" only when absent, receipt defaulting to `receipt_<now>` when falsy, and payment capture 1. |
| Payment.SignedText | backend/controllers/paymentController.js:64 | The signed text is the order id, one bar, then the payment id. |
| Payment.CreateOrder | backend/controllers/paymentController.js:9-44 | Every failure is a 500. A missing or zero amount gives "Amount is required". Otherwise the gateway's outcome decides: a created order is the reply, and success happens only then. No order gives "Error creating Razorpay order". A thrown error gives its own message, or "Error creating payment order" when that is empty. |
| Payment.SignedTextInjective | backend/controllers/paymentController.js:64 | For order ids without the separator bar, the signed text (order id, bar, payment id) determines both ids. |
| Payment.ApplyEvent | backend/controllers/paymentController.js:127-136 | `captured` sets paid and `paidAt` now. `failed` clears paid and sets the payment status to "failed". Any other status changes nothing. The order id, total, delivery flag, creation time and payment id are always kept, so each case determines the whole new order. |
| Payment.ApplyEventKeepsPaymentIndex | backend/controllers/paymentController.js:123-136 | After an event the same payment id still finds the same order. |
| Payment.ApplyEventIdempotent | backend/controllers/paymentController.js:127-136 | Delivering the same event twice has the effect of delivering it once. |
| Payment.OrderStore.VerifyPayment | backend/controllers/paymentController.js:49-101 | Errors, in order: missing parameter, signature ≠ HMAC(key secret, `SignedText`), no such order. All are 500 and touch no order. Success happens exactly when all three checks pass: only that order changes, and it becomes the stored order with paid set, `paidAt` now and a "completed" payment result whose id is the payment id, every other field kept. |
| Payment.OrderStore.HandleWebhook | backend/controllers/paymentController.js:106-144 | A header other than HMAC(webhook secret, serialised body) is a 400 and changes nothing. A missing payload is a 500 and changes nothing. Otherwise the reply is always "ok", and only the first order with that payment id, if any, gets `ApplyEvent`. |
| Admin.RevenueSingle | backend/controllers/adminController.js:17 | One order contributes its total price to the `reduce`; with `RevenueAppend` the revenue is the sum of total prices. |
| Admin.PaidOrders | backend/controllers/adminController.js:16 | The fetched orders are all paid, all come from the collection, and every paid order is fetched. |
| Admin.TotalRevenue | backend/controllers/adminController.js:16-17 | With no paid order the revenue is 0. |
| Admin.RevenueAppend | backend/controllers/adminController.js:17 | The revenue `reduce` is additive over concatenation. |
| Admin.TotalRevenueAppend | backend/controllers/adminController.js:16-17 | The dashboard revenue of two order lists together is the sum of their revenues. |
| Admin.TotalRevenueSingle | backend/controllers/adminController.js:16-17 | One order contributes its total price exactly when it is paid. |
| Admin.MarkPaidRaisesRevenue | backend/controllers/adminController.js:16-17 | Marking one unpaid order paid raises the revenue by exactly its total price. |
| Admin.FilledSalesData | backend/controllers/adminController.js:70-81 | Exactly 7 entries for consecutive days, starting seven days before today and ending yesterday. Each entry copies revenue and order count from the first aggregated record of that day, or has 0 and 0 when there is none. |
| Admin.MergeUser | backend/controllers/adminController.js:143-145 | A non-empty name or email replaces the old one and an empty one keeps it. A supplied `isAdmin` is taken as sent (`true` promotes, `false` demotes), and an absent one keeps the flag. The id and the password never change. |
| Admin.MergeUserLaws | backend/controllers/adminController.js:143-145 | An empty update keeps the user. An explicit `false` demotes. A falsy name or email keeps the old one. Applying an update twice is applying it once. |
| Admin.UserStore.DeleteUser | backend/controllers/adminController.js:107-121 | 404 for a missing user; 400 for an admin, who is not removed. Otherwise exactly that user is removed. |
| Admin.UserStore.UpdateUser | backend/controllers/adminController.js:139-158 | 404 for a missing user. Otherwise the merged user is stored, and the reply carries only its id, name, email and admin flag. |
| Products.OptimizeAndSaveImage | backend/controllers/productController.js:8-23 | No file gives no path; a file gives a path under `/uploads/`. |
| Products.SavedPathParses | backend/controllers/productController.js:11-22 | The saved path's last segment is `<now>-<original name>.webp`. Its extension is `.webp` whatever the upload's was, and its name is the timestamp joined to the original name. |
| Products.BuildQuery | backend/controllers/productController.js:28-68 | A product satisfies the built query exactly when:<br>- its category is in the comma-split list, when categories are given<br>- its price is within the inclusive bounds, each applying only when given<br>- name or description matches the search, when one is given<br>Sort: `price_asc` sorts by price ascending, `price_desc` by price descending, `rating` by rating descending, any other non-empty value by `createdAt` descending, and no value means no sort. |
| Products.SingleCategory | backend/controllers/productController.js:33-35 | A single category without commas selects exactly the products of that category. |
| Products.PriceBoundsInclusive | backend/controllers/productController.js:38-42 | A product priced exactly at both bounds is selected. |
| Products.NewProduct | backend/controllers/productController.js:93-112 | 400 exactly when name, price, description or category is falsy. Otherwise the fields are as sent, the stock count is never NaN (0 when the sent one is 0, NaN or missing), and the image is the saved path or "". |
| Products.MergeProduct | backend/controllers/productController.js:134-157 | Name, description and category take the sent text when it is truthy and keep the old one otherwise. Price takes `Number` of the sent one unless that is 0 or NaN. The stock count is always `Number` of the sent one. The image is the newly saved path when one was saved and is non-empty, otherwise the old one. The owner is always kept. |
| Products.StockFallbackNeverFires | backend/controllers/productController.js:155 | The new stock count never depends on the stored product, and an update without one stores NaN. |
| Products.MergeProductLaws | backend/controllers/productController.js:148-157 | An update sending nothing keeps every field except the stock count, which becomes NaN. Applying an update twice is applying it once. |
| Products.ImageReplaced | backend/controllers/productController.js:134-146 | The old image is unlinked exactly when a new file arrives and the product has an image, with no check for a default image. |
| Products.ImageToRemove | backend/controllers/productController.js:181 | An image is unlinked on delete exactly when it is non-empty and does not contain "default". |
| Products.DefaultImageUnlinkedOnlyOnUpdate | backend/controllers/productController.js:134-146 | A default image is unlinked when an update replaces it, but kept when the product is deleted. |
| Products.ProductStore.CreateProduct | backend/controllers/productController.js:90-120 | Stores the `NewProduct` record under the new id on success; nothing changes on a 400. |
| Products.ProductStore.UpdateProduct | backend/controllers/productController.js:125-167 | 404 for a missing product, changing nothing. Otherwise only that product becomes the `MergeProduct` record, and the image to unlink is `ImageReplaced`. |
| Products.ProductStore.DeleteProduct | backend/controllers/productController.js:172-192 | 404 for a missing product. Otherwise the product is removed in every case, and its image is unlinked exactly when it is non-empty and does not contain "default". |
| UploadFilter.FileFilter | backend/routes/productRoutes.js:22-31 | A file is accepted iff the MIME type as sent and the lower-cased extension both contain one of jpeg, jpg, png, webp. Any other file is refused with "Only image files are allowed!". |
| UploadFilter.SizeLimitBoundary | backend/routes/productRoutes.js:20 | 5242880 bytes is within the limit; one byte more is over it. |
| UploadFilter.MatchIsUnanchored | backend/routes/productRoutes.js:23-25 | A matching text still matches with anything added before or after it. |
| UploadFilter.UpperCaseExtensionAccepted | backend/routes/productRoutes.js:25 | An upper-case `.JPG` extension passes because it is lower-cased first. |
| UploadFilter.UpperCaseMimeTypeRefused | backend/routes/productRoutes.js:24 | An upper-case MIME type is refused because it is tested as sent. |
| UploadFilter.ExtensionRequired | backend/routes/productRoutes.js:25-30 | A file name without an extension is refused whatever its MIME type. |
| Checkout.CalculateTotal | frontend/src/components/checkout/CheckoutPage.js:64-70 | 0 for a missing cart, missing items or no lines. |
| Checkout.ItemsTotalAppend | frontend/src/components/checkout/CheckoutPage.js:66-69 | The page total is additive over concatenation. |
| Checkout.ItemsTotalSingle | frontend/src/components/checkout/CheckoutPage.js:66-69 | One line contributes its price (0 for a null product) times its quantity; with `ItemsTotalAppend` the page total is the sum over the lines. |
| Checkout.MissingProductAddsNothing | frontend/src/components/checkout/CheckoutPage.js:67 | A line whose product is null contributes nothing wherever it sits. |
| Checkout.MirroredTotal | frontend/src/components/checkout/CheckoutPage.js:64-70 | On a view of a stored cart whose products all exist, the page total equals the server's `CartEngine.Total`. |
| Checkout.ValidateShippingAddress | frontend/src/components/checkout/CheckoutPage.js:92-100 | One "This field is required" error for exactly the empty fields among the six, so there are no errors iff all six are filled. |
| Checkout.BuildOrderPayload | frontend/src/components/checkout/CheckoutPage.js:105-115 | There is no payload exactly when building it throws (no cart, no items, or a null product). Otherwise there is one item per line, copying product id, quantity, price, name and image; the address is as entered, and `totalPrice` is `CalculateTotal`. |
| Checkout.PayloadTotalConsistent | frontend/src/components/checkout/CheckoutPage.js:105-115 | The payload's total equals the sum of price × quantity over its own items. |
| Checkout.CheckoutFlow.constructor | frontend/src/components/checkout/CheckoutPage.js:28-41 | The flow starts at the shipping step with an empty address and no errors or order. |
| Checkout.CheckoutFlow.PlaceOrder | frontend/src/components/checkout/CheckoutPage.js:102-126 | The payload sent is `BuildOrderPayload`. The created order is kept only when one was built and the server answered; any failure is swallowed. |
| Checkout.CheckoutFlow.HandleNext | frontend/src/components/checkout/CheckoutPage.js:72-86 | On the shipping step, an incomplete address records exactly one "This field is required" error per empty field and stays, while a complete one advances. On the review step the order is placed and the flow advances whatever the outcome. The step stays in 0..2. |
| Checkout.CheckoutFlow.HandleBack | frontend/src/components/checkout/CheckoutPage.js:88-90 | Offered only after the first step, it moves back one step and changes nothing else. |
| AdminOrderList.GetStatusChip | frontend/src/components/admin/OrderList.js:80-88 | "Not Paid" iff unpaid, whatever the delivery flag. "Not Delivered" iff paid and undelivered. "Completed" iff paid and delivered. |
| AdminOrderList.ActionsFollowStatus | frontend/src/components/admin/OrderList.js:143-154 | Mark-delivered is offered iff the status is "Not Delivered", and delete iff it is "Not Paid"; no order offers both. |
| AdminOrderList.MarkedDelivered | frontend/src/components/admin/OrderList.js:57-61 | Same length; the orders with that id become delivered and every other order is unchanged. |
| AdminOrderList.MarkedDeliveredLaws | frontend/src/components/admin/OrderList.js:57-61 | Marking is idempotent, turns an offered order's status to "Completed", and changes nothing for an id not listed. |
| AdminOrderList.MarkedDeliveredKeepsRevenue | frontend/src/components/admin/OrderList.js:57-61 | Marking delivered never changes the dashboard revenue. |
| AdminOrderList.WithoutOrder | frontend/src/components/admin/OrderList.js:72 | No kept order has the id, every kept order was listed, and every order with another id is kept. |
| AdminOrderList.WithoutOrderLaws | frontend/src/components/admin/OrderList.js:72 | After a delete no order with that id is listed and all others remain. Deleting an absent id changes nothing, and deleting twice is deleting once. |
| AdminOrderList.DeletingUnpaidKeepsRevenue | frontend/src/components/admin/OrderList.js:72 | Deleting orders that are all unpaid, as the delete button allows, keeps the dashboard revenue. |
| AdminOrderList.OrderListView.HandleMarkDelivered | frontend/src/components/admin/OrderList.js:54-66 | After a successful request the list is `MarkedDelivered`; after a failed one it is unchanged. |
| AdminOrderList.OrderListView.HandleDeleteOrder | frontend/src/components/admin/OrderList.js:68-78 | Only when confirmed and the request succeeds does the list become `WithoutOrder`; otherwise it is unchanged. |
| ImageDropzone.NormalizePreview | frontend/src/components/admin/ImageDropzone.js:14-16 | The preview always starts with "http" or "/uploads/". Such a path is kept as is; any other is prefixed with "/uploads/". |
| ImageDropzone.NextPreview | frontend/src/components/admin/ImageDropzone.js:10-18 | A falsy existing image leaves the preview unchanged; otherwise the preview is the normalised path. |
| ImageDropzone.NormalizeIdempotent | frontend/src/components/admin/ImageDropzone.js:14-16 | Normalising twice is normalising once. |
| ImageDropzone.SavedImageShownAsIs | frontend/src/components/admin/ImageDropzone.js:14-15 | A path the server saved for an upload is previewed unchanged. |

## Left out

- **Database layer.** MongoDB and Mongoose (`findOne`, `populate`, `save`, `countDocuments`, the dashboard aggregations) are replaced by in-memory maps and sequences. Running the product query and sorting its results is not modelled: `BuildQuery` states what the built query selects.
- **Dashboard data that only comes from the database.** The user, product and order counts, the recent orders and the top products are not modelled. The per-day aggregation is an input to `FilledSalesData`.
- **HMAC-SHA256 and serialisation.** The digest and `JSON.stringify` of the webhook body are function parameters. The non-constant-time string comparison is not modelled.
- **Razorpay gateway.** The gateway call is a function parameter, and the environment lookups are left out.
- **Image processing and files.** Resizing with `sharp`, writing and unlinking files, and multer storage are left out. The path a handler would unlink is returned as a value, and an unlink failure changes nothing.
- **Clock.** `Date.now()` is an integer parameter. Calendar days are day numbers, so the `YYYY-MM-DD` formatting and time zones are left out.
- **Floating point.** Prices are integers; only the payment amount is a `real`.
- **Regex search.** The case-insensitive `$regex` is an abstract match parameter.
- **JavaScript coercion.** A string `quantity` concatenating on `+=` is left out; cart quantities are integers. A form field carries its `Number` value as given data.
- **Query-string price bounds.** These are already numeric; a non-numeric bound (NaN) is not modelled.
- **Schema casting on product save.** Casting is not modelled, because productModel.js is not part of this model. A NaN stock count is stored as NaN, and the database's own rejection of it is left out.
- **Stock field name.** The cart reads `product.stock` while products are created with `countInStock`. Stock is one abstract catalog field, and the mismatch is not resolved.
- **Concurrency.** Races between concurrent writes to one cart are left out; requests run one at a time.
- **ObjectId validity.** `mongoose.Types.ObjectId.isValid` also accepts any 12-character string. Only the 24-hex-digit form is modelled.
- **Line ids.** New line ids come from a counter in the store instead of fresh ObjectIds.
- **`catch` branches for database and image failures.** The 500 "Failed to create product" and "Failed to update product" replies and the 500 "Error fetching cart" are not modelled. The webhook's swallowed processing errors on save are also left out.
- **Order controller.** orderController.js is not part of this model. Order creation, delivery and deletion on the server are represented only by the outcome the client sees.
- **UI plumbing.** Rendering, toasts, navigation, loading flags, fetching the cart and orders, and the dropzone's local file preview are left out.
- CartEngine.CartStore.AddToCart: only `nextLineId >= old(nextLineId)` is promised for the id counter, rather than the exact increment.
- CartEngine.CartStore.MergeLine: the same weaker promise about the id counter.

## Findings

| source | as written | input that shows it | evidently intended | confidence | as-written member | corrected member |
|---|---|---|---|---|---|---|
| backend/controllers/cartController.js:78-91 | `find` compares each stored product (lower-case hex once cast) with the id exactly as sent, so an id sent with upper-case letters never matches its own line; a second line is pushed and the merged-stock check at line 84 is skipped | a cart holding 3 units of product `aaaaaaaaaaaaaaaaaaaaaaaa`, stock 5, then adding 3 under `AAAAAAAAAAAAAAAAAAAAAAAA` | the search compares canonical ids, so one line per product is kept and the merged quantity never exceeds the stock | high (not executed) | CartEngine.UpperCaseIdSplitsLine | CartEngine.AddedWithinStock |
