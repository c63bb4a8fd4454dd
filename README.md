# Fortex backend: cart, orders, payments and product images in Dafny

A model of the core of the Fortex store backend (an Express and Mongoose
service for custom clothing) together with proofs about it:

- **Cart engine** (`controllers/cartController.js`). Adding a line checks the
  product, size and colour. A line with the same product, size, colour, design
  and custom text is merged into the existing one. Otherwise the line is
  appended. Lines can be patched and removed. After every change the cart
  total is recomputed as the sum of price-at-addition times quantity.
- **Order snapshot** (`controllers/orderController.js`). Creating an order
  copies the cart lines with their prices frozen, takes the cart total as the
  amount, starts the order `Pending` and deletes the cart. The module also
  covers the owner-or-admin read rule and the two status setters.
- **Payment state machine** (`controllers/paymentController.js`). Three guards
  run in order: the order exists, the caller owns it, and it is not already
  `Paid`. Then the processor is called. The order becomes `Paid` or `Failed`
  and gets payment details of the matching shape.
- **Product images** (`controllers/productController.js`). On creation the
  first image is primary. Uploads append non-primary images. Deleting the
  primary image promotes the new first image. Setting a primary clears every
  flag and then sets one. Deleting a product tries the Cloudinary deletes in
  order.
- **Schemas** (`models/Cart.js`, `models/Product.js`). These are the
  validation a `save()` applies: the size enum, the minimum quantity of 1,
  required fields, and one cart per user.
- **Bank hash integration**, the commented-out block in `server.js`:
  - the string the request hash covers, and the two ways the block builds it,
    which agree only when the request body carries an order id
  - the hidden form posted to the bank
  - the rule that decides whether the bank's callback means success

The store is a `Db.Database` object with maps for carts, products and orders
and a counter for fresh ids. Its invariant `Valid()` holds three things:
every stored cart passes its schema and its total equals the sum over its
lines; every product passes its schema and has at most one primary image;
every order's amount equals the sum over its frozen lines. Each handler is a
module-level method that takes the `Db.Database` as a parameter and may modify
it. It keeps `Valid()` and states the whole new state and its response, error
paths included. The cart document a handler loads is a
`CartController.CartDocument` object whose methods change its lines in place.

The ids Mongo would generate come from the counter. The clock (`Date.now()`),
Cloudinary's delete, the payment processor, the bank's SHA-512/base64 digest
and `Math.random()` are parameters.

Four facts about the code are worth stating up front:

- `createOrder` deletes the cart when the order is created, before any payment.
- A `Failed` order may be paid again. Only `Paid` is refused.
- The bank hash is the values run together in a fixed order with no separator.
- The callback handler does not verify the bank's hash.

## Model

| member | source | states |
|---|---|---|
| Common.Lower | backend/controllers/cartController.js:46 | `toLowerCase`: same length, each capital becomes its own lower-case letter, so none is left, and every other character is kept |
| Common.FindIndex | backend/controllers/cartController.js:66-72 | `findIndex`: the first index whose element satisfies the callback; None exactly when no element does |
| Common.RemoveAt | backend/controllers/cartController.js:169 | `splice(i, 1)`: one element shorter, the prefix kept, the suffix shifted down one place, the multiset less exactly that element |
| Common.DecimalRoundTrip | backend/controllers/orderController.js:23 | the decimal rendering of the clock reading parses back to the same number |
| Common.DecimalInjective | backend/controllers/orderController.js:23 | different clock readings render differently |
| OrderController.OrderIdInjective | backend/controllers/orderController.js:23 | two orders created at different milliseconds get different `ORD-` ids |
| CartModel.Fold | backend/controllers/cartController.js:86 | the `reduce` from a given accumulator; over lines with non-negative prices and quantities of at least 1 the result is at least the accumulator |
| CartModel.Total | backend/controllers/cartController.js:86 | the cart total of the controllers; no lines give the schema default 0, and priced lines never give a negative total |
| CartModel.ItemValid | backend/models/Cart.js:3-35 | a cart line passes its schema: size in the enum, colour present, quantity at least 1 |
| CartModel.SchemaValid | backend/models/Cart.js:37-48 | a cart passes its schema when every line does |
| CartModel.SubtotalAddQuantity | backend/controllers/cartController.js:75 | adding quantity to a line adds that many units at the line's own price-at-addition |
| CartModel.FoldShift | backend/controllers/cartController.js:86 | the reduce with a starting accumulator is that accumulator plus the reduce from 0 |
| CartModel.TotalConcat | backend/controllers/cartController.js:86 | the cart total of two runs of lines is the sum of their totals |
| CartModel.TotalAppend | backend/controllers/cartController.js:77-86 | pushing a line adds exactly its price-at-addition times quantity to the total |
| CartModel.TotalSplit | backend/controllers/cartController.js:86 | the total is the lines before `i`, plus line `i`, plus the lines after it |
| CartModel.TotalReplace | backend/controllers/cartController.js:136-142 | replacing one line changes the total by the difference of the two subtotals |
| CartModel.TotalRemove | backend/controllers/cartController.js:169-172 | splicing out a line lowers the total by exactly its subtotal |
| CartController.SameLine | backend/controllers/cartController.js:66-71 | the merge key: same product, size, colour (exact), customText and design |
| CartController.NewLine | backend/controllers/cartController.js:51-61 | the new line passes the line schema exactly when the request's size, colour and quantity do; it has a design exactly when a file came; its subtotal is the product's current price times the quantity |
| CartController.ColorOffered | backend/controllers/cartController.js:46 | the colour is offered exactly when some offered colour is equal to it after lower-casing both |
| CartController.CheckRequest | backend/controllers/cartController.js:31-49 | the guards in order (404 no product, 400 size not offered, 400 colour not offered), and the request passes exactly when all three hold |
| CartController.MergeOrAppend | backend/controllers/cartController.js:66-78 | never shorter than the old lines; its contents are stated by MergeOrAppendLines |
| CartController.MergeOrAppendLines | backend/controllers/cartController.js:63-78 | the first line with the same merge key gets the extra quantity and every other line is unchanged; with no such line the new line is appended; the length stays the same exactly when a match exists |
| CartController.MergeOrAppendTotal | backend/controllers/cartController.js:63-86 | a merge raises the total by the old line's price-at-addition times the added quantity (not the current price); an append raises it by the new line's subtotal |
| CartController.MergeKeepsSchema | backend/controllers/cartController.js:63-88 | merging or appending a valid line into valid lines leaves only valid lines, so the save never rejects a valid request |
| CartController.CaseVariantColorsNotMerged | backend/controllers/cartController.js:46-72 | "Red" and "red" both pass the case-insensitive colour check but are kept as two separate lines by the case-sensitive merge key |
| CartController.Patch | backend/controllers/cartController.js:121-139 | an uploaded file sets the design; a non-zero quantity, a non-empty size or colour and a sent customText are written, each field on its own; otherwise each keeps its old value; the id, product and price-at-addition never change |
| CartController.PatchIgnoresFalsy | backend/controllers/cartController.js:136-139 | a quantity of 0, an empty size or colour, and no customText leave the line as it was |
| CartController.PatchIdempotent | backend/controllers/cartController.js:121-139 | sending the same update twice gives the same line as sending it once |
| CartController.CartDocument.Load | backend/controllers/cartController.js:108 | the loaded document holds the stored cart |
| CartController.CartDocument.Create | backend/models/Cart.js:37-48 | a new cart document has the given user and lines and the default total 0 |
| CartController.CartDocument.AddLine | backend/controllers/cartController.js:63-78 | the lines become MergeOrAppend of the old lines; the user and total are untouched |
| CartController.CartDocument.PatchLine | backend/controllers/cartController.js:121-139 | line `i` becomes its Patch and every other line is unchanged |
| CartController.CartDocument.RemoveLine | backend/controllers/cartController.js:169 | the lines become RemoveAt of the old lines |
| CartController.CartDocument.RecomputeTotal | backend/controllers/cartController.js:86 | afterwards the total equals the sum over the lines; the lines are untouched |
| CartController.GetCart | backend/controllers/cartController.js:9-23 | returns the stored cart, or creates and stores an empty one with total 0 |
| CartController.AddToCart | backend/controllers/cartController.js:29-90 | a failed guard changes nothing; otherwise the merged or appended lines with the recomputed total are stored when the schema accepts them, and nothing changes when it rejects them |
| CartController.UpdateCartItem | backend/controllers/cartController.js:99-151 | 400 on an upload error; 404 for no cart or no such line; otherwise the patched cart is stored, or 500 with nothing stored when the schema rejects it |
| CartController.RemoveFromCart | backend/controllers/cartController.js:157-180 | 404 for no cart or no such line; otherwise the first line with that id is removed and the stored total drops by exactly its subtotal |
| Db.Database.SaveCart | backend/models/Cart.js:3-48 | a cart passing the schema (size enum, colour present, quantity at least 1) is stored under its user, one per user; any other cart is refused with nothing stored |
| ProductModel.SchemaValid | backend/models/Product.js:4-26 | a product passes its schema: name, price and style present, every size in the enum |
| OrderController.OrderIdFor | backend/controllers/orderController.js:23 | the order id is `ORD-` followed by at least one decimal digit and nothing else |
| OrderController.Freeze | backend/controllers/orderController.js:24-32 | a frozen line keeps the product and quantity, and its price times quantity is the cart line's subtotal |
| OrderController.NewOrder | backend/controllers/orderController.js:21-36 | the new order is the user's, its lines are the frozen Snapshot of the cart lines, its amount is the cart total and its shipping details are the ones sent; it is Pending with no payment details or order status, and for a cart with a current total its amount is the sum over its own lines |
| Db.Database.SaveProduct | backend/models/Product.js:4-26 | a product with a name, a price, a style and only enum sizes is stored; any other product is refused with nothing stored |
| OrderController.Snapshot | backend/controllers/orderController.js:24-32 | one order line per cart line, in order, with the same choices and quantity and priceAtPurchase equal to priceAtAddition |
| OrderController.SnapshotTotal | backend/controllers/orderController.js:24-35 | the sum over the frozen order lines equals the cart total |
| OrderController.CreateOrder | backend/controllers/orderController.js:10-53 | no cart or an empty cart gives 400 and changes nothing; a deleted product throws; otherwise the order (`ORD-` id, frozen lines, amount equal to its lines' sum, Pending, no payment details) is stored under a fresh key and the cart is deleted |
| OrderController.GetOrderById | backend/controllers/orderController.js:58-72 | 404 for no such order; the order is returned exactly when the caller owns it or is an admin, and 401 otherwise |
| OrderController.UpdateOrderToPaid | backend/controllers/orderController.js:85-96 | the order's status becomes Paid whatever it was, every other field unchanged; 404 otherwise |
| OrderController.UpdateOrderStatus | backend/controllers/orderController.js:101-114 | the order's orderStatus becomes the value sent, and a body without `status` clears it; every other field unchanged; 404 otherwise |
| PaymentController.ProcessorRequestFor | backend/controllers/paymentController.js:29-32 | the processor gets every key the client sent plus `amount`; a client-sent `amount` overrides the order's total |
| PaymentController.CheckPayable | backend/controllers/paymentController.js:13-26 | guards in order: 404 no order, 401 not the owner, 400 already Paid; payment proceeds exactly when the caller owns an order that is not Paid |
| PaymentController.ApplyResult | backend/controllers/paymentController.js:34-56 | success gives Paid with the transaction id and time; failure gives Failed with the error and time; no other field changes |
| PaymentController.ApplyResultNeverPending | backend/controllers/paymentController.js:34-56 | after any processor answer the order is no longer Pending |
| PaymentController.FailureMessage | backend/controllers/paymentController.js:56 | a decline answers with the processor's error when it gave one, and never with an empty message |
| PaymentController.ProcessPaymentRequest | backend/controllers/paymentController.js:8-58 | a failed guard neither calls the processor nor changes anything; otherwise the processor is sent the request object, the order is updated with its answer, and a decline answers 400 with its error or "Payment failed" |
| ProductController.Or | backend/controllers/productController.js:76-81 | `a \|\| b` on strings: a present value is kept, an empty one falls back, and the result is empty only when both are |
| ProductController.ImagesFrom | backend/controllers/productController.js:35-39 | one image per uploaded file with its URL and public id; an image is primary exactly when it is the first one and the first one is meant to be primary |
| ProductController.CreatedImages | backend/controllers/productController.js:35-39 | with no files a new product has no images; with files exactly the first is primary |
| ProductController.AppendNonPrimary | backend/controllers/productController.js:65-74 | appending non-primary images keeps at most one primary |
| ProductController.AfterDelete | backend/controllers/productController.js:113-123 | the other images stay in order; deleting the primary promotes the new first image; at most one primary is kept, and the promoted image is then the only one |
| ProductController.ClearPrimaryFlags | backend/controllers/productController.js:146-148 | every image is kept with its primary flag cleared |
| ProductController.DeleteFromCloud | backend/controllers/productController.js:171-179 | the public ids are tried in order; every attempt before the last succeeded; the loop stops early only at a failure; when all deletes succeed every image is tried |
| ProductController.CreateProduct | backend/controllers/productController.js:31-53 | the product (style defaulting to "Regular", first image primary) is stored under a fresh key when its schema passes and nothing is stored otherwise |
| ProductController.UpdateProduct | backend/controllers/productController.js:58-89 | uploads are appended as non-primary images; each field falls back to its old value when the new one is falsy; 404 for no such product |
| ProductController.DeleteProductImage | backend/controllers/productController.js:94-132 | 404 for no product or no image; a failed cloud delete gives 500 with nothing changed; otherwise the stored images become AfterDelete |
| ProductController.SetPrimaryImage | backend/controllers/productController.js:137-161 | 404 for an unknown image, with the stored flags untouched; otherwise the chosen image is the only primary and nothing else about the product changes |
| ProductController.DeleteProduct | backend/controllers/productController.js:166-187 | the product is removed even when a cloud delete fails; its images' public ids are tried in order, every attempt before the last succeeded, the loop stops early only at a failure, and every image is tried when all deletes succeed; 404 for no such product |
| BankHash.HashInput | backend/server.js:106-114 | the `+` chain with an absent order id spelled "undefined"; it starts with the client id and ends with the store key |
| BankHash.Join | backend/server.js:223-233 | `join('')`; undefined and null elements render as "", so a list of only those joins to "" |
| BankHash.JoinHashFields | backend/server.js:223-233 | joining the nine listed values gives their join texts in the `+` chain's order, client id first and store key last, with nothing between them |
| BankHash.BuildForm | backend/server.js:119-146 | the form posts the order id as the template renders it, the amount and the nonce, and its hash is the digest of HashInput |
| BankHash.BuildFormAlt | backend/server.js:243-266 | the form /create-payment-alt posts: the order id as the template renders it, the amount and the nonce, and its hash is the digest of the joined list |
| BankHash.JoinMatchesConcat | backend/server.js:223-233 | the alternative endpoint's `join('')` gives the main endpoint's `+` chain with the order id as `join` renders it, so the two agree whenever the body carries the order id as a string |
| BankHash.FormsAgree | backend/server.js:223-238 | the two endpoints post the same fields apart from the hash, and identical forms when the body carries an order id |
| BankHash.AltHashSkipsMissingOrderId | backend/server.js:223-250 | without an order id the alternative endpoint posts `oid` "undefined" or "null" but hashes a string without it, shorter than the string a receiver rebuilds from the posted fields |
| BankHash.HashInputShape | backend/server.js:106-114 | an empty instalment count adds nothing to the hashed string |
| BankHash.FieldBoundariesNotEncoded | backend/server.js:106-114 | order "ORD-1" with amount "12.00" and order "ORD-11" with amount "2.00" hash the same string |
| BankHash.FormHashRecomputes | backend/server.js:119-146 | whatever the body held, the posted values plus the store key recompute the form's hash |
| BankHash.UnsignedFields | backend/server.js:133-146 | currency, language, store type and encoding are posted but do not affect the hash |
| BankHash.HandleCallback | backend/server.js:162-194 | success exactly when Response is "Approved" and ProcReturnCode is "00"; a failure reports ErrMsg, or "Unknown error" when it is missing or empty |
| BankHash.CallbackIgnoresHash | backend/server.js:166-173 | the outcome is the same whatever hash the callback carries, or with none |

## Left out

- Routing, the `protect`/admin middleware and the JSON responses are not modelled. The caller's id and admin flag are parameters.
- Mongo I/O is modelled as map reads and writes on one object. `populate` is modelled only by its null result for a deleted product in `createOrder`.
- `getProducts`, `getProductById`, `getMyOrders` and `getOrders` are not modelled. Each is a single query with no logic of its own.
- `createOrder` also pushes the order onto `User.orderHistory` and sends a confirmation email. Both are left out because the user model and the mailer are not part of this model. The email runs after the order is saved, so an email failure would answer an error while the order and the deleted cart persist.
- `updateCartItem` deletes the old design file from disk (`fs.unlinkSync`). File-system effects are left out.
- The multer upload and Cloudinary are outcomes given as parameters: the stored file name, an upload error, and a delete that succeeds or fails.
- Prices and totals are integers (say, cents). JavaScript floating point and its rounding are not modelled.
- `Number(quantity)` is taken as an integer. NaN and fractional quantities are not modelled.
- The `JSON.parse` of `availableSizes` and `availableColors` in `createProduct` is not modelled. The arrays arrive parsed, and a parse error, which the framework answers as a 500, is left out.
- Common.Lower: lower-cases ASCII letters only. JavaScript's full Unicode `toLowerCase` is not modelled.
- `models/Product.js` declares `image` and `cloudinaryId`, not an `images` array. The controllers use `images` throughout. The model gives products the `images` list the controllers use, and does not model Mongoose strict mode dropping that field.
- A required array counts as always present. A required string counts as present when it is non-empty.
- Validation errors are modelled as a server error (500). The error middleware that picks the real status is not part of this model.
- `models/Order.js` is not part of this model. The order's `orderStatus` starts absent.
- The `updatedAt`/`createdAt` clock defaults are left out.
- Image ids and cart line ids are plain numbers. Comparing `_id.toString()` against the request string is id equality.
- A `customText` explicitly sent as empty or null counts as sent. `undefined` counts as not sent.
- CartController.Patch: request fields are taken as typed JSON values. The cart PUT route runs multer (routes/cartRoutes.js:18), so a form posts `quantity` as a string, and the string "0" is truthy at cartController.js:136 and is written; the model treats a quantity of 0 as falsy and keeps the old value.
- CartController.PatchIgnoresFalsy: states the typed-JSON reading above. With a multipart body a quantity of "0" is written, not ignored.
- ProductController.UpdateProduct: request fields are taken as typed JSON values. The product PUT route runs multer (routes/productRoutes.js:26), so `price` arrives as a string and "0" is truthy at productController.js:78 and is written; the model's price of 0 falls back to the old price. Multipart `availableSizes` and `availableColors` would also arrive as strings, not arrays.
- CartController.CheckRequest: assumes `color` is present. A body without `color` throws a TypeError at cartController.js:46, which the framework answers with a 500; the model has no absent colour.
- The product routes register `upload.single('image')`, which sets `req.file`, while the controllers read `req.files`. The model takes the list of uploaded files as the controllers read it.
- server.js:
  - The test store's merchant constants (client id, store key, URLs, currency and so on) are the `Settings` parameter, not fixed values.
  - Only the order id is modelled as possibly absent or null in the request body. `amount` is taken as the formatted string.
  - SHA-512 and base64 are one digest parameter.
  - `parseFloat(amount).toFixed(2)` is taken as the already formatted amount string.
  - The HTML pages, logging and the `/test-payment` page are not modelled.
- PaymentController.ProcessPaymentRequest: the processor always answers. A `processPayment` promise that rejects (paymentController.js:29) throws before any write, so the order is left as it was, Pending or Failed; the model has no such outcome.
- Concurrency between requests is not modelled. Each handler runs alone.
