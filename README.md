# Ollan Pharmacy backend: order lifecycle model

A Dafny model of the order-handling core of the Ollan Pharmacy Express/Mongoose
backend. The model covers these parts:

- **Store.** The MongoDB collections are one in-memory store, the class
  `Store.Database`. Its fields are:
  - `products`: a map from product id to name, price and stock;
  - `carts`: a map from user id to the cart's item list;
  - `orders`: a map from order id to the order record;
  - `users`: a sequence, so that `findOne` is "first match in collection order".
- **Controller operations.** Each one is a method that `modifies` the store. It
  returns either the record it sends back or a `Failure(code, message)` mirroring
  `res.status(code).json({ message })`.
- **Order lifecycle (`OrderController`).**
  - `createOrder` validates the request and prices the cart into a snapshot of
    lines and a subtotal, with a loop like the source's `total +=`.
  - It then walks the cart decrementing stock, a loop proved against the
    recursive specification `StockLedger.Reserve`.
  - Only after the walk does it check the client's delivery fee against the fixed
    rule. The last step saves a pending order and deletes the cart. A save that
    the schema refuses (a missing address, say, or a delivery option outside its
    enum) answers 500 with the decrements kept and the cart in place.
  - `verifyPayment` makes an order processing. `updateOrderStatus` accepts or
    rejects it from any status, and a rejection puts every line back into stock.
    `assignOrder` records a rider. `updateDeliveryStatus` is the rider's
    en_route/delivered machine.
  - Each decision about one stored order is also a pure function (`Payment`,
    `Decision`, `Assignment`, `DeliveryUpdate`). `Run` replays any sequence of
    them, which lets lemmas prove that delivered is final and that no order is
    created or lost.
- **Carts (`CartController`).** Merge-or-append on add and filter on remove, both
  in place. Adding is proved to grow the product's total quantity by exactly the
  amount added, and every operation keeps "one line per product".
- **Accounts (`AuthController`, `UserController`).** A user record with a
  verification code, a reset token and their expiries. The code is single-use and
  has a ten-minute window, and the reset token is single-use too. Sign-in refuses
  a wrong password before it looks at the verification flag. Role changes only
  offer customer and admin. Profile edits fall back to the old values.
- **Validators and message builders.**
  - The email address check, proved equal to the regular expression it
    implements.
  - Nigerian phone normalisation, proved idempotent.
  - The order-status message table shared by the email and WhatsApp services,
    together with the email subject. A failed send yields null.
  - Bearer-token extraction and the admin gate.
  - The two upload file filters: every file the exact-type filter of `multer.js`
    accepts, the filter of `upload.js` accepts too, and `upload.js` accepts
    strictly more.
  - Node's POSIX `path.extname`, used to prove that a stored upload keeps its
    client-side extension.

Several inputs stand in for the outside world:

- the Paystack answer (`Paystack`) and the presence of its secret key;
- the mail and WhatsApp transport outcomes (`Option<string>` errors);
- the JWT verifier (a function from token to user id);
- Joi's email rule (the error it reports, if any);
- the generated codes, tokens, ids and payment reference;
- the clock (`now`).

Prices, quantities and fees are integers.

Where the code and its documented intent differ, the model follows the code:

- **Deleted product in `createOrder`.** If a cart line's product has been
  deleted, the populated line has no product, so the subtotal step
  (`src/controllers/orderController.js:49-50`) throws and the call answers 500.
  This happens before any stock is touched. The `!product` branch of the stock
  loop therefore never runs after a successful pricing step.
- **Order status enum.** `src/models/Order.js:49-53` does not list `accepted` or
  `rejected`, although `updateOrderStatus` writes them. The schema also has no
  `rider`, `riderName` or `deliveryStatus` fields, although `assignOrder` and
  `updateDeliveryStatus` write them. The model keeps the controller's behaviour
  and gives the schema its own validity predicate, `OrderSchema.SchemaValid`.
  The lemma `OrderSchema.DecisionStatusesOutsideEnum` states the enum mismatch.

## Model

| member | source | states |
|---|---|---|
| OrderController.ExpectedFee | src/controllers/orderController.js:67-73 | The expected fee is 0 for a subtotal of 0 or less. Otherwise it is 1500 for express, 500 for timeframe under 5000, and 0 for any other case, including any other option |
| OrderController.ExpectedFeeOrdering | src/controllers/orderController.js:67-73 | The fee is never negative, never more than the express fee, and never more than 1500. From a subtotal of 5000 up, only express pays |
| OrderController.Snapshot | src/controllers/orderController.js:49-56 | There is one order line per cart line, with the same product and quantity and the product's current price |
| OrderController.SubtotalAppend | src/controllers/orderController.js:48-50 | Appending a line grows the subtotal by price times quantity, which is the `total +=` step |
| OrderController.SnapshotQty | src/controllers/orderController.js:49-56 | The snapshot holds, per product, exactly the quantity the cart holds |
| OrderController.PriceCart | src/controllers/orderController.js:48-56 | The pricing loop yields the price snapshot of the cart and its subtotal. `Snapshot` and `Subtotal` (the sum of price times quantity over the lines) are the reference definitions it is proved against |
| OrderController.ReserveStock | src/controllers/orderController.js:58-65 | The stock loop leaves the products exactly as the walk `Reserve` does. It reports the name of the first short product, or nothing when every line was served |
| StockLedger.Reserve | src/controllers/orderController.js:58-65 | The specification of the stock loop: check and decrement the lines in order, stopping at the first line whose product is missing or short, keeping earlier decrements. Its meaning is stated by `ReservedStock`, `ReserveSucceedsIff`, `ShortKeepsEarlierDecrements` and `ReserveKeepsCatalog` |
| StockLedger.ShortName | src/controllers/orderController.js:61 | `product?.name || 'item'`: the product's own name when the product exists and its name is non-empty, and "item" otherwise |
| StockLedger.ReserveKeepsCatalog | src/controllers/orderController.js:58-65 | The stock walk keeps every product, its name and its price |
| StockLedger.ReservedStock | src/controllers/orderController.js:58-65 | A walk that serves every line reduces each product's stock by exactly the cart's total quantity of it |
| StockLedger.ReserveSucceedsIff | src/controllers/orderController.js:58-62 | With non-negative quantities, the walk serves every line iff every product exists and holds at least the cart's total quantity of it |
| StockLedger.ShortKeepsEarlierDecrements | src/controllers/orderController.js:58-65 | A walk that stops at line k has applied exactly the decrements of lines 0..k-1. Those decrements are not undone, and line k could not be served |
| StockLedger.ReserveKeepsStockNonNegative | src/controllers/orderController.js:60-63 | The walk never drives a stock below zero, however it ends |
| OrderController.CreateOrder | src/controllers/orderController.js:24-101 | The refusals come in source order, each with the code and message from the source: missing fields (400), an empty or absent cart (400), a deleted product (500), a short line (400, earlier decrements kept), a fee other than the rule's (400, all decrements kept), and an order the schema refuses at `order.save()` (500, all decrements kept). Every refusal creates no order and keeps the cart. Success stores a pending, schema-valid order holding the price snapshot, the fee and the total subtotal+fee, with no rider. It deletes the cart and reduces each stock by the cart's quantity. Non-negative stock is preserved |
| OrderController.FieldsPresent | src/controllers/orderController.js:29-41 | The presence test of createOrder: a caller, name, email, phone, delivery option, pickup location and estimated delivery all non-empty, and a delivery fee that is not `undefined`. `CreateOrder`'s first ensures is stated through it |
| OrderController.PlacedOrder | src/controllers/orderController.js:79-90 | The record createOrder builds: the snapshot lines, the fee, total = subtotal + fee, status pending and the payment reference. `CreateOrder` and `CreatedOrderSchemaValid` state its properties |
| OrderController.CreatedOrderSchemaValid | src/models/Order.js:3-53 | An order created from a well-formed cart meets the schema iff address, city and state are present and the delivery option and pickup location are in their enums. Its pending status is the schema default |
| OrderSchema.SchemaValid | src/models/Order.js:3-53 | The schema's validity predicate: a user, every line with a product and a quantity of at least 1, all nine customer fields present with delivery option and pickup location in their enums, and a status in the four-value enum. `CreatedOrderSchemaValid` and `DecisionStatusesOutsideEnum` state what it means for the orders the controller writes |
| OrderSchema.DecisionStatusesOutsideEnum | src/models/Order.js:49-53 | `accepted` and `rejected`, which updateOrderStatus writes, are outside the schema's status enum. The default `pending` and `processing` are inside it |
| OrderController.Payment | src/controllers/orderController.js:116-158 | Payment succeeds iff reference and orderId are present, the secret key is set, Paystack reports success and the order exists. The refusals come in order: 400 for missing fields, 500 for the configuration, 500 when Paystack is unreachable, 400 for a failed verification, 400 for an unknown order. On success, status becomes processing and the reference is stored, whatever the prior status |
| OrderController.VerifyPayment | src/controllers/orderController.js:116-160 | Stores exactly the `Payment` outcome and nothing else. On success it sends the processing notice, and it sends nothing on failure |
| OrderController.Decision | src/controllers/orderController.js:212-226 | Succeeds iff the action is accept or reject, the order exists and the caller is an admin, checked in that order (400, 404, 403). Success sets accepted or rejected from any prior status |
| OrderController.UpdateOrderStatus | src/controllers/orderController.js:207-249 | Stores the `Decision` outcome. A successful reject restocks the order's lines, and anything else leaves stock unchanged. The notice carries the new status, plus the customer-service note on a reject |
| OrderController.RestockLines | src/controllers/orderController.js:231-237 | The restock loop leaves the products exactly as `Restock` of the order's lines |
| StockLedger.Restock | src/controllers/orderController.js:231-237 | The specification of the restock loop: add each line's quantity to its product if the product still exists. Its meaning is stated by `RestockStock` |
| StockLedger.RestockStock | src/controllers/orderController.js:229-237 | Restocking adds to each existing product exactly its quantity in the lines. It changes nothing else, and products that are gone are skipped |
| StockLedger.RestockTwiceAddsTwice | src/controllers/orderController.js:225-237 | Rejecting twice restocks twice, because there is no status guard |
| StockLedger.RestockKeepsStockNonNegative | src/controllers/orderController.js:231-237 | Restocking lines of non-negative quantity keeps every stock non-negative |
| OrderController.CreateThenRejectRestores | src/controllers/orderController.js:231-237 | Rejecting the order that createOrder built from a cart puts every product's stock back to what it was before creation |
| OrderController.Assignment | src/controllers/orderController.js:305-321 | Succeeds iff the order exists, the caller is an admin, and the rider id is either absent or names a user with role rider (404, 403, 400 otherwise). Success records that rider's id and name. An absent rider id leaves the order unchanged |
| OrderController.AssignOrder | src/controllers/orderController.js:301-330 | Stores exactly the `Assignment` outcome. Stock, carts and users are unchanged |
| OrderController.ParseDeliveryStatus | src/controllers/orderController.js:255-257 | Only `en_route` and `delivered` are accepted, and each maps to the value that carries its name |
| OrderController.ParseDeliveryStatusName | src/controllers/orderController.js:255-257 | Each delivery value is read back from its own name |
| OrderController.DeliveryUpdate | src/controllers/orderController.js:255-272 | Succeeds iff the value is valid, the order exists, the caller is its rider, and the order is not yet delivered. The refusals come in order: 400 invalid, 404, 500 when there is no rider (`toString` of undefined), 403 for another rider before the delivered check, 400 already delivered. Success sets the value whatever the status |
| OrderController.UpdateDeliveryStatus | src/controllers/orderController.js:250-284 | Stores exactly the `DeliveryUpdate` outcome. On success it sends a notice carrying the delivery value |
| OrderController.PendingCanBeDelivered | src/controllers/orderController.js:268-272 | The assigned rider can mark a pending, unpaid order delivered in one step, and it stays pending |
| OrderController.Apply | src/controllers/orderController.js:145-149 | One lifecycle request replaces at most its own order, keeps every other order, and keeps the set of order ids |
| OrderController.Run | src/controllers/orderController.js:116-330 | Replays a sequence of lifecycle requests through `Apply`. `DeliveredIsFinal` and `RunKeepsOrders` state what it keeps |
| OrderController.DeliveredIsFinal | src/controllers/orderController.js:268-270 | After any sequence of payments, decisions, assignments and delivery updates, a delivered order still exists and is still delivered |
| OrderController.RunKeepsOrders | src/controllers/orderController.js:116-330 | No sequence of payments, decisions, assignments and delivery updates creates or removes an order |
| OrderController.ShortOrderId | src/controllers/orderController.js:15 | `slice(-6)`: the last min(length, 6) characters of the id |
| OrderController.SendNotice | src/controllers/orderController.js:11-22 | A mail goes out iff the address is well formed and the transport delivers. It goes to the order's customer, with the order subject and the status text, and a failed send never fails the operation |
| OrderController.SentNoticeNamesOrder | src/controllers/orderController.js:13-17 | Every status mail names the order as `#` followed by the last six characters of its id |
| StatusMessages.StatusMessage | src/config/emailService.js:48-55 | The five statuses get their fixed texts, and every other status gets the generic "status updated to" text |
| StatusMessages.HashThenId | src/config/emailService.js:48-55 | A text piece ending in `#` followed by the id contains `#<id>` |
| StatusMessages.FixedTextsNameOrder | src/config/emailService.js:49-53 | Each of the five fixed texts contains `#<id>` |
| StatusMessages.StatusMessageNamesOrder | src/config/emailService.js:48-55 | Every status message, fixed or generic, contains `#<id>` |
| EmailService.ValidEmailIffRegex | src/config/emailService.js:20 | The regular expression `^[^\s@]+@[^\s@]+\.[^\s@]+$` accepts exactly the strings with no whitespace, exactly one `@` with something before it, and a `.` after it with a character on each side |
| EmailService.ValidEmail | src/config/emailService.js:20 | The accepted shape written out: no whitespace, exactly one `@` with something before it, and a `.` after it with a character on each side. `ValidEmailIffRegex` proves it equal to the regular expression |
| EmailService.FormatEmail | src/config/emailService.js:19-25 | Accepts iff the address matches the regular expression. An accepted address is returned unchanged, because the trim has nothing to remove, and anything else is the "Invalid email address" error |
| EmailService.Trim | src/config/emailService.js:24 | `trim`: neither end of the result is whitespace, and a string without whitespace is returned as it is |
| EmailService.TrimStartRemovesWhitespace | src/config/emailService.js:24 | The leading part `trim` removes is all whitespace |
| EmailService.TrimEndRemovesWhitespace | src/config/emailService.js:24 | The trailing part `trim` removes is all whitespace |
| EmailService.SendTextEmail | src/config/emailService.js:27-44 | Sends iff the address is valid and the transport delivers. The mail has the address, subject, text and `<p>`-wrapped HTML. An invalid address or a transport error is raised as that error |
| EmailService.Subject | src/config/emailService.js:56 | The subject `Ollan Pharmacy: Order #<id> Update` contains `#<id>` |
| EmailService.SendOrderStatusUpdate | src/config/emailService.js:46-62 | Returns a mail iff sending succeeds, and null otherwise, including for an invalid address. The subject is "Ollan Pharmacy: Order #id Update" and the text is the status message |
| WhatsApp.Digits | src/config/whatsappService.js:16 | The result holds only the digits 0-9 and is no longer than the input. With `DigitsOfChar` and `DigitsAppend` it is fixed on every string |
| WhatsApp.DigitsOfChar | src/config/whatsappService.js:16 | `replace(/\D/g, '')` on one character: a digit is kept and anything else is removed |
| WhatsApp.DigitsOfDigits | src/config/whatsappService.js:16 | Removing non-digits from a digit string changes nothing |
| WhatsApp.DigitsAppend | src/config/whatsappService.js:16 | Removing non-digits distributes over concatenation |
| WhatsApp.FormatPhoneNumber | src/config/whatsappService.js:14-26 | The result is all digits and starts with 234. A leading 0 is replaced by 234, a number without 234 gets it prepended, and a number that starts with 234 is kept |
| WhatsApp.FormatPhoneNumberIdempotent | src/config/whatsappService.js:19-25 | Formatting twice is formatting once |
| WhatsApp.SendTextMessage | src/config/whatsappService.js:71-102 | Sends iff the API call succeeds, to the formatted number with the given body. A failure is raised |
| WhatsApp.SendOrderStatusUpdate | src/config/whatsappService.js:105-129 | Returns a message iff the API call succeeds, and null otherwise. The message goes to the formatted number, and its body is the status message |
| AuthMiddleware.UpToSpace | src/middleware/auth.js:11 | `split(" ")[1]`: the longest space-free prefix of the rest of the header |
| AuthMiddleware.ExtractToken | src/middleware/auth.js:10-16 | A header starting with "Bearer " yields the text between the first and second spaces. Otherwise the query token is used |
| AuthMiddleware.HeaderTakesPrecedence | src/middleware/auth.js:10-16 | When the header starts with "Bearer ", the query token plays no part |
| AuthMiddleware.EmptyBearerHasNoToken | src/middleware/auth.js:10-20 | "Bearer " followed by nothing or by a second space yields an empty token, even when a query token is given |
| AuthMiddleware.Authenticate | src/middleware/auth.js:6-34 | There are three 401 cases: no token, a token that does not verify, and a verified id naming no user. The request passes iff the token is non-empty, verifies, and names an existing user, and it then yields the user whose id the token carries |
| AuthMiddleware.AdminGate | src/middleware/auth.js:36-40 | Only the role admin passes, and everything else is 403 "Admin access required" |
| AuthMiddleware.AuthenticateAdmin | src/middleware/auth.js:6-40 | An admin route lets a request through iff it authenticates and the user is an admin |
| UploadFilter.ToLower | src/middleware/upload.js:30-31 | `toLowerCase` on A-Z, keeping the length and every other character |
| UploadFilter.ToLowerIdempotent | src/middleware/upload.js:30-31 | Lower-casing twice is lower-casing once |
| UploadFilter.ToLowerNoCapitals | src/middleware/upload.js:30-31 | A string with no capitals is its own lower case |
| UploadFilter.FileFilter | src/middleware/upload.js:26-40 | Accepts iff the lower-cased MIME type is image/jpeg, image/png or image/jpg, or the lower-cased extension is .jpg, .jpeg or .png. Any other file is refused with the fixed message |
| UploadFilter.FileFilterIgnoresCase | src/middleware/upload.js:30-34 | The MIME type's letter case does not affect the decision |
| UploadFilter.AcceptedByNameStoredWithExtension | src/middleware/upload.js:17-34 | A file accepted for its extension is stored under a name with that same accepted extension |
| FileNames.StripTrailingSlashes | src/middleware/upload.js:19 | Removes exactly the trailing `/` characters, as the first step of `path.extname`: the result is a prefix that does not end in `/`, and everything cut off is `/` |
| FileNames.BaseName | src/middleware/upload.js:19 | The last path component: the longest `/`-free suffix |
| FileNames.LastDot | src/middleware/upload.js:19 | The index of the last `.`, with no `.` after it, or none when there is no `.` |
| FileNames.ExtName | src/middleware/upload.js:19 | `path.extname` is empty or starts with its only `.`, and it holds no `/` |
| FileNames.NatString | src/middleware/upload.js:18 | The decimal rendering of a number in a template literal is non-empty and all digits |
| FileNames.StoredFilename | src/middleware/upload.js:17-20 | The storage callback's name `<time>-<random><ext>`. `StoredFilenameKeepsExtension` states that it keeps the client's extension |
| FileNames.ExtNameOfSlashFree | src/middleware/upload.js:19 | For a name without `/`, `path.extname` is decided by the last `.` alone |
| FileNames.ExtNameAfterPlainName | src/middleware/upload.js:17-20 | A plain name (no `/` or `.`) followed by an extension has exactly that extension |
| FileNames.StoredFilenameKeepsExtension | src/middleware/upload.js:17-23 | The stored name `<time>-<random><ext>` has exactly the extension of the client's file name. multer.js:16-21 uses the same storage callback |
| MulterFilter.FileFilter | src/middleware/multer.js:24-31 | Accepts iff the MIME type is exactly image/jpeg or image/png, and refuses anything else with the fixed message |
| MulterFilter.FileFilterIgnoresName | src/middleware/multer.js:24-31 | The file name plays no part in the decision |
| MulterFilter.AcceptedByUploadFilter | src/middleware/multer.js:24-31 | Every file this filter accepts, the upload.js filter accepts too |
| MulterFilter.JpgTypeOnlyUploadFilter | src/middleware/multer.js:25-26 | image/jpg is accepted by the upload.js filter and refused here |
| MulterFilter.CapitalTypeOnlyUploadFilter | src/middleware/multer.js:25-26 | The comparison is case-sensitive: a capitalised spelling of a valid type, such as IMAGE/PNG, passes the upload.js filter and is refused here |
| MulterFilter.CapitalTypeRefused | src/middleware/multer.js:25-26 | A MIME type with a capital letter is refused |
| MulterFilter.LowerValidTypeAccepted | src/middleware/upload.js:30-34 | A MIME type whose lower case is image/jpeg or image/png passes the upload.js filter |
| MulterFilter.PngNameOnlyUploadFilter | src/middleware/multer.js:24-31 | A file named `<stem>.png` with a wrong MIME type passes the upload.js filter and is refused here |
| CartController.FindIndex | src/controllers/cartController.js:38 | `findIndex` returns -1 iff no line has the product, and otherwise the first line that has it |
| CartController.Without | src/controllers/cartController.js:64 | The filter keeps only lines of other products, and each kept line comes from the cart |
| CartController.WithoutAppend | src/controllers/cartController.js:64 | Filtering distributes over concatenation, so the kept lines stay in their original order |
| CartController.WithoutAbsent | src/controllers/cartController.js:64 | Removing a product the cart does not hold leaves the lines unchanged |
| CartController.WithoutQty | src/controllers/cartController.js:64 | After removal the product's quantity is 0, and every other product keeps its quantity |
| CartController.WithoutWellFormed | src/controllers/cartController.js:64 | Removal keeps a well-formed cart (one line per product, quantities at least 1) well formed |
| CartController.MergeAddsQty | src/controllers/cartController.js:38-40 | Merging into an existing line adds the quantity to that product only |
| CartController.AppendAddsQty | src/controllers/cartController.js:41-42 | Appending a line adds its quantity to its product only |
| CartController.MergeKeepsWellFormed | src/controllers/cartController.js:38-40 | Merging keeps one line per product |
| CartController.AppendKeepsWellFormed | src/controllers/cartController.js:41-42 | Appending a product the cart does not hold keeps one line per product |
| CartController.StoreKeepsCartsWellFormed | src/controllers/cartController.js:45 | Saving a well-formed cart keeps every cart well formed |
| CartController.GetCart | src/controllers/cartController.js:7-23 | Returns the user's cart iff one exists, and 404 "Cart not found" otherwise |
| CartController.AddToCart | src/controllers/cartController.js:25-52 | A missing product or a quantity below 1 is 400 with no change. With no cart, the new cart is exactly the one item. An existing line grows by the quantity without a new line. Otherwise the item is appended after the unchanged lines. The product's total quantity grows by exactly the amount added, and one line per product is preserved |
| CartController.RemoveFromCart | src/controllers/cartController.js:54-72 | A missing product id is 400 and a missing cart is 404, both with no change. Otherwise the cart is filtered, keeping the other lines in order, and stays well formed |
| Store.FindFirst | src/controllers/authController.js:106-110 | `findOne` returns the first record that satisfies the filter, or none when no record does |
| Store.FindById | src/controllers/userController.js:12 | `findById` returns a record with that id, or none iff no record has it |
| Store.FindByEmail | src/controllers/authController.js:60 | `findOne({ email })` returns the first record with that email, or none iff no record has it |
| Store.WithProfile | src/controllers/authController.js:282-283 | The name and email are replaced only by non-empty values, and the rest of the record is unchanged |
| Store.WithProfileFallback | src/controllers/userController.js:38-39 | Empty values change nothing, and applying the same edit twice equals applying it once |
| AuthController.SignupCheck | src/controllers/authController.js:17-21 | The body passes iff the email rule passes, the password has at least 6 characters and the name is present. The rules are checked in schema order (email, password, name), and the first failing rule's message is reported |
| AuthController.AppendKeepsEmailsUnique | src/controllers/authController.js:60-75 | Adding a user whose email is free keeps emails unique |
| AuthController.NewUser | src/controllers/authController.js:64-74 | A new user is unverified, holds the code, and expires at now + 600000 ms, with no reset token |
| AuthController.SendCode | src/controllers/authController.js:78-86 | The code mail goes out iff the address passes `formatEmail` and the transport delivers. The mail sent is the code mail for that address, name and code, so by `MailText` its text contains the code |
| AccountMail.MailText | src/controllers/authController.js:78-84 | The body `sendTextEmail` receives for a code mail, the sign-up or the re-send text, contains the code of that mail |
| AccountMail.CodeTextHoldsCode | src/controllers/authController.js:78-84 | The sign-up and re-send texts both contain the code |
| AccountMail.CodeText | src/controllers/authController.js:78-84 | The sign-up text and the re-send text around the user's name and the code. `CodeTextHoldsCode` states that both carry the code |
| AuthController.Signup | src/controllers/authController.js:53-99 | A failed body check is 400 and a taken email is 400 "User already exists", both with no user added. Otherwise exactly the new user is appended. A failed mail is 500 after the user is stored. Unique emails are preserved |
| AuthController.FindByCode | src/controllers/authController.js:106-110 | The user found has the same email, the same code and an expiry strictly after now, and none is found iff no user qualifies |
| AuthController.SignupCodeWindow | src/controllers/authController.js:106-110 | The signed-up code verifies at time t iff t is less than signup time + 10 minutes |
| AuthController.Verified | src/controllers/authController.js:116-118 | Verification sets the flag, clears the code and its expiry, and changes nothing else |
| AuthController.VerifyEmail | src/controllers/authController.js:102-137 | With no matching user, the result is 400 with no change. Otherwise that user is verified. With unique emails the same code can then never verify again, at any time |
| AuthController.ResendVerificationEmail | src/controllers/authController.js:139-173 | Unknown email is 404 and already verified is 400, both with no change. Otherwise only the code and expiry are replaced, and the new code is mailed. A failed mail is 500 after the store. With unique emails, no other code verifies that email any more, and the new code verifies exactly until now + 10 minutes |
| AuthController.NewCodeReplacesOld | src/controllers/authController.js:155-157 | With unique emails, giving a user a new code retires every other code for that email, and the new one verifies exactly until its expiry |
| AuthController.Signin | src/controllers/authController.js:199-225 | Schema errors are 400. An unknown email or a wrong password is 401, checked before the verification flag. A correct password on an unverified user is 403. Success returns that verified user |
| AuthController.ResetMailHtml | src/controllers/authController.js:240-244 | The reset mail's HTML carries the token |
| AuthController.ForgotPassword | src/controllers/authController.js:228-251 | Unknown email is 404 with no change. Otherwise the token is stored, expiring at now + 3600000 ms, and a link carrying it is mailed. A failed mail is 500 after the store |
| AuthController.FindByResetToken | src/controllers/authController.js:257-260 | The user found holds the token with an expiry strictly after now, and none is found iff no user qualifies |
| AuthController.ResetPassword | src/controllers/authController.js:253-273 | Without a matching user the result is 400 with no change. Otherwise the password is set and the token cleared, so the token can never reset that account again |
| AuthController.UpdateProfile | src/controllers/authController.js:275-289 | Unknown caller is 404. Otherwise name and email fall back to the old values when empty, and the reply is id, email and name |
| UserController.UpdateUserRole | src/controllers/userController.js:4-25 | A missing id or a role outside {customer, admin} is 400 and an unknown user is 404, both with no change. Otherwise only that user's role changes, and no call ever makes a rider |
| UserController.UpdateProfile | src/controllers/userController.js:28-46 | Unknown user is 404 with no change. Otherwise the email and name fall back to the old values when empty, and the full record is returned |

## Left out

- Query endpoints (`getUserOrders`, `getAllOrders`, `getAdminOrders`, `getRiderOrders`, `getRiders`): they are database reads that change nothing.
- `uploadPrescription`: it only prefixes multer's stored file name with `/uploads/`. The stored name itself is modelled in `FileNames`.
- Paystack: the HTTP verification is the input `Paystack`, and the secret key's presence is a boolean input.
- Mail transports (nodemailer, both transports) and the WhatsApp Graph API: each is an input error value. The template-message call `sendTemplateMessage` is not modelled.
- JWT: verification is a function parameter of `AuthMiddleware.Authenticate`, and the tokens that sign-in and verification put in their replies are left out.
- Password hashing: `comparePassword` is equality with the stored password.
- Joi: the email rule is an input. The other sign-up and sign-in rules report Joi's messages for an absent field.
- AuthController.SignupCheck: an absent field and an empty string are both "" in the model. It reports `"password" is required` or `"name" is required` for both, while Joi answers `... is not allowed to be empty` for an empty string. Joi's refusal of unknown body keys (`"x" is not allowed`) is not modelled.
- AuthController.Signin: the same conflation. An empty password gets `"password" is required`, and unknown body keys are not refused.
- Randomness and the clock: codes, tokens, order ids, the payment reference, upload name suffixes and `Date.now` are parameters.
- Failure replies carry only `message`: the `error: error.message` field of 500 replies and the logger calls are left out.
- Mongoose validation at save time is modelled only for `createOrder`, whose save of a schema-invalid order answers 500 after the stock loop. An order saved by `updateOrderStatus`, `assignOrder` or `updateDeliveryStatus` with `accepted`, `rejected` or the rider fields is stored as the controller wrote it.
- Malformed ObjectId strings (Mongoose CastError, answered 500) are not modelled: ids are opaque strings.
- The Cart and User models are not part of this model. New users get the role `customer`. Unique emails are a hypothesis of the lemmas that need them, because the User model is not part of this model.
- UserController.UpdateProfile and AuthController.UpdateProfile: neither checks whether the new email is already taken, so both can store an email that another user holds. `EmailsUnique` is therefore not kept by every operation: `Signup` keeps it, the profile edits may break it.
- `addToCart`'s `parseInt(quantity)`: quantities are integers, so string quantities and floating point are not modelled.
- Concurrency: each request is one sequential step, so the check-then-act stock race between simultaneous orders is outside the model.
- Multer's 5 MB size limit and the creation of the upload directory are file-system I/O.
- `getCart`'s "Cart model error" branch, which tests that the model is loaded, cannot arise in the model.
- Real-time events, sockets and Redis; the product controller (Cloudinary, float parsing); routes, the server, the unused error handler and the email test script.
- Strings are sequences of characters. Unicode case mapping beyond A-Z is not modelled (`ToLower` maps only A-Z), and neither are encodings.
- StatusMessages.StatusMessage: the table is a plain object, so a status naming an `Object.prototype` member (`constructor`, `toString`, `__proto__`) finds a truthy inherited value instead of the generic text. The model gives those the generic text. No controller passes such a status.
