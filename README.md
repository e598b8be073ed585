# bizShop order and subscription core, in Dafny

bizShop is a multi-store e-commerce backend: merchants run storefronts,
customers place orders against a store's catalogue, and merchants pay for a
subscription plan (Free, Early Bird or Paid) through the Razorpay gateway.
This project models the part of the backend that holds money, stock and
access:

- **Orders** (`order_controller.dfy`):
  - `createOrder`, the cart loop that checks each line, snapshots the product and decrements its stock before the next line is read;
  - the order totals: 18 % tax rounded to the cent, $5 shipping unless the items exceed $100;
  - the merchant's status update;
  - the rule for who may see an order;
  - the store-orders listing, with its filter, its operator rewrite and its pagination.
- **Billing** (`earlybird_controller.dfy`, `razorpay_controller.dfy`):
  - the Early Bird offer's status;
  - plan selection, where a free claim takes a slot and a discounted claim or the Paid plan goes to the gateway;
  - the signed Razorpay webhook that activates a paid plan;
  - the stand-alone payment-order endpoint.
- **Authentication** (`auth_middleware.dfy`): the `veriJwt` middleware, which chooses the token, classifies verification errors, looks up the user and attaches it.
- **Schemas**: the Order, Product, Early Bird configuration, User and Store models, with:
  - their defaults and validators;
  - the password hooks and the reset token;
  - the soft-delete filter on user lookups;
  - the Store slug hook;
  - the unique indexes.

The code works by changing state step by step, and the model follows that shape:

- `OrderController.Shop` holds the product table and the orders and changes them in its methods.
- `EarlyBirdController.Billing` holds the user documents and the offer configuration.
- `UserModel.UserDocument`, `StoreModel.StoreDocument` and `AuthMiddleware.Request` are classes whose methods update their fields.
- Each method is proved against a function on values (`PlaceOrder`, `SelectPlan`, `Webhook`, `Capture`, `Authenticate`, `ApplyStatusUpdate`).
- The lemmas state the properties of those functions.

Modelling choices:

- **Money.** Order prices are integer cents: $100 is 10000 and $5 is 500. Plan amounts are whole rupees, and the gateway is sent paise, which is rupees × 100.
- **Time.** Instants are milliseconds, passed in as `now`.
- **Outside calls.** Token verification, hashing, the HMAC, the random token and the gateway's `orders.create` are function parameters. The model does not look into them.

Three behaviours of the code are easy to miss, and the model keeps them:

- Insufficient stock is refused with 400 (order.controller.js:69-72).
- The cart loop is not all-or-nothing: each line's decrement is saved before the next line is read, so the decrements before a failing line stay (order.controller.js:50-86).
- Choosing the Free plan resets the Early Bird claim flag (earlybird.controller.js:68-72).

## Model

| member | source | states |
|---|---|---|
| Common.TrimStartCuts | bizshop/src/model/user.model.js:12 | `trimStart` keeps a suffix that does not start with white space and cuts only white space |
| Common.TrimEndCuts | bizshop/src/model/user.model.js:12 | `trimEnd` keeps a prefix that does not end with white space and cuts only white space |
| Common.Trim | bizshop/src/model/user.model.js:12 | the `trim` setter of the schemas; what it keeps and cuts is stated by `TrimSpec`, `TrimmedFixpoint` and `TrimIdempotent` |
| Common.TrimSpec | bizshop/src/model/user.model.js:12 | `trim` removes exactly the white space at both ends: the result is a trimmed slice of the input and everything cut is white space |
| Common.TrimmedFixpoint | bizshop/src/model/product.model.js:9 | a string that is already trimmed is left unchanged by the `trim` setter |
| Common.TrimIdempotent | bizshop/src/model/Store.model.js:11 | trimming twice is trimming once |
| Common.TrimStartKeeps | bizshop/src/controller/order.controller.js:183 | text that does not start with white space is not changed by the white-space skip of `parseInt` |
| OrderModel.ParseStatus | bizshop/src/model/order.model.js:86-90 | a status name is accepted exactly when it is one of the five enum names, and parses to the status with that name |
| OrderModel.ParseMethod | bizshop/src/model/order.model.js:58-63 | a payment-method name is accepted exactly when it is `COD` or `Razorpay`, and parses to that method |
| OrderModel.NewOrder | bizshop/src/model/order.model.js:32-112 | a new order takes the schema defaults (Pending, COD, unpaid, undelivered, zero prices), and it is valid exactly when every item is valid and the address is complete |
| ProductModel.NewProduct | bizshop/src/model/product.model.js:6-40 | name and description are stored trimmed, stock defaults to 0, and the product is valid exactly when the validators' length, price, discount and stock bounds hold |
| ProductModel.SaveProduct | bizshop/src/model/product.model.js:87 | a write is refused with a duplicate-key error exactly when another product of the same store has that name; otherwise only that entry changes, and the unique index stays satisfied |
| EarlyBirdModel.DefaultConfig | bizshop/src/model/earlybird.model.js:7-41 | the default configuration has 100 slots, none claimed, is active, free and 30 days long, and satisfies the schema's minimums |
| UserModel.SecondsOf | bizshop/src/model/user.model.js:133 | truncating milliseconds to seconds gives the whole second that contains the instant |
| UserModel.UserDocument.constructor | bizshop/src/model/user.model.js:9-66 | a new user has the trimmed name, role `user`, the Free plan, no expiry, no claim, no store, is active and has no password timestamps; it passes the validators exactly when the trimmed name has 3 to 40 characters, the password at least 8 and the confirmation matches |
| UserModel.UserDocument.HashPasswordHook | bizshop/src/model/user.model.js:92-102 | a modified password is replaced by its hash and the confirmation is dropped; otherwise both stay as they were |
| UserModel.UserDocument.PasswordChangedAtHook | bizshop/src/model/user.model.js:105-110 | a password change on an existing user stamps `passwordChangedAt` one second before now; a new user or an unchanged password leaves it alone |
| UserModel.UserDocument.ChangedPasswordAfter | bizshop/src/model/user.model.js:131-138 | true exactly when a change time is recorded and the token's timestamp is before it in whole seconds |
| UserModel.UserDocument.CreatePasswordResetToken | bizshop/src/model/user.model.js:141-156 | the caller gets the random token, the document keeps only its digest, and it expires ten minutes from now |
| UserModel.TokenAfterChangeAccepted | bizshop/src/model/user.model.js:105-138 | a token issued at or after the hook's stamp is never taken as predating the change, and one issued more than a second before the save always is |
| UserModel.FindActive | bizshop/src/model/user.model.js:114-118 | a lookup returns the user exactly when it exists and is active |
| StoreModel.StripDisallowed | bizshop/src/model/Store.model.js:61 | every character left is a lower-case ASCII letter, a digit, white space or a dash |
| StoreModel.CollapseRuns | bizshop/src/model/Store.model.js:62-63 | each run of the class becomes one dash; nothing outside the class is changed; after the dash pass no two dashes are adjacent |
| StoreModel.Slugify | bizshop/src/model/Store.model.js:59-64 | the slug pipeline (lower-case, drop disallowed characters, collapse white space and dashes, trim); its shape, content and idempotence are stated by `SlugShape`, `SlugKeepsAlnums` and `SlugIdempotent` |
| StoreModel.TrimKeepsSlugChars | bizshop/src/model/Store.model.js:64 | the final `trim` leaves a string of slug characters alone |
| StoreModel.SpacePassCharset | bizshop/src/model/Store.model.js:61-62 | after the white-space pass only letters, digits and dashes remain |
| StoreModel.SlugShape | bizshop/src/model/Store.model.js:57-67 | a slug has only lower-case ASCII letters, digits and dashes, and never two dashes in a row |
| StoreModel.AlnumsStrip | bizshop/src/model/Store.model.js:61 | dropping disallowed characters keeps every letter and digit, in order |
| StoreModel.AlnumsCollapse | bizshop/src/model/Store.model.js:62-63 | collapsing runs keeps every letter and digit, in order |
| StoreModel.SlugKeepsAlnums | bizshop/src/model/Store.model.js:57-67 | the slug holds exactly the letters and digits of the lower-cased name, in order |
| StoreModel.LowerFixesSlugChars | bizshop/src/model/Store.model.js:60 | lower-casing a string of slug characters changes nothing |
| StoreModel.StripFixesSlugChars | bizshop/src/model/Store.model.js:61 | the character filter changes nothing on slug characters |
| StoreModel.SpacePassFixesSlugChars | bizshop/src/model/Store.model.js:62 | the white-space pass changes nothing on slug characters |
| StoreModel.DashPassFixesSingleDashes | bizshop/src/model/Store.model.js:63 | the dash pass changes nothing when no two dashes are adjacent |
| StoreModel.SlugIdempotent | bizshop/src/model/Store.model.js:57-67 | the slug of a slug is itself |
| StoreModel.SlugSettersNoOp | bizshop/src/model/Store.model.js:28-33 | the slug field's own `lowercase` and `trim` setters leave a derived slug unchanged |
| StoreModel.StoreDocument.constructor | bizshop/src/model/Store.model.js:7-48 | a new store has the trimmed name, no slug yet, status `active` and the default theme colour; it is valid exactly when the trimmed name has 3 to 100 characters |
| StoreModel.StoreDocument.PreSave | bizshop/src/model/Store.model.js:57-67 | the slug is derived from the name when the store is new or its name changed, and kept otherwise |
| StoreModel.InsertStore | bizshop/src/model/Store.model.js:10-38 | an insert is refused exactly when the name, slug or owner is taken; otherwise the store is appended and the three keys stay unique |
| OrderController.RoundToCents | bizshop/src/controller/order.controller.js:14 | `toFixed(2)` yields the nearest cent, with halves rounded away from zero |
| OrderController.OrderTotals | bizshop/src/controller/order.controller.js:8-19 | the items price is the sum of price × quantity; tax is within half a cent of 18 %; shipping is free exactly above $100 and $5 otherwise; the total is the sum of the three |
| OrderController.CalculateOrderTotals | bizshop/src/controller/order.controller.js:8-19 | the accumulating loop gives the totals `OrderTotals` specifies |
| OrderController.ItemsPriceAppend | bizshop/src/controller/order.controller.js:10-12 | the items price of two runs of lines is the sum of theirs |
| OrderController.ItemsPriceNonNegative | bizshop/src/controller/order.controller.js:10-12 | lines with non-negative prices and positive quantities never make a negative items price |
| OrderController.Precheck | bizshop/src/controller/order.controller.js:32-43 | a request passes exactly when it has items, a complete address and a payment method of `COD` or `Razorpay`; every refusal is a 400, and an empty cart is refused for its items |
| OrderController.CheckLine | bizshop/src/controller/order.controller.js:51-72 | a line passes exactly when it names a known product of the order's store with a positive quantity and enough stock; each failing check raises its own error, in the order the checks run: a missing product id or a missing or non-positive quantity is `InvalidLine` (400), an unknown product is `ProductNotFound` (404, and the only 404), a product of another store is `MixedStores` (400), and a shortfall is `InsufficientStock` with the name, the stock and the quantity (400) |
| OrderController.Step | bizshop/src/controller/order.controller.js:50-86 | one pass of the cart loop: after a failure nothing changes; a failing line records its error and changes no stock; a passing line adds one snapshot line and fixes the store; the set of products is kept |
| OrderController.ProcessLines | bizshop/src/controller/order.controller.js:50-86 | the cart loop keeps the set of products, fixes a store once a line passes, and snapshots every line when none fails |
| OrderController.CreatedOrder | bizshop/src/controller/order.controller.js:89-105 | the stored order has the user, the store, the snapshot, the address and the method, is Processing and unpaid, and carries the totals of its items |
| OrderController.LinesDecrement | bizshop/src/controller/order.controller.js:83-85 | when the loop finishes, each product's stock has gone down by exactly the total quantity the cart asked of it, and nothing else changed |
| OrderController.LinesSnapshot | bizshop/src/controller/order.controller.js:62-81 | when the loop finishes, each snapshot line carries the id, name and price the catalogue had before the loop and the requested quantity, all from one store |
| OrderController.LinesFailure | bizshop/src/controller/order.controller.js:50-86 | when a line fails, all lines before it passed, their decrements stay, and the error is the one that line raises |
| OrderController.LinesPrefixStep | bizshop/src/controller/order.controller.js:50 | running the loop over one more line is one more step |
| OrderController.StepAccepted | bizshop/src/controller/order.controller.js:62-85 | a line that passes is snapshotted, fixes the store if none is set yet, and has its stock decremented |
| OrderController.FailureSticks | bizshop/src/controller/order.controller.js:50-86 | once a line fails, the lines after it change nothing |
| OrderController.LinesKeepStockNonNegative | bizshop/src/controller/order.controller.js:69-84 | stock is compared before it is decremented, so no product's stock goes below zero |
| OrderController.PlaceOrder | bizshop/src/controller/order.controller.js:27-110 | a request refused by the early checks is that error with the catalogue untouched; an order is created exactly when the early checks and every cart line pass, and it belongs to the caller and holds the loop's snapshot; the set of products is kept |
| OrderController.PlaceOrderSpec | bizshop/src/controller/order.controller.js:27-110 | a request refused early touches no product; a placed order has one catalogue snapshot per cart line from the first line's store, is Processing and unpaid, totals correctly, and each product's stock fell by exactly what was asked |
| OrderController.PlaceOrderFailure | bizshop/src/controller/order.controller.js:50-86 | a request that fails at a cart line creates no order, but the lines before that line stay decremented |
| OrderController.PlaceOrderKeepsInvariants | bizshop/src/controller/order.controller.js:27-110 | placing an order never makes stock negative, and over a valid catalogue a placed order satisfies the Order schema |
| OrderController.InsufficientStockScenario | bizshop/src/controller/order.controller.js:69-72 | asking for 3 of a product with 2 in stock gives a 400 naming both numbers, and the stock stays 2 |
| OrderController.MixedStoresScenario | bizshop/src/controller/order.controller.js:62-67 | a second line from another store is refused, yet the first line's decrement stays |
| OrderController.ApplyStatusUpdate | bizshop/src/controller/order.controller.js:276-297 | any listed status replaces the current one; payment only goes from unpaid to paid and is stamped then; the first Delivered status stamps delivery, which is never undone; otherwise an explicit `deliveredAt` overwrites or clears the stored one |
| OrderController.GetSingleOrder | bizshop/src/controller/order.controller.js:218-252 | an unknown order is 404; the order is returned exactly to its customer or to the owner of its store, and anyone else gets 403 |
| OrderController.CanView | bizshop/src/controller/order.controller.js:242-246 | the customer of the order, or a store owner whose store is the order's store, may see it; its consequences are stated by `GetSingleOrder` and `PlacedOrderVisibility` |
| OrderController.PlacedOrderVisibility | bizshop/src/controller/order.controller.js:240-247 | a placed order is visible to the customer who placed it and to its store's owner, and to no other regular user |
| OrderController.BuildFilter | bizshop/src/controller/order.controller.js:147-151 | the filter is the query without `page`, `sort`, `limit` and `fields`, with `store` forced to the owner's store |
| OrderController.WordRun | bizshop/src/controller/order.controller.js:155 | the length of the leading run of `\w` characters, ending at a word boundary |
| OrderController.WordRunOfWord | bizshop/src/controller/order.controller.js:155 | a run of word characters followed by a non-word character or the end is one whole word |
| OrderController.Rewrite | bizshop/src/controller/order.controller.js:155 | the replacement that puts `$` before each whole word `gte`, `gt`, `lte` or `lt`; that it loses nothing and never merges two texts is stated by `RewriteRoundTrip` and `RewriteInjective` |
| OrderController.RewriteStart | bizshop/src/controller/order.controller.js:155 | the rewrite keeps what a string starts with, except for a `$` before a leading operator word |
| OrderController.RewriteRoundTrip | bizshop/src/controller/order.controller.js:154-156 | dropping the inserted `$` signs gives back the original text, so the rewrite loses nothing |
| OrderController.RoundTripWordStep | bizshop/src/controller/order.controller.js:155 | the round trip holds over a leading word, given it holds over the rest |
| OrderController.LeadingWord | bizshop/src/controller/order.controller.js:155 | a leading word is rewritten whole, marked exactly when it is an operator, and what follows starts at a word boundary |
| OrderController.UnrewriteWord | bizshop/src/controller/order.controller.js:155 | undoing the rewrite leaves an unmarked leading word alone |
| OrderController.UnrewriteMarked | bizshop/src/controller/order.controller.js:155 | undoing the rewrite drops the `$` in front of a whole operator word |
| OrderController.UnrewriteDollar | bizshop/src/controller/order.controller.js:155 | one step of undoing the rewrite over a marked operator |
| OrderController.OperatorIsWord | bizshop/src/controller/order.controller.js:155 | each of `gte`, `gt`, `lte`, `lt` is a non-empty word |
| OrderController.RoundTripOtherStep | bizshop/src/controller/order.controller.js:155 | the round trip holds over a leading non-word character, given it holds over the rest |
| OrderController.RewriteInjective | bizshop/src/controller/order.controller.js:154-156 | two different texts never rewrite to the same text |
| OrderController.RewriteExamples | bizshop/src/controller/order.controller.js:155 | `gte` becomes `$gte`, but `gtex` is left alone |
| OrderController.RewriteFilter | bizshop/src/controller/order.controller.js:154-156 | every key and text value of the filter goes through the rewrite, and every key of the result comes from exactly one key of the filter |
| OrderController.DigitRun | bizshop/src/controller/order.controller.js:183-184 | the length of the leading run of decimal digits |
| OrderController.ParseDigits | bizshop/src/controller/order.controller.js:183-184 | leading digits give a number, and no leading digit gives none |
| OrderController.Digits | bizshop/src/controller/order.controller.js:183-184 | a number is written as a non-empty string of decimal digits |
| OrderController.DigitsValueOfDigits | bizshop/src/controller/order.controller.js:183-184 | reading back the digits of a number gives the number |
| OrderController.DigitRunOfDigits | bizshop/src/controller/order.controller.js:183-184 | a digit string followed by a non-digit is read whole |
| OrderController.ParseIntDec | bizshop/src/controller/order.controller.js:183-184 | `parseInt(s, 10)`: white space, an optional sign and the leading digits; what it reads back is stated by `ParseIntDecimal`, `ParseNonNegative` and `ParseNegative` |
| OrderController.ParseIntDecimal | bizshop/src/controller/order.controller.js:183-184 | `parseInt` reads back any integer written in decimal, whatever non-digit text follows |
| OrderController.ParseNonNegative | bizshop/src/controller/order.controller.js:183-184 | `parseInt` reads back a written natural number |
| OrderController.ParseNegative | bizshop/src/controller/order.controller.js:183-184 | `parseInt` reads back a written negative number |
| OrderController.ParseUnsigned | bizshop/src/controller/order.controller.js:183-184 | text that starts with a digit is read as its leading digits |
| OrderController.ParseMinus | bizshop/src/controller/order.controller.js:183-184 | a minus sign negates what the digits after it read as |
| OrderController.ParseDigitsOfDigits | bizshop/src/controller/order.controller.js:183-184 | the digits of a number, followed by a non-digit, read back as the number |
| OrderController.IntOr | bizshop/src/controller/order.controller.js:183-184 | a missing, unreadable or zero parameter takes the fallback, so the value is never 0 unless the fallback is |
| OrderController.PagingOf | bizshop/src/controller/order.controller.js:183-185 | page and limit are never 0 and default to 1 and 10; skip is (page − 1) × limit |
| OrderController.GetAllStoreOrders | bizshop/src/controller/order.controller.js:139-193 | no store is 403; a page past the last of a non-zero count of orders is 404 exactly when a page was asked for; otherwise the rewritten store filter and the page window |
| OrderController.ListingStaysInStore | bizshop/src/controller/order.controller.js:147-156 | the listing always filters on the owner's store and the client cannot change it |
| OrderController.RewriteStoreKey | bizshop/src/controller/order.controller.js:155 | the `store` key survives the rewrite unchanged |
| OrderController.PageBounds | bizshop/src/controller/order.controller.js:183-193 | for page n ≥ 1 and size ≥ 1, the page is refused exactly when (n − 1) × size reaches the order count, and the first page never is |
| OrderController.ProcessCart | bizshop/src/controller/order.controller.js:47-86 | the cart loop gives the table, snapshot, store and failure that `ProcessLines` specifies |
| OrderController.Shop.constructor | bizshop/src/controller/order.controller.js:5-6 | the shop starts with the given catalogue and no orders |
| OrderController.Shop.CreateOrder | bizshop/src/controller/order.controller.js:27-110 | the catalogue becomes what `PlaceOrder` says, also on failure; a placed order is appended and its position returned; a refusal appends nothing |
| OrderController.Shop.UpdateOrderStatus | bizshop/src/controller/order.controller.js:259-303 | 403 unless a store owner with a store; 404 for an unknown order or another store's order; 400 for an unlisted status; otherwise the order becomes what `ApplyStatusUpdate` says and only it changes; a refusal changes nothing |
| EarlyBirdController.StatusOf | bizshop/src/controller/earlybird.controller.js:14-41 | slots left are never negative and are zero when the offer is inactive; the offer is available exactly when a claim would pass the eligibility check |
| EarlyBirdController.StatusCode | bizshop/src/controller/earlybird.controller.js:51-194 | each billing error has its HTTP status: 401 no user, 400 bad plan, claimed or bad amount, 403 offer closed, 404 no user document, 500 gateway |
| EarlyBirdController.PaidAmount | bizshop/src/controller/earlybird.controller.js:153 | a missing or zero amount means 1999 rupees; any other amount is kept |
| EarlyBirdController.EarlyBirdChoice | bizshop/src/controller/earlybird.controller.js:77-147 | a refusal leaves the user untouched, and the configuration only changes beyond its creation when the offer is granted |
| EarlyBirdController.SelectPlan | bizshop/src/controller/earlybird.controller.js:51-194 | 401 without a user, 400 for an unknown plan, 404 when the user is missing; a refusal leaves the user as it was; only Free and Early Bird change a user |
| EarlyBirdController.FreePlanResets | bizshop/src/controller/earlybird.controller.js:68-74 | choosing Free clears the expiry and the claim flag and leaves the configuration alone |
| EarlyBirdController.EarlyBirdRefusals | bizshop/src/controller/earlybird.controller.js:78-90 | a closed offer is 403 and a repeated claim is 400; either way the user is unchanged and the configuration is at most created |
| EarlyBirdController.EarlyBirdGrant | bizshop/src/controller/earlybird.controller.js:93-95 | the subscription a free claim writes; that a claim grants it is stated by `FreeEarlyBirdClaim` |
| EarlyBirdController.PlanOptions | bizshop/src/controller/earlybird.controller.js:109-124 | the gateway order both payment branches build (also lines 153-171); its amount in paise and notes are stated by `PaymentPlansPersistNothing` |
| EarlyBirdController.PaymentReply | bizshop/src/controller/earlybird.controller.js:126-146 | the reply to a gateway call in both payment branches (also lines 173-192): the order, or 500; stated by `PaymentPlansPersistNothing` |
| EarlyBirdController.FreeEarlyBirdClaim | bizshop/src/controller/earlybird.controller.js:93-105 | a free claim grants the plan for the configured days, sets the claim flag and takes exactly one slot |
| EarlyBirdController.PaymentPlansPersistNothing | bizshop/src/controller/earlybird.controller.js:107-192 | the discounted Early Bird and the Paid plan change no user; they ask the gateway for an order in paise with the user's notes, and reply with that order or 500 |
| EarlyBirdController.PaidAmountRule | bizshop/src/controller/earlybird.controller.js:151-156 | a negative amount is refused with 400 exactly when given, and a missing amount asks for 1999 rupees |
| EarlyBirdController.ClaimCounter | bizshop/src/controller/earlybird.controller.js:77-105 | the claim counter moves only on a granted free claim, and then by one; so it never passes `maxUsers` and the schema's bounds are kept |
| EarlyBirdController.ClaimOnce | bizshop/src/controller/earlybird.controller.js:85-90 | after a granted free claim, asking again is refused and changes nothing |
| EarlyBirdController.LastSlotScenario | bizshop/src/controller/earlybird.controller.js:85-105 | with one slot left, the first of two users gets the plan and the second gets 403 |
| EarlyBirdController.ReclaimAfterDowngrade | bizshop/src/controller/earlybird.controller.js:68-105 | downgrading to Free clears the claim flag, so the same user can claim the free Early Bird again while slots remain |
| EarlyBirdController.TakeSlot | bizshop/src/controller/earlybird.controller.js:249-252 | the counter goes up by one exactly when a configuration exists, is active and the filter matches; nothing else changes |
| EarlyBirdController.Capture | bizshop/src/controller/earlybird.controller.js:233-260 | a payment event either changes nothing or sets the plan from the notes; only a first Early Bird claim touches the configuration; any other plan gets 30 days and keeps the claim flag; with the correction, every Early Bird event sets the claim flag and the configured discounted length, else 30 days |
| EarlyBirdController.CaptureAsWritten | bizshop/src/controller/earlybird.controller.js:242-258 | the code as written: a plan other than Early Bird, or an Early Bird event for a user who already claimed, gets 30 days and keeps the claim flag; a first Early Bird claim takes the slot the filter allows and gets the discounted length when one is configured, else 30 days; a throwing filter changes nothing |
| EarlyBirdController.CaptureDiffersOnReplay | bizshop/src/controller/earlybird.controller.js:242-257 | for a user who already claimed, under a discounted configuration whose length is not 30 days, the code gives 30 days where the correction gives the configured length |
| EarlyBirdController.ReplayShortensEarlyBird | bizshop/src/controller/earlybird.controller.js:242-257 | as written, a second event for one discounted 90-day Early Bird payment cuts the expiry to 30 days |
| EarlyBirdController.CaptureIdempotent | bizshop/src/controller/earlybird.controller.js:230-260 | with the correction, a repeated payment event at the same moment changes nothing more |
| EarlyBirdController.CaptureAgreesOnFirstClaim | bizshop/src/controller/earlybird.controller.js:242-258 | the correction agrees with the code on the event that takes the slot and on every other plan |
| EarlyBirdController.CaptureSlots | bizshop/src/controller/earlybird.controller.js:246-252 | a user takes at most one slot however many events arrive, only from an active configuration, and the counter stays within `maxUsers` when the filter matches only below it |
| EarlyBirdController.SignatureValid | bizshop/src/controller/earlybird.controller.js:206-218 | a signature header and a secret are present and the HMAC of the body matches; that only such an event changes anything is stated by `Webhook` |
| EarlyBirdController.Webhook | bizshop/src/controller/earlybird.controller.js:202-275 | a bad or missing signature is 400 and anything else is 200; a signed event that is not a payment event, or lacks notes, a user id, a plan or a found user, changes neither the user nor the configuration; the configuration moves only by `TakeSlot`, on an Early Bird event for a found user who has not claimed |
| EarlyBirdController.WebhookEffects | bizshop/src/controller/earlybird.controller.js:230-260 | a signed payment event for a found user has the user and configuration `Capture` gives, so it sets the plan named in the notes; with the correction, Early Bird sets the claim flag and the configured discounted length, else 30 days; other plans run 30 days |
| EarlyBirdController.Billing.constructor | bizshop/src/controller/earlybird.controller.js:15 | the billing state starts with the given users, keyed by their ids, and configuration, and is valid |
| EarlyBirdController.Billing.Signed | bizshop/src/controller/earlybird.controller.js:62-65 | the signed-in user's subscription is found only for a stored user |
| EarlyBirdController.Billing.Named | bizshop/src/controller/earlybird.controller.js:235-240 | the webhook finds a subscription only for a stored user named in the notes |
| EarlyBirdController.Billing.GetEarlyBirdStatus | bizshop/src/controller/earlybird.controller.js:14-41 | the default configuration is created on first use, and the reply is its status |
| EarlyBirdController.Billing.ProcessPlanSelection | bizshop/src/controller/earlybird.controller.js:51-194 | the reply, the configuration and the signed-in user's subscription become what `SelectPlan` says; no other user and no other field changes |
| EarlyBirdController.Billing.SwitchToFree | bizshop/src/controller/earlybird.controller.js:68-72 | the user is on Free with no expiry and no claim |
| EarlyBirdController.Billing.SelectEarlyBird | bizshop/src/controller/earlybird.controller.js:77-147 | the reply, the configuration and the user's subscription become what `EarlyBirdChoice` says |
| EarlyBirdController.Billing.HandleRazorpayWebhook | bizshop/src/controller/earlybird.controller.js:202-275 | the status, the configuration and the named user's subscription become what `Webhook` says; no other user and no other field changes |
| EarlyBirdController.Billing.ApplyPaymentEvent | bizshop/src/controller/earlybird.controller.js:241-260 | the user's subscription and the configuration become what the corrected `Capture` says |
| RazorpayController.Validate | bizshop/src/controller/RazorPay.controller.js:8-24 | no user is 402; a missing or non-positive amount, or a plan other than Early Bird or Paid, is 400; otherwise the amount passes |
| RazorpayController.PaymentOptions | bizshop/src/controller/RazorPay.controller.js:25-42 | the order asks for the amount in paise, in rupees unless another currency is named, captured automatically, with notes naming the user, the plan and the email |
| RazorpayController.GatewayErrorStatus | bizshop/src/controller/RazorPay.controller.js:49-61 | an error with a description or a message gets a status, which is 500 unless the description's own status code is given; any other error gets none |
| RazorpayController.CreateRazorpayPayment | bizshop/src/controller/RazorPay.controller.js:7-62 | a refused request gets the validation status; a created order comes from the gateway call with the built options and is the order returned; no reply happens only after validation passed |
| RazorpayController.GatewayOutcomes | bizshop/src/controller/RazorPay.controller.js:32-61 | a valid request asks for a positive amount in paise; a created order is returned; an empty gateway reply is 500; a gateway error with a status is refused with that status, and goes unanswered exactly when it has neither description nor message |
| AuthMiddleware.FirstSpace | bizshop/src/middleware/Auth.middleware.js:24 | the position of the first space |
| AuthMiddleware.Split | bizshop/src/middleware/Auth.middleware.js:24 | `split(' ')` gives at least one piece, and no piece holds a space |
| AuthMiddleware.SplitJoin | bizshop/src/middleware/Auth.middleware.js:24 | joining the pieces with spaces gives back the header |
| AuthMiddleware.JoinSplit | bizshop/src/middleware/Auth.middleware.js:24 | splitting the join of pieces without spaces gives back the pieces |
| AuthMiddleware.SplitCons | bizshop/src/middleware/Auth.middleware.js:24 | splitting a space-free piece, a space and a rest gives the piece followed by the rest's pieces |
| AuthMiddleware.BearerToken | bizshop/src/middleware/Auth.middleware.js:24 | the second piece of the header, when there is one, holds no space |
| AuthMiddleware.SelectToken | bizshop/src/middleware/Auth.middleware.js:21-25 | a non-empty cookie wins; otherwise a header starting with `Bearer` gives its second piece; otherwise there is no token |
| AuthMiddleware.BearerTokenOf | bizshop/src/middleware/Auth.middleware.js:23-24 | `Bearer <token>` yields the token, and the scheme test is only a prefix test |
| AuthMiddleware.BearerTokenIgnoresRest | bizshop/src/middleware/Auth.middleware.js:24 | anything after the token and a further space is ignored |
| AuthMiddleware.SecondField | bizshop/src/middleware/Auth.middleware.js:24 | the second piece of `scheme token rest` is the token |
| AuthMiddleware.StatusCode | bizshop/src/middleware/Auth.middleware.js:28-58 | every authentication failure is 401 except an unexpected verification error, which is 500 |
| AuthMiddleware.Classify | bizshop/src/middleware/Auth.middleware.js:39-49 | a verification error is 401 exactly when it is an invalid or expired token |
| AuthMiddleware.Authenticate | bizshop/src/middleware/Auth.middleware.js:16-65 | no token, or an empty one, is 401 and is the only "no token" case; it succeeds exactly when a non-empty token verifies to the id of a stored active user, which is returned; a failed verification is exactly the error its name classifies to, and a verified token naming no stored active user is an unknown user |
| AuthMiddleware.Request.constructor | bizshop/src/middleware/Auth.middleware.js:16 | a request starts with its credentials, no user and `next` not called |
| AuthMiddleware.VeriJwt | bizshop/src/middleware/Auth.middleware.js:16-65 | on success the user is attached and `next` is called once; on failure the request is unchanged and the error is what `Authenticate` says |

## Left out

- Floating point: prices and totals are integer cents, and `toFixed(2)` is modelled as rounding to the cent. Binary rounding of fractional dollar amounts is not modelled.
- Quantities are integers; a fractional or non-numeric quantity, and JavaScript's loose comparisons on it, are not modelled.
- Concurrency: two requests interleaving between a stock read and its save, or between two webhook events, are not modelled. Each handler runs alone.
- Persistence failures: a database call that throws is not modelled. This covers `save`, `create`, `findById` on a malformed id and `countDocuments`, and the listing query of `getAllStoreOrders` when a negative `page` gives a negative `skip` (order.controller.js:183-185): MongoDB rejects it and the handler answers 500, where `OrderController.GetAllStoreOrders` returns the listing.
- `populate` and `select` on queries are not modelled. Besides shaping a reply, `populate` also applies the User model's soft-delete filter (user.model.js:114-118), which matters to `GetSingleOrder` (next line).
- OrderController.GetSingleOrder: the source dereferences `order.user._id` and `order.store._id` (order.controller.js:242-243). When the customer is inactive or deleted, or the store is deleted, the populated field is null and the handler throws, which is a 500. The model returns the order to its customer or 403 instead.
- `getMyOrders` (order.controller.js:117-130) lists the caller's orders and holds no rule beyond its filter, so it is left out.
- The `sort` and `fields` parameters of the listing only shape the reply. The order of listed orders is not modelled.
- OrderController.GetAllStoreOrders: `countDocuments` is the parameter `total`. A negative `page` gives a negative `skip`, which the database refuses (a 500, see the persistence line); the model returns the listing. The rewrite is modelled on keys and text values, without the JSON quoting around them.
- OrderController.RewriteFilter: a query value that is a nested object or an array, and text a rewrite turns into invalid JSON, are not modelled. JSON escaping is not modelled either: the source rewrites the serialised text, where a newline or tab is written as `\n` or `\t`, so an operator word right after such a character is not at a word boundary and stays; the model rewrites the raw value and marks it.
- OrderController.IntOr: `parseInt`'s loss of precision on very long digit strings is not modelled.
- Invalid dates: a `deliveredAt` the `Date` constructor cannot read is not modelled.
- Strings are sequences of characters. JavaScript's UTF-16 code units and surrogate pairs are not modelled, and Unicode lower-casing is modelled only as far as it can produce ASCII letters.
- Product fields that no core operation reads are not modelled: images, category, brand and the ratings.
- EarlyBirdController.TakeSlot: the `$lt: '$maxUsers'` filter is not modelled as a query. Its outcome is the parameter `CounterFilter`: it matches, misses, or throws. Mongoose casts the filter against the schema, and `'$maxUsers'` is not a number, so a cast error (`Throws`) is the likely outcome: neither the counter nor the user is saved then.
- EarlyBirdController.Capture is the corrected capture (see Findings). An Early Bird event for a user who already claimed gets the configured discounted length, where the code gives 30 days; `CaptureAsWritten` states what the code does and `CaptureDiffersOnReplay` the difference.
- EarlyBirdController.Webhook applies the corrected `Capture`, not `CaptureAsWritten`, so a replayed Early Bird event keeps the discounted length instead of cutting it to 30 days.
- EarlyBirdController.Billing.HandleRazorpayWebhook uses `Webhook`, and so the corrected `Capture`, not the code as written.
- EarlyBirdController.Billing.ApplyPaymentEvent applies the corrected `Capture`, not `CaptureAsWritten`.
- EarlyBirdController.SelectPlan: the `amount` field of a Paid request is an integer. A string amount, which JavaScript would multiply, is not modelled.
- RazorpayController.Validate and RazorpayController.CreateRazorpayPayment: `req.body.amount` is an integer (`PaymentRequest.amount`). A string such as `"5"` passes `!amount || amount <= 0` in the source (RazorPay.controller.js:13) and `amount * 100` turns it into 500 paise (RazorPay.controller.js:33); string amounts and JavaScript's coercions on them are not modelled.
- `config/razorpay.js` is not part of this model. The gateway client is the parameter `create`, and the key id returned to clients is left out.
- `ApiError.js` and `asyncHandler` are not part of this model. An error is its HTTP status.
- RazorpayController.CreateRazorpayPayment: the success reply is elided in the source itself, so a created order ends with `OrderCreated`.
- The receipt-id check at RazorPay.controller.js:26-31 can never fail because the id is a non-empty template string. It is not modelled.
- `correctPassword`, `generateAccessToken` and `generateRefreshToken` of the User model are bcrypt and JWT calls and are not modelled.
- Email validation and lower-casing of the User and Store schemas are not modelled.
- The `-password -refreshToken` projection in `veriJwt` is not modelled.
- HTTP bodies and messages are not modelled beyond their status codes; the `console` logging is not modelled.

## Findings

| source | as written | input that shows it | evidently intended | confidence | as-written member | corrected member |
|---|---|---|---|---|---|---|
| bizshop/src/controller/earlybird.controller.js:246-257 | the discounted Early Bird's own length is applied only inside the `!earlyBirdQuotaUsed` branch, after the 30-day default was already written | a discounted configuration (100 slots, none claimed, active, 499 rupees, 90 days); Razorpay sends `payment.authorized` and then `payment.captured` for the same payment at the same moment; after the first event the user expires in 90 days, after the second in 30 | every event for an Early Bird payment gives the configured length, and a replayed event changes nothing | not executed | EarlyBirdController.CaptureAsWritten, EarlyBirdController.ReplayShortensEarlyBird, EarlyBirdController.CaptureDiffersOnReplay | EarlyBirdController.Capture, EarlyBirdController.CaptureIdempotent |
