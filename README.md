# Storefront core in Dafny

A model of the logic behind a clothing and custom-embroidery storefront. The backend is an Express
server over PostgreSQL, plus a Supabase edge function. The frontend is a React client. The
model covers:

- **Orders and payments (server).** Order creation runs in one transaction with the Razorpay
  gateway call inside it. The older non-transactional order route is modelled too. Payment
  verification compares an HMAC-SHA256 signature over `razorpay_order_id|razorpay_payment_id`.
  The gateway webhook maps events to order statuses. The admin can overwrite a status and set
  tracking fields. Both SQL builders number their `$n` placeholders with a running counter:
  the product list filter and the admin status update. The cart and wishlist statements are
  scoped to the calling user.
- **The `verify-razorpay-payment` edge function.** It runs the same signature gate, then
  updates the order. Its `hmac_sha256` helper hex-encodes the digest.
- **Client state.**
  - the shopping bag (`CartContext`) and the saved-products list (`WishlistContext`);
  - the customer and admin embroidery pages;
  - the admin product page, with its comma-separated colour and size fields and its image uploads;
  - the search dialog;
  - the shop page, whose filters live in the URL, and the request `productService` builds from them;
  - the product page's image carousel, quantity stepper and add-to-bag gate;
  - the sign-in / sign-up form.

## Modelling conventions

- **Each source file has its own module.**
- **JavaScript semantics live in shared modules.**
  - `Js` covers `Option`, numbers with `NaN`, truthiness, `parseInt`, `toString` and the `%`
    operator, whose result takes the dividend's sign.
  - `JsString` covers `toLowerCase`, `includes`, `trim`, `split` and `join`.
  - `UrlSearchParams` is an ordered list of pairs. It follows the URL standard's `get`,
    `set`, `append` and `delete`.
- **Code that works in place stays in place.**
  - Server handlers are methods that change a `Database` object, whose tables are maps from
    id to row.
  - React components whose handlers assign state become classes with those state fields.
  - Each method is specified by a pure function, and the properties are lemmas about those
    functions.
- **Money is an integer.**
- **Outside effects become parameters.**
  - HMAC-SHA256 is an uninterpreted function-typed parameter (`Hmac.Mac`).
  - The gateway's order creation, database refusals, server replies, upload results,
    clocks and the e-mail regex are all parameters, so every possible outcome is covered.
- **Postgres sequences are never rolled back.** A ROLLBACK restores the tables but not the
  id counters, as in PostgreSQL.

## Model

| member | source | states |
|---|---|---|
| ServerRoutes.CreateOrder | backend/index.js:339-397 | `POST /api/orders/create` leaves the tables exactly as `CreateOutcome` says; the cart and wishlist are untouched and the database invariant (ids below the sequences, rows under their ids) is kept |
| ServerRoutes.FinishCreate | backend/index.js:364-396 | after the item loop stops at the first refused line: ROLLBACK on a refused line or a gateway failure, otherwise the gateway id is written and the result committed |
| ServerRoutes.InsertItems | backend/index.js:356-362 | the item loop inserts one row per line, numbered from the item sequence, and stops at exactly the first line the database refuses |
| ServerRoutes.InsertOrder | backend/index.js:348-351 | the order is inserted as `pending` under the next order id, with no gateway id yet |
| ServerRoutes.Rollback | backend/index.js:391 | both order tables return to their state at BEGIN while the sequences keep their advanced values |
| ServerRoutes.SetGatewayOrderId | backend/index.js:382-385 | only the new order's `razorpay_order_id` changes |
| ServerRoutes.ItemRowsContent | backend/index.js:358-361 | the row for each line carries that line's product, quantity, price, size and colour and the order's id |
| ServerRoutes.ItemRowsCount | backend/index.js:356-362 | the loop adds one row per line |
| ServerRoutes.CreateFailureKeepsTables | backend/index.js:390-393 | all or nothing: a refused item or a gateway failure leaves no order and no item behind |
| ServerRoutes.CreateSucceedsIff | backend/index.js:356-389 | the route answers 200 exactly when every line is accepted and the gateway creates its order |
| ServerRoutes.CreateOutcomeOnSuccess | backend/index.js:364-389 | a 200 reply means the gateway succeeded and the committed state is the full creation |
| ServerRoutes.CreateSuccessOrders | backend/index.js:348-387 | on success exactly one order is added: `pending`, with its total and address and the gateway's order id; other orders are untouched |
| ServerRoutes.CreateSuccessKeepsItems | backend/index.js:356-387 | on success every earlier order item is kept |
| ServerRoutes.CreateSuccessNewItems | backend/index.js:356-387 | on success the new item rows belong to the new order and are exactly one per line |
| ServerRoutes.CreateSuccessRowOfLine | backend/index.js:358-361 | on success each line is stored as its own row of the new order |
| ServerRoutes.CreateReplyOmitsGatewayId | backend/index.js:352-389 | the reply carries the order as first inserted (no gateway id) while the stored order has it |
| ServerRoutes.CreateOrderLegacy | backend/index.js:455-497 | the older route calls the gateway first and inserts without a transaction: a gateway failure writes nothing, but a refused item answers 500 (`ServerError`) and leaves the order and the earlier items in place |
| ServerRoutes.VerifyOrder | backend/index.js:399-421 | with a matching signature the order named by `order_id` becomes `processing` with the payment id; a mismatch answers 400 and writes nothing; no key secret answers 500 |
| ServerRoutes.VerifyPayment | backend/index.js:500-524 | the same gate; a match also stores the signature and answers with the success message |
| ServerRoutes.VerifyDoesNotBindOrder | backend/index.js:403-413 | a valid signature for one gateway order marks any order id the request names, even one whose stored gateway id differs |
| ServerRoutes.EventStatus | backend/index.js:550-577 | `payment.captured` gives `processing`, `payment.failed` gives `failed`, `payment.authorized` gives `authorized`, and every other event gives nothing |
| ServerRoutes.Webhook | backend/index.js:527-584 | with a secret set, a header differing from the HMAC of the body answers 400 and writes nothing; a handled event rewrites the status of every order with that gateway id; any other event changes nothing and answers `ok`; a missing payload path answers 500 |
| ServerRoutes.AdminUpdateStatus | backend/index.js:623-654 | the admin route writes the status (and tracking fields, and `shipped_at` for `shipped`) to that order only, and replies with the updated row or nothing |
| ServerRoutes.AddCartRow | backend/index.js:162-173 | adding to the cart always inserts a new row under the next id; duplicates are not merged by the server |
| ServerRoutes.UpdateCartRow | backend/index.js:175-186 | the quantity update changes the caller's row only, replying with it, or with nothing for another user's or a missing row |
| ServerRoutes.DeleteCartItem | backend/index.js:188-195 | deletion removes the row only when it belongs to the caller |
| ServerRoutes.AddToWishlist | backend/index.js:212-223 | the insert with `ON CONFLICT DO NOTHING` keeps the (user, product) pairs unique |
| ServerRoutes.RemoveFromWishlist | backend/index.js:225-232 | removes exactly that user's pair |
| ServerDb.NewOrder | backend/index.js:348-351 | a new order is `pending` with no payment id, no signature and no shipping date |
| ServerDb.TablesValidLaterIds | backend/index.js:342-391 | advancing the id sequences (as a rolled-back transaction does) keeps the tables valid |
| ServerDb.SetStatusByGatewayOrder | backend/index.js:553-572 | every order whose gateway id equals the payload's gets the status, every other order is unchanged, and an absent id matches nothing |
| ServerDb.SetStatusIdempotent | backend/index.js:553-572 | replaying a webhook event changes nothing more |
| ServerDb.SetStatusLastWins | backend/index.js:553-572 | there is no transition guard: the later of two events wins, so a `failed` can overwrite a `processing` |
| ServerDb.MarkProcessing | backend/index.js:410-413 | the verification update sets `processing` and the written columns on the named order only |
| ServerDb.MarkProcessingIgnoresStoredGatewayId | backend/index.js:409-413 | the update's result does not depend on the gateway id stored on the order |
| ServerDb.MarkProcessingIdempotent | backend/index.js:410-413 | verifying twice leaves what one verification left |
| ServerDb.AdminSetStatus | backend/index.js:626-649 | the admin update rewrites that order's status, sets tracking fields only when given and `shipped_at` only for `shipped`, and leaves every other order alone |
| ServerDb.AdminSetStatusIdempotent | backend/index.js:626-649 | repeating an admin update gives what the later one alone gives |
| ServerDb.AdminSetStatusUnguarded | backend/index.js:626 | any status can be written over any status |
| ServerDb.UpdateCartQuantity | backend/index.js:178-181 | the row changes only when it exists and belongs to the caller, and only its quantity changes |
| ServerDb.DeleteCartRow | backend/index.js:190 | removes the row only when it belongs to the caller; every other row keeps its content |
| ServerDb.CartWritesKeepOthersRows | backend/index.js:175-195 | cart statements never touch another user's rows |
| ServerDb.WishlistInsert | backend/index.js:215-218 | the pair is present afterwards, nothing else is added, and uniqueness is kept |
| ServerDb.WishlistInsertIdempotent | backend/index.js:216 | inserting a pair twice is inserting it once |
| ServerDb.WishlistDelete | backend/index.js:227 | removes exactly the pair and keeps uniqueness |
| SqlQuery.ProductListQuery | backend/index.js:235-273 | the placeholders run consecutively from 1 and match the parameter list, search shares one number between its two `ILIKE`s, the query binds to the reference SQL with values in place, and `ORDER BY created_at DESC` is last |
| SqlQuery.AddCategory | backend/index.js:242-246 | a truthy category other than `All` adds one condition with the next number and one parameter |
| SqlQuery.AddSearch | backend/index.js:248-252 | a truthy search adds the name-or-description condition with one parameter referenced twice |
| SqlQuery.AddMinPrice | backend/index.js:254-258 | a truthy minimum adds one condition and one parameter |
| SqlQuery.AddMaxPrice | backend/index.js:260-264 | a truthy maximum adds one condition and one parameter |
| SqlQuery.PushCondition | backend/index.js:242-264 | appending a condition with `$paramCount` and pushing its value keeps the numbering consecutive and the binding right |
| SqlQuery.PushSearch | backend/index.js:248-252 | the search condition keeps the numbering with one parameter for two placeholders |
| SqlQuery.AppendCondition | backend/index.js:242-264 | appending text and the next placeholder with its parameter keeps a well-numbered query and extends its binding |
| SqlQuery.AppendSearch | backend/index.js:248-252 | the twice-referenced search parameter keeps a well-numbered query |
| SqlQuery.CategoryAllIsNoFilter | backend/index.js:242 | category `All` gives the same query as no category |
| SqlQuery.AdminStatusQuery | backend/index.js:626-647 | status is `$1`, each given tracking field takes the next number, the id is the last parameter, every placeholder is used once, and the statement binds to the reference SQL |
| SqlQuery.StatusPrefix | backend/index.js:626-628 | the statement starts with status as `$1` and one parameter |
| SqlQuery.AddOptionalColumn | backend/index.js:630-640 | a truthy tracking value adds its column with the next number and one parameter; a falsy one adds nothing |
| SqlQuery.AddShipped | backend/index.js:642-644 | `shipped_at = now()` is appended only for `shipped`, without a parameter |
| SqlQuery.AddWhereId | backend/index.js:646-647 | the id takes the last number and is the last parameter |
| SqlQuery.ShippedAtIffShipped | backend/index.js:642-644 | `shipped_at` is set exactly when the new status is `shipped` |
| Hmac.PadStart | backend/supabase/functions/verify-razorpay-payment/index.ts:80 | the padded string has the requested length, or keeps its own when already longer |
| Hmac.ByteToHexDigits | backend/supabase/functions/verify-razorpay-payment/index.ts:80 | each byte becomes exactly two lowercase hex digits, high nibble first |
| Hmac.HexEncodeLength | backend/supabase/functions/verify-razorpay-payment/index.ts:79-81 | the encoding is twice as long as the digest |
| Hmac.DecodeEncode | backend/supabase/functions/verify-razorpay-payment/index.ts:79-81 | decoding the hex encoding gives the bytes back |
| Hmac.HexEncodeInjective | backend/supabase/functions/verify-razorpay-payment/index.ts:79-81 | distinct digests give distinct signatures |
| Hmac.SignedMessage | backend/supabase/functions/verify-razorpay-payment/index.ts:25 | the signed message is the gateway order id, a `|`, then the payment id |
| Hmac.SignedMessageInjective | backend/index.js:403 | when gateway order ids contain no `|`, the message determines both ids |
| Hmac.SignedMessageAmbiguous | backend/index.js:403 | without that condition two different id pairs share one message |
| VerifyPaymentFunction.Secret | backend/supabase/functions/verify-razorpay-payment/index.ts:23 | an absent or empty key secret falls back to `placeholder_secret` |
| VerifyPaymentFunction.FieldWrite | backend/supabase/functions/verify-razorpay-payment/index.ts:41-46 | an undefined field is left out of the update, a present one is written |
| VerifyPaymentFunction.Handle | backend/supabase/functions/verify-razorpay-payment/index.ts:10-67 | a preflight answers `ok`; a signature mismatch answers 400 before any database call; a match updates only the row with that id to `processing` with the request's ids; a database error answers 400 |
| VerifyPaymentFunction.UpdateStoresRequestIds | backend/supabase/functions/verify-razorpay-payment/index.ts:39-47 | a successful verification stores every id the request carried, on that order only |
| VerifyPaymentFunction.AcceptedSignatureIsLowerHex | backend/supabase/functions/verify-razorpay-payment/index.ts:29-31 | only lowercase hex of even length can pass the gate |
| VerifyPaymentFunction.PlaceholderKeyWhenUnset | backend/supabase/functions/verify-razorpay-payment/index.ts:23 | with no secret configured the gate still runs, under the placeholder key |
| CartContext.Find | frontend/src/contexts/CartContext.tsx:90-92 | the first line with that (product, size, colour) key, or none exactly when no line has it |
| CartContext.RemoveId | frontend/src/contexts/CartContext.tsx:117 | the filter never lengthens the list |
| CartContext.WithQuantity | frontend/src/contexts/CartContext.tsx:134-138 | the map keeps the length |
| CartContext.ItemOfRow | frontend/src/contexts/CartContext.tsx:52-69 | a loaded line keeps the row's id, product id and quantity; a null size or colour becomes empty; the product has no sizes or colours and is not new |
| CartContext.Cart.constructor | frontend/src/contexts/CartContext.tsx:33-34 | the bag starts empty and closed |
| CartContext.Cart.UserChanged | frontend/src/contexts/CartContext.tsx:38-77 | signing out empties the bag; signing in loads the server's rows, or keeps the list when loading fails |
| CartContext.Cart.AddToCart | frontend/src/contexts/CartContext.tsx:82-110 | without a user nothing changes and the browser goes to `/auth`; otherwise the list becomes `AfterAdd` and the bag opens only for a newly added line |
| CartContext.Cart.RemoveFromCart | frontend/src/contexts/CartContext.tsx:112-122 | without a user nothing changes; otherwise the list is filtered by id when the call succeeds |
| CartContext.Cart.UpdateQuantity | frontend/src/contexts/CartContext.tsx:124-142 | without a user nothing changes; below one it removes; otherwise it sets the quantity when the call succeeds |
| CartContext.Cart.ClearCart | frontend/src/contexts/CartContext.tsx:144-154 | a signed-in successful clear empties the list; otherwise it is unchanged |
| CartContext.Cart.Checkout | frontend/src/contexts/CartContext.tsx:156-170 | sends to `/auth` without a user, does nothing for an empty bag, else closes the bag and goes to `/checkout` |
| CartContext.WithQuantityAt | frontend/src/contexts/CartContext.tsx:134-138 | exactly the lines with that id get the new quantity, the others are unchanged |
| CartContext.WithQuantityKeepsKeys | frontend/src/contexts/CartContext.tsx:134-138 | changing a quantity keeps every line's key |
| CartContext.RemoveIdAppend | frontend/src/contexts/CartContext.tsx:117 | the filter keeps the order of what it keeps |
| CartContext.RemoveIdMembers | frontend/src/contexts/CartContext.tsx:117 | the filter keeps exactly the lines with another id |
| CartContext.RemoveAbsentId | frontend/src/contexts/CartContext.tsx:117 | removing an absent id changes nothing |
| CartContext.RemoveIdKeepsKeysUnique | frontend/src/contexts/CartContext.tsx:117 | removal keeps keys unique |
| CartContext.RemoveIdShorter | frontend/src/contexts/CartContext.tsx:117 | removing a present id shortens the list |
| CartContext.AddExistingMerges | frontend/src/contexts/CartContext.tsx:89-97 | adding a present key changes that line's quantity by `quantity` and adds no line |
| CartContext.AddExistingBelowOneRemoves | frontend/src/contexts/CartContext.tsx:94-97 | when the merged quantity drops below one the line is removed |
| CartContext.AddNewAppends | frontend/src/contexts/CartContext.tsx:100-104 | a new key appends one line at the end with the server's id; earlier lines are unchanged |
| CartContext.FailedCallsKeepItems | frontend/src/contexts/CartContext.tsx:107-141 | a failed server call leaves the list unchanged on every path |
| CartContext.AddKeepsKeysUnique | frontend/src/contexts/CartContext.tsx:89-104 | adding keeps (product, size, colour) keys unique |
| CartContext.UpdateKeepsKeysUnique | frontend/src/contexts/CartContext.tsx:112-142 | updating and removing keep keys unique |
| CartContext.UpdateBelowOneRemoves | frontend/src/contexts/CartContext.tsx:127-130 | a quantity below one is a removal: no line with that id is left |
| CartContext.UpdateChangesOnlyMatching | frontend/src/contexts/CartContext.tsx:133-138 | a quantity of one or more changes only the matching lines' quantity |
| CartContext.FoldsAppend | frontend/src/contexts/CartContext.tsx:172-177 | total and item count split over concatenation |
| CartContext.TotalBoundsLine | frontend/src/contexts/CartContext.tsx:172-177 | with non-negative prices and quantities, every line contributes its full price times quantity |
| CartContext.NonNegativeFolds | frontend/src/contexts/CartContext.tsx:172-177 | with non-negative prices and quantities, total and item count are non-negative |
| CartContext.WithQuantityCount | frontend/src/contexts/CartContext.tsx:95 | merging into a line with a unique id changes the item count by exactly the difference |
| CartContext.CountOnePlaceChanged | frontend/src/contexts/CartContext.tsx:177 | lists differing at one place differ in item count by that line |
| WishlistContext.Includes | frontend/src/contexts/WishlistContext.tsx:42 | `isInWishlist` is true exactly when the list holds that id itself; a loaded row never matches |
| WishlistContext.Loaded | frontend/src/contexts/WishlistContext.tsx:28-40 | the list after a load holds the server's rows, one entry per row, in order |
| WishlistContext.LoadedMatchesNoId | frontend/src/contexts/WishlistContext.tsx:33-42 | after a load no product is in the list, saved or not |
| WishlistContext.ToggleSavedAfterLoadAppends | frontend/src/contexts/WishlistContext.tsx:50-58 | toggling a product the server has saved, right after a load, takes the add branch: its row stays and its id is appended |
| WishlistContext.Without | frontend/src/contexts/WishlistContext.tsx:53 | the filter never lengthens the list |
| WishlistContext.Wishlist.constructor | frontend/src/contexts/WishlistContext.tsx:17-18 | the list starts empty |
| WishlistContext.Wishlist.UserChanged | frontend/src/contexts/WishlistContext.tsx:20-40 | signing out empties the list; signing in stores the rows the server returns (not their ids), so afterwards no product is found in the list; a failed load keeps the list |
| WishlistContext.Wishlist.Toggle | frontend/src/contexts/WishlistContext.tsx:44-63 | without a user or after a failed call nothing changes; otherwise the list is toggled |
| WishlistContext.WithoutMembers | frontend/src/contexts/WishlistContext.tsx:53 | the filter keeps exactly the entries other than that id, rows included |
| WishlistContext.WithoutAbsent | frontend/src/contexts/WishlistContext.tsx:53 | an absent id leaves the list as it is |
| WishlistContext.WithoutAppend | frontend/src/contexts/WishlistContext.tsx:53 | the filter keeps the order |
| WishlistContext.WithoutShorter | frontend/src/contexts/WishlistContext.tsx:53 | removing a present id shortens the list |
| WishlistContext.ToggleFlips | frontend/src/contexts/WishlistContext.tsx:50-59 | toggling flips that id's membership and no other entry's |
| WishlistContext.ToggleAbsentAppends | frontend/src/contexts/WishlistContext.tsx:56-58 | an absent id is appended at the end |
| WishlistContext.TogglePresentRemovesAll | frontend/src/contexts/WishlistContext.tsx:51-54 | a present id loses every occurrence |
| WishlistContext.ToggleTwice | frontend/src/contexts/WishlistContext.tsx:50-59 | toggling twice restores membership, and restores the list itself when the id was absent |
| Embroidery.ShippingCost | frontend/src/pages/Embroidery.tsx:156 | 80 exactly when the lower-cased state is `andhra pradesh`, 150 otherwise |
| Embroidery.ShippingIgnoresCase | frontend/src/pages/Embroidery.tsx:156 | the fee ignores letter case, and an empty state pays 150 |
| Embroidery.StatusColor | frontend/src/pages/Embroidery.tsx:131-141 | each of the six statuses has its colour class, anything else the gray one |
| Embroidery.StatusMessage | frontend/src/pages/Embroidery.tsx:143-153 | each of the six statuses has its message, anything else `Status unknown` |
| Embroidery.StatusMessagesDistinct | frontend/src/pages/Embroidery.tsx:143-153 | the messages tell all statuses apart |
| Embroidery.StatusColorsDistinct | frontend/src/pages/Embroidery.tsx:131-141 | the colours tell all statuses apart |
| Embroidery.ShowsQuoteActions | frontend/src/pages/Embroidery.tsx:650 | accept and reject appear only for a quoted request with a positive design cost |
| Embroidery.QuoteActionsOnlyWhenQuoted | frontend/src/pages/Embroidery.tsx:650 | the actions show only beside the quoted message, and never without a positive cost |
| Embroidery.DisplayedTotal | frontend/src/pages/Embroidery.tsx:636 | the total cost, falling back to shipping when it is 0 or absent |
| Embroidery.RejectionReason | frontend/src/pages/Embroidery.tsx:116 | the typed reason, or `Cost not acceptable` when empty; never empty |
| Embroidery.ImageAccepted | frontend/src/pages/Embroidery.tsx:184-187 | a file is accepted exactly when it is at most 5 MiB |
| Embroidery.ImageLimitExact | frontend/src/pages/Embroidery.tsx:184 | exactly 5 MiB passes, one byte more is refused |
| Embroidery.SubmitGate | frontend/src/pages/Embroidery.tsx:233-242 | a request is sent exactly when a user is signed in and an image is chosen; without a user the sign-in comes first |
| AdminEmbroidery.IsRejectedByUser | frontend/src/pages/admin/AdminEmbroidery.tsx:111-115 | a flagged request is cancelled with notes containing `[User Rejection]` |
| AdminEmbroidery.RejectedByUserIff | frontend/src/pages/admin/AdminEmbroidery.tsx:111-115 | and every such request is flagged |
| AdminEmbroidery.NeedsActionIsRanked | frontend/src/pages/admin/AdminEmbroidery.tsx:121-123 | the highlighted requests are exactly the pending and approved ones, those ranked first |
| AdminEmbroidery.Visible | frontend/src/pages/admin/AdminEmbroidery.tsx:270 | the tab shows only requests from the list |
| AdminEmbroidery.VisibleAll | frontend/src/pages/admin/AdminEmbroidery.tsx:270 | the `all` tab shows every request |
| AdminEmbroidery.VisibleStatus | frontend/src/pages/admin/AdminEmbroidery.tsx:270 | another tab shows exactly the requests with that status |
| AdminEmbroidery.CountIsOccurrences | frontend/src/pages/admin/AdminEmbroidery.tsx:174-264 | each summary and tab count is the number of requests with that status, and the tab's length |
| AdminEmbroidery.Rank | frontend/src/pages/admin/AdminEmbroidery.tsx:273-276 | approved ranks first, then pending, then the rest |
| AdminEmbroidery.CompareIsRankThenNewest | frontend/src/pages/admin/AdminEmbroidery.tsx:271-277 | the comparator orders by rank and then newest first, and is zero only for equal rank and date |
| AdminEmbroidery.CompareAntisymmetric | frontend/src/pages/admin/AdminEmbroidery.tsx:271-277 | swapping the arguments negates the comparator |
| AdminEmbroidery.PrecedesTotalAndTransitive | frontend/src/pages/admin/AdminEmbroidery.tsx:271-277 | the order it induces is total and transitive, so it is consistent |
| AdminEmbroidery.Insert | frontend/src/pages/admin/AdminEmbroidery.tsx:271-278 | inserting into a sorted list keeps it sorted and adds exactly the one request |
| AdminEmbroidery.InsertTies | frontend/src/pages/admin/AdminEmbroidery.tsx:271-278 | the inserted request goes after every request it ties with |
| AdminEmbroidery.SortRequests | frontend/src/pages/admin/AdminEmbroidery.tsx:271-278 | the sorted list is a permutation of the input, in comparator order |
| AdminEmbroidery.SortKeepsTiedOrder | frontend/src/pages/admin/AdminEmbroidery.tsx:271-278 | the sort is stable: requests of equal rank and date keep the server's order |
| AdminEmbroidery.SortedMeansRankThenNewest | frontend/src/pages/admin/AdminEmbroidery.tsx:271-277 | sorted means grouped by rank, newest first within a rank |
| AdminEmbroidery.FindById | frontend/src/pages/admin/AdminEmbroidery.tsx:135-136 | a found request has that id; none is found only when no request has it |
| AdminEmbroidery.StartWorkBody | frontend/src/pages/admin/AdminEmbroidery.tsx:133-137 | Start Work always sends `in_progress` |
| AdminEmbroidery.StartWorkKeepsQuote | frontend/src/pages/admin/AdminEmbroidery.tsx:133-137 | it keeps the request's design cost and notes (0 and empty when null) |
| AdminEmbroidery.StartWorkUnknownId | frontend/src/pages/admin/AdminEmbroidery.tsx:135-136 | an unknown id sends cost 0 and empty notes |
| AdminEmbroidery.AdminEmbroideryPage.constructor | frontend/src/pages/admin/AdminEmbroidery.tsx:28-35 | the page opens loading, with an empty form and the `all` tab |
| AdminEmbroidery.AdminEmbroideryPage.Fetch | frontend/src/pages/admin/AdminEmbroidery.tsx:41-58 | loading ends; the list is replaced on success and kept on failure |
| AdminEmbroidery.AdminEmbroideryPage.Listed | frontend/src/pages/admin/AdminEmbroidery.tsx:269-278 | the list shown is the current tab's requests, sorted by the comparator |
| AdminEmbroidery.AdminEmbroideryPage.HandleEdit | frontend/src/pages/admin/AdminEmbroidery.tsx:60-65 | the form takes the request's id, status, printed cost (empty when null) and notes |
| AdminEmbroidery.AdminEmbroideryPage.HandleCancel | frontend/src/pages/admin/AdminEmbroidery.tsx:92-97 | the form is closed and emptied |
| AdminEmbroidery.AdminEmbroideryPage.SetFilter | frontend/src/pages/admin/AdminEmbroidery.tsx:230-261 | a tab click changes only the filter |
| AdminProducts.TrimAll | frontend/src/pages/admin/AdminProducts.tsx:113 | every piece is trimmed, and the count is kept |
| AdminProducts.NonEmpty | frontend/src/pages/admin/AdminProducts.tsx:114 | only non-empty pieces are kept |
| AdminProducts.ParsedEntriesClean | frontend/src/pages/admin/AdminProducts.tsx:111-119 | parsed entries are non-empty, without surrounding white space and without commas |
| AdminProducts.ParseEmpty | frontend/src/pages/admin/AdminProducts.tsx:111-114 | an empty field parses to no entries |
| AdminProducts.ParseJoin | frontend/src/pages/admin/AdminProducts.tsx:177-207 | joining clean entries with `", "` as the edit form does and parsing as the update does gives the list back |
| AdminProducts.TrimPieces | frontend/src/pages/admin/AdminProducts.tsx:201 | trimming the pieces of a joined list strips the spaces `", "` left |
| AdminProducts.FilterProducts | frontend/src/pages/admin/AdminProducts.tsx:229-232 | the search never lengthens the list |
| AdminProducts.FilterProductsIff | frontend/src/pages/admin/AdminProducts.tsx:229-232 | a product is listed exactly when its lower-cased name or category contains the lower-cased term |
| AdminProducts.EmptySearchKeepsAll | frontend/src/pages/admin/AdminProducts.tsx:229-232 | an empty search lists every product, in order |
| AdminProducts.StockColor | frontend/src/pages/admin/AdminProducts.tsx:439 | green above 10, orange for 1 to 10, red at 0 or below |
| AdminProducts.FormOf | frontend/src/pages/admin/AdminProducts.tsx:169-183 | the edit form carries the product's name, category, description (empty when absent), flags and lists joined by `", "`; price and stock are printed in decimal and `parseInt` reads them back |
| AdminProducts.EditThenSaveKeepsFields | frontend/src/pages/admin/AdminProducts.tsx:169-214 | saving an untouched edit form sends back the product's stock, colours and sizes |
| AdminProducts.UploadedUrls | frontend/src/pages/admin/AdminProducts.tsx:105-109 | the URLs of the uploads, one per file, in order |
| AdminProducts.CollectImageUrls | frontend/src/pages/admin/AdminProducts.tsx:191-197 | the loop keeps the existing images in order and appends each upload after them; a failed upload stops it |
| AdminProducts.AdminProductsPage.constructor | frontend/src/pages/admin/AdminProducts.tsx:54-76 | the page opens with an empty form whose `is_new` is true |
| AdminProducts.AdminProductsPage.Shown | frontend/src/pages/admin/AdminProducts.tsx:229-232 | the rows shown are products matching the search box |
| AdminProducts.AdminProductsPage.EditProduct | frontend/src/pages/admin/AdminProducts.tsx:169-183 | selects the product, fills the form from it and opens the edit dialog |
| AdminProducts.AdminProductsPage.AddProduct | frontend/src/pages/admin/AdminProducts.tsx:100-150 | sends the form's product with the uploaded images when every upload succeeds; after a created product the form resets to empty with `is_new` true and the dialog closes |
| AdminProducts.AdminProductsPage.UpdateProduct | frontend/src/pages/admin/AdminProducts.tsx:185-227 | without a selection nothing happens; otherwise it sends the selected id with the existing images followed by the uploads |
| SearchDialog.Filter | frontend/src/components/SearchDialog.tsx:21-26 | the filter only keeps products from the catalogue |
| SearchDialog.FilterIff | frontend/src/components/SearchDialog.tsx:21-26 | a product is kept exactly when it matches the query on name or description, the category (or `All`) and the inclusive price range |
| SearchDialog.OpenFilterKeepsPriceRange | frontend/src/components/SearchDialog.tsx:16-26 | with the dialog's initial query and category only the price range filters |
| SearchDialog.Insert | frontend/src/components/SearchDialog.tsx:27-29 | inserting into a list sorted by price keeps it sorted and adds exactly one product |
| SearchDialog.SortBy | frontend/src/components/SearchDialog.tsx:27-29 | the price sort is a permutation in key order |
| SearchDialog.InsertPricedAt | frontend/src/components/SearchDialog.tsx:27-29 | the inserted product goes after every product of its price |
| SearchDialog.SortKeepsEqualPrices | frontend/src/components/SearchDialog.tsx:28-29 | the sort is stable: in any list, the products of each price come out in their input order |
| SearchDialog.Sort | frontend/src/components/SearchDialog.tsx:27-32 | a permutation: `price-low` gives non-decreasing prices, `price-high` non-increasing |
| SearchDialog.ResultsAreMatches | frontend/src/components/SearchDialog.tsx:21-32 | the results are exactly the matching products, each as often as in the catalogue |
| SearchDialog.Shown | frontend/src/components/SearchDialog.tsx:146 | at most six results are rendered: the first six, or all when fewer |
| SearchDialog.ViewAllParams | frontend/src/components/SearchDialog.tsx:40-47 | the successive `set` calls build the shop link's parameters |
| SearchDialog.ViewAllLinkQuery | frontend/src/components/SearchDialog.tsx:42 | `q` is in the link exactly when a query was typed |
| SearchDialog.ViewAllLinkCategory | frontend/src/components/SearchDialog.tsx:43 | `category` is in the link exactly when it is not `All` |
| SearchDialog.ViewAllLinkRangeAndSort | frontend/src/components/SearchDialog.tsx:44-46 | the price range and the sort are always in the link |
| SearchDialog.ViewAllLinkKeys | frontend/src/components/SearchDialog.tsx:41-46 | no other parameter is in the link |
| Shop.ReadDefaults | frontend/src/pages/Shop.tsx:20-25 | absent or empty parameters read as no query, category `All`, prices 0 to 500, sort `newest`, no filter |
| Shop.DefaultPricesParse | frontend/src/pages/Shop.tsx:22-23 | `parseInt` reads the default strings as 0 and 500 |
| Shop.DefaultsInactive | frontend/src/pages/Shop.tsx:76 | the defaults (with any sort) are no active filter |
| Shop.Heading | frontend/src/pages/Shop.tsx:98 | `New Arrivals` for the `new` filter, else the category when not `All`, else `All Products` |
| Shop.FilterUpdatedEffect | frontend/src/pages/Shop.tsx:54-62 | `updateFilter` sets the key to a non-empty value other than `All` and deletes it otherwise; every other key keeps its value |
| Shop.ChooseCategory | frontend/src/pages/Shop.tsx:131 | choosing a category shows it in the heading and makes a filter active; choosing `All` returns to every category |
| Shop.PriceAppliedReadsBack | frontend/src/pages/Shop.tsx:64-69 | after applying, the page reads back exactly the slider's range with every other filter as it was |
| Shop.RequestIgnoresQuery | frontend/src/pages/Shop.tsx:36-43 | the search box, the sort and the `new` filter never reach the product request, and a minimum of 0 is not sent |
| Shop.ShopPage.constructor | frontend/src/pages/Shop.tsx:27 | the slider starts on the range read from the URL |
| Shop.ShopPage.UpdateFilter | frontend/src/pages/Shop.tsx:54-62 | the parameters become `FilterUpdated` and the slider is untouched |
| Shop.ShopPage.SetLocalRange | frontend/src/pages/Shop.tsx:150 | moving the slider changes only the local range |
| Shop.ShopPage.ApplyPriceRange | frontend/src/pages/Shop.tsx:64-69 | only the two prices change, to the local range |
| Shop.ShopPage.ClearFilters | frontend/src/pages/Shop.tsx:71-74 | no parameters remain, the slider is back at 0 to 500, and no filter is active |
| ProductService.GetAllProductsParams | frontend/src/services/productService.ts:9-26 | the parameters appended are exactly the usable filters, in the order category, search, minPrice, maxPrice |
| ProductService.ExpectedParamsKeys | frontend/src/services/productService.ts:12-23 | a key is present exactly when its filter is truthy (and, for category, not `All`), so 0 and NaN prices are left out |
| ProductService.ExpectedParamsValues | frontend/src/services/productService.ts:12-23 | reading a key back gives the filter's own value, printed for prices |
| ProductDetail.NextImage | frontend/src/pages/ProductDetail.tsx:83 | the index stays in range and wraps from the last image to the first |
| ProductDetail.PrevImage | frontend/src/pages/ProductDetail.tsx:87 | the index stays in range and wraps from the first image to the last |
| ProductDetail.NextThenPrev | frontend/src/pages/ProductDetail.tsx:82-88 | the arrows undo each other |
| ProductDetail.NextTimes | frontend/src/pages/ProductDetail.tsx:83 | any number of presses keeps the index in range |
| ProductDetail.NextCycles | frontend/src/pages/ProductDetail.tsx:83 | from the first image, `next` visits every image in order and returns to the first after n presses |
| ProductDetail.Decrease | frontend/src/pages/ProductDetail.tsx:238 | the minus button never goes below 1 |
| ProductDetail.Increase | frontend/src/pages/ProductDetail.tsx:246 | the plus button adds exactly one |
| ProductDetail.QuantityAtLeastOne | frontend/src/pages/ProductDetail.tsx:238-246 | any run of clicks keeps the quantity at least 1, and minus undoes plus |
| ProductDetail.AddToCartCall | frontend/src/pages/ProductDetail.tsx:72-80 | `addToCart` is called exactly when both a size and a colour are selected, with those and the quantity |
| ProductDetail.UnlistedNeverAdded | frontend/src/pages/ProductDetail.tsx:188-231 | a product without listed sizes or colours can never be added |
| ProductDetail.DisabledAndGate | frontend/src/pages/ProductDetail.tsx:262 | every add comes from an enabled button, but the button of a product without sizes is enabled and does nothing |
| Auth.AllDigitsIff | frontend/src/pages/Auth.tsx:13 | `\d{9}` up to the end means every character is a digit |
| Auth.MobileValidIff | frontend/src/pages/Auth.tsx:13 | a mobile number is valid exactly when it has 10 characters, all digits, the first 6 to 9 |
| Auth.KeyCount | frontend/src/pages/Auth.tsx:58 | the key count is zero exactly when no error was recorded |
| Auth.ErrorsExplained | frontend/src/pages/Auth.tsx:37-58 | each error is recorded exactly when its check fails, and the form passes exactly when all checks pass |
| Auth.MobileOnlyCheckedOnSignUp | frontend/src/pages/Auth.tsx:50-55 | in sign-in mode, or with the field empty, the mobile number never produces an error |
| Auth.RouteAfterAuth | frontend/src/pages/Auth.tsx:79-83 | role `admin` goes to `/admin`, anything else to `/` |
| Auth.RedirectSignedIn | frontend/src/pages/Auth.tsx:27-35 | a signed-in user is sent away once loading ends, to the page for their role |
| Auth.FailureToast | frontend/src/pages/Auth.tsx:71-92 | the two known failures are reworded for their mode; any other message is shown as it is |
| Auth.AuthPage.constructor | frontend/src/pages/Auth.tsx:18-24 | the form opens in sign-in mode, empty and without errors |
| Auth.AuthPage.ValidateForm | frontend/src/pages/Auth.tsx:37-59 | records exactly the expected errors and returns true exactly when there are none |
| Auth.AuthPage.Submit | frontend/src/pages/Auth.tsx:61-107 | an invalid form sends nothing; otherwise the toast and the route follow the response, and submitting ends |
| Auth.AuthPage.ToggleMode | frontend/src/pages/Auth.tsx:253-256 | switching mode clears every error |
| UrlSearchParams.Get | frontend/src/pages/Shop.tsx:20-25 | `get` finds a value exactly when the key is present |
| UrlSearchParams.Delete | frontend/src/pages/Shop.tsx:59 | `delete` removes every pair with the key and keeps the others in order |
| UrlSearchParams.Set | frontend/src/pages/Shop.tsx:57 | after `set` the key reads back the new value and every other key reads as before |
| UrlSearchParams.GetAppend | frontend/src/services/productService.ts:13 | after `append`, `get` still returns an existing value of the key, returns the new value for a new key, and is unchanged for every other key |
| Js.ParsePrinted | frontend/src/pages/Shop.tsx:66-67 | `parseInt` of `toString()` of a whole number gives the number back, `NaN` included |
| Js.Remainder | frontend/src/pages/ProductDetail.tsx:87 | JavaScript `%` takes the dividend's sign, stays below the divisor in size, and is the dividend itself below the divisor |
| JsString.Trim | frontend/src/pages/admin/AdminProducts.tsx:113 | the trimmed string has no white space at either end and is no longer than the original |
| JsString.TrimOfTrimmed | frontend/src/pages/admin/AdminProducts.tsx:113 | trimming a trimmed string changes nothing |
| JsString.Split | frontend/src/pages/admin/AdminProducts.tsx:112 | there is at least one piece and no piece contains the separator |

## Left out

- Floating-point money is not modelled. Prices and totals are integers. There is no `Math.round(total * 100)`, no `parseFloat` of prices, and neither the 18% checkout tax nor the 10% back-calculation.
- `toLowerCase` folds ASCII letters only. The search filters and the shipping-state test use it, so Unicode case folding is left out.
- The password check counts Dafny characters, not UTF-16 code units.
- `SearchDialog.Sort`: for `newest` (and any other value) it promises the filtered order unchanged. The source's `newest` comparator is not a consistent comparator, so the source promises no order there.
- The e-mail check (zod's e-mail regex) is an input `emailValid`, not a model of the regex.
- Network, database and browser I/O are outcome parameters; this covers the Razorpay SDK, the Supabase client, `fetch` and `localStorage`. The pool, connection release and `console` logging are not modelled.
- JWT, bcrypt, the sign-in and sign-up routes, and authorisation middleware are left out. Handlers receive the authenticated user id.
- HMAC-SHA256 is an uninterpreted function, so no property of the hash itself is used.
- Concurrency is not modelled: each handler is one sequential step, with no races between the webhook and client verification.
- Database refusals are modelled only where the source reacts to them. Refused order items are a parameter. The order insert and the cart and wishlist statements never fail in the model, and neither does a malformed id.
- JSON parsing, `null` versus `undefined`, and Express body handling are reduced to `Option` fields.
- The toasts are modelled only on the auth page. Elsewhere the model keeps the state change, not the message.
- Image compression (canvas resize, FileReader) and file selection are left out. The embroidery request form, its submission and its refetches are left out too. Only the submit gate and the size limit are kept.
- `handleUpdate` on the admin embroidery page (a `parseFloat` cost sent to the server) is not modelled.
- `loadCart` builds products without a stock field; the model's product has stock 0 there.
- `created_at` is an integer timestamp; date parsing is not modelled.
- `URLSearchParams.toString()` and the navigation URLs are not modelled: links are the parameter lists.
- ProductDetail keeps `selectedImage` when the product changes, so the index can be stale. The model only states the index's behaviour within one product.
- Thin request wrappers are not modelled: `lib/api.ts`, `adminService`, `orderService`, the `create-razorpay-order` function, `getFeaturedProducts` and `getProductById`.
- AdminOrders and AdminReviews are not modelled; their only logic is a substring filter of the kind modelled for admin products.
- The seed, migration and check scripts are not modelled.
- Rendering is not modelled.
- `CreateOrderLegacy` receives `address` as the text `JSON.stringify(shipping_address)` produces. JSON serialization is not modelled.
- `Cart.AddToCart` takes the quantity from its caller. The default `quantity = 1` of `addToCart` is not modelled, so a call that omits it is a call with 1.
- `AdminUpdateStatus` takes the status as a string. A body without `status` binds NULL in the source; the model cannot represent that.
