# Cookie Gallery — a Dafny model of its decision logic

Cookie Gallery is a small shop. A React front end lists a fixed catalog of cookies, keeps a cart, and takes payment through Razorpay. An Express back end creates gateway orders, checks payment signatures, receives the gateway's webhook, and stores users and orders in Firestore. Firebase Auth signs users in.

This project models the parts of that system that make decisions, and proves properties about them:

- **The back end's request gates** (module `Server`). Each route is one total function from what the request holds to the status and body it answers with. The start-up flags `adminDb` and `razorpay`, and the `req.user` field written by the `requireAuth` middleware, are state: the `Backend` and `Request` classes.
- **The cart and the checkout arithmetic** (modules `CartContext`, `Home`, `CookieCard`, `Checkout`, `Cookies`). The checkout page's payment handler is a class that changes its message, its loading flag and the shared cart step by step.
- **The carousel's index arithmetic** (module `StackedCardCarousel`). The index is a class field stepped by `prev` and `next`. Each card's stacking depends only on its offset from the front card.
- **The auth provider's session policies** (module `AuthContext`): the backend-restart check over `sessionStorage`, the once-per-load sign-out, and the guarded sign-out. They form a small state machine.
- **Routing** (modules `App` and `ProtectedRoutes`), and **the reviews strip** (module `ReviewsSection`).

Collaborators that cannot be seen are parameters of the model:

- HMAC-SHA256 with hex output, as RFC 2104 defines it over the SHA-256 of FIPS 180-4, is the function parameter `hmacSha256Hex(key, message)`.
- Firebase's `verifyIdToken` is a parameter `verifyIdToken`.
- The gateway's `orders.create` is a parameter `gateway`.
- `Date.now()` is a number `now`.
- `JSON.stringify(req.body)` is the text `serializedBody`.
- The outcomes of Firestore writes, `fetch` calls, script loading and the payment modal are inputs.

JavaScript's own semantics are written out where the code relies on them:

- truthiness and `||` (`JsValues.Truthy`, `JsValues.OrElse`);
- `split(' ')` (`Text.Split`);
- `includes` (`Text.Contains`);
- `toLowerCase` on ASCII (`Text.ToLower`);
- `String(n)` (`Text.NatToString`);
- the truncating `%` (`JsValues.JsRem`);
- `NaN` from `x % 0` (`StackedCardCarousel.Index`).

The model follows the code as written, which behaves as follows at four points:

- `/create-order` rejects only a falsy amount (zero or missing). A negative amount reaches the gateway (`Server.CreateOrderAcceptsNegativeAmount`).
- `/verify-signature` answers 400 "Missing required verification data." when the key secret is unset. It does not answer 5xx.
- The webhook computes its digest over the re-serialised `JSON.stringify(req.body)`, not over the raw request bytes.
- The webhook persists nothing. It only logs the two payment events.

## Model

| member | source | states |
|---|---|---|
| Server.Backend.constructor | src/backend/server.js:49-103 | `adminDb` is set iff the three Firebase variables are truthy and initialisation does not throw; `razorpay` is set iff both key variables are truthy and the SDK constructor does not throw |
| Server.Backend.SaveUserRoute | src/backend/server.js:162-187 | the middleware runs first: a refused header answers its 401 and leaves `req.user` alone; an admitted one sets `req.user` and the handler's outcome is `SaveUser` for that user |
| Server.Backend.SaveOrderDataRoute | src/backend/server.js:192-222 | the same middleware composition in front of `SaveOrderData` |
| Server.FilterPresent | src/backend/server.js:22-26 | `filter(Boolean)` keeps exactly the present, non-empty strings |
| Server.AllowedOrigins | src/backend/server.js:22-26 | the allowed list holds exactly the two development origins and `CORS_ORIGIN` when it is set and non-empty |
| Server.CorsOrigin | src/backend/server.js:21-28 | a request is allowed iff it has no origin, or its origin is one of the two development origins, or it equals a non-empty `CORS_ORIGIN`; otherwise it is refused with the message naming the origin |
| Server.EmptyCorsOriginAddsNothing | src/backend/server.js:25-26 | an empty `CORS_ORIGIN` allows exactly what an unset one allows |
| Server.Authorize | src/backend/server.js:72-85 | every refusal is a 401 |
| Server.BearerHeader | src/backend/server.js:75-76 | a header splits on `' '` into exactly `["Bearer", token]` iff it is `"Bearer " + token` and `token` has no space |
| Server.AuthorizeBearer | src/backend/server.js:76-83 | a well-formed bearer header hands exactly its token to the verifier: decoded claims admit the user with `email` or null, and a verifier error is a 401 "invalid ID token" |
| Server.AuthorizeMalformed | src/backend/server.js:74-81 | a missing header, or any header not of the form `Bearer <token>`, is refused with the "missing or invalid Authorization header" 401 whatever the verifier would say |
| Server.Request.RequireAuth | src/backend/server.js:72-85 | continues (sets `req.user` to the admitted user) iff `Authorize` admits; otherwise answers `Authorize`'s 401 and leaves `req.user` unchanged |
| Server.Health | src/backend/server.js:105-107 | `/health` answers 200 with `ok` and the boot id |
| Server.ToPaise | src/backend/server.js:145 | the paise amount is a whole multiple of 100 whose quotient is the rupee amount |
| Server.GatewayRequest | src/backend/server.js:144-149 | the gateway request carries `amount * 100`, the currency unchanged, `payment_capture = 1` and a receipt starting `receipt_order_` |
| Server.CreateOrder | src/backend/server.js:135-159 | 503 when payments are not configured; else 400 with no gateway call iff amount or currency is falsy; else exactly one gateway call with `GatewayRequest`, answering 200 with the order iff the gateway returned a truthy order, and 500 otherwise |
| Server.CreateOrderConfigCheckedFirst | src/backend/server.js:136-142 | with payments unconfigured the body, the clock and the gateway do not matter |
| Server.CreateOrderAcceptsNegativeAmount | src/backend/server.js:139-145 | a negative amount is not rejected: it reaches the gateway as a negative paise amount |
| Server.SaveUser | src/backend/server.js:162-187 | 503 without Firestore; 400 and no write without an email; otherwise one merge write keyed by the lower-cased email, with `uid` and `email` equal to that key, `authUid` the token's uid or null when it is empty, `displayName` and `phoneNumber` each kept when truthy and null otherwise; 200 iff the write succeeded, and 500 otherwise |
| Server.AmountOrNull | src/backend/server.js:213 | the stored amount is present iff the body's value is a number, and is then that number |
| Server.BuildOrderRecord | src/backend/server.js:205-216 | the record's owner is the lower-cased email; items and status are copied; the amount comes from `AmountOrNull`; the currency defaults to `'INR'` when falsy |
| Server.SaveOrderData | src/backend/server.js:192-222 | checks in order: 503 without Firestore; 400 "Missing required order data." if orderId, items or paymentStatus is falsy; 400 if there is no email; a write happens iff all checks pass, under the body's `orderId`, holding `BuildOrderRecord`; 200 iff the write succeeded |
| Server.OrderOwnerIgnoresCase | src/backend/server.js:205 | two emails that differ only in ASCII case produce the same order record |
| Server.ConfirmationPayloadInjective | src/backend/server.js:233 | for ids without `'\|'`, the payload `order_id + "\|" + payment_id` determines both ids |
| Server.ConfirmationPayload | src/backend/server.js:233 | the signed text `order_id + "\|" + razorpay_payment_id`; `ConfirmationPayloadInjective` shows it determines both ids |
| Server.VerifySignature | src/backend/server.js:224-243 | 400 "Missing required verification data." if any of the three fields or the secret is absent; otherwise 200 "verified" iff the HMAC of the payload equals the signature, and 400 "Invalid signature" otherwise |
| Server.GenuineClaimVerifies | src/backend/server.js:231-238 | a claim signed with the key secret is accepted |
| Server.TamperedClaimRejected | src/backend/server.js:236-241 | any other signature for the same claim is rejected as invalid |
| Server.WebhookAsWritten | src/backend/server.js:246-274 | the handler as written answers 500 before any digest when the secret is unset, and 403 on a digest mismatch |
| Server.WebhookAsWrittenFailsWithoutPayment | src/backend/server.js:259-260 | as written, a correctly signed body without `payload.payment` gets a 500 |
| Server.Webhook | src/backend/server.js:246-274 | 500 when the secret is unset; otherwise 200 iff the digest matches, for every event type, and 403 otherwise; only `payment.captured` and `payment.failed` with an entity are logged, each with its own entity |
| Server.WebhookSecretCheckedFirst | src/backend/server.js:249-255 | with no secret the outcome does not depend on the digest function |
| Server.WebhookAgreesWhenEntityPresent | src/backend/server.js:257-269 | the corrected handler and the code as written agree on every body that carries a payment entity |
| JsValues.OrNull | src/backend/server.js:78 | `email \|\| null` keeps a non-empty email and maps everything else to null |
| JsValues.JsRem | src/components/StackedCardCarousel.tsx:15-16 | JavaScript `%` gives a remainder in `[0, \|b\|)` for a non-negative dividend, equal to Euclidean `%` for a positive divisor |
| Text.Split | src/backend/server.js:75 | a split always has at least one piece |
| Text.JoinSplit | src/backend/server.js:75 | joining the pieces of a split with the separator gives the header back |
| Text.SplitPiecesFree | src/backend/server.js:75 | no piece of a split contains the separator |
| Text.SplitTwo | src/backend/server.js:75-76 | `a + sep + b` with the separator in neither side splits into exactly `[a, b]` |
| Text.ToLower | src/backend/server.js:170 | lower-casing keeps the length and maps each character through ASCII lower-casing |
| Text.ToLowerIdempotent | src/backend/server.js:205 | lower-casing an already lower-cased key changes nothing |
| Text.NatToString | src/backend/server.js:147 | the decimal text of a number is non-empty and all digits |
| Text.NatToStringInjective | src/components/ReviewsSection.tsx:32 | different numbers print differently |
| Text.MissingCharExcludes | src/pages/CheckOut.tsx:219 | a string lacking some character of `t` does not include `t` |
| Text.ContainsInfix | src/pages/CheckOut.tsx:219 | `p + t + q` includes `t` |
| Cookies.CatalogShape | src/data/cookies.ts:21-92 | the catalog has ten entries, pairwise distinct ids and positive integer prices |
| Cookies.AlmondMostExpensive | src/data/cookies.ts:79-81 | almond, at 120, is strictly dearer than every other cookie |
| Cookies.WhiteChocoAboveChoco | src/data/cookies.ts:23-39 | white chocolate (105) is priced above the basic chocolate cookie (70) |
| CookieCard.OnClick | src/components/CookieCard.tsx:35-49 | an enabled increment emits `quantity + 1`, never above 10; an enabled decrement emits `quantity - 1`, never below 0 |
| CookieCard.IsMaxQuantity | src/components/CookieCard.tsx:15-16 | `isMaxQuantity`: the quantity has reached 10; it disables the increment button |
| CookieCard.DecrementDisabled | src/components/CookieCard.tsx:39 | the decrement button is disabled at a quantity of 0 or less |
| CookieCard.ShowsMaxMessage | src/components/CookieCard.tsx:56-58 | the "Max quantity reached!" line is rendered when `isMaxQuantity` holds |
| CookieCard.MaxMessageTracksIncrement | src/components/CookieCard.tsx:16-58 | the warning shows iff the increment button is disabled, and in 0..10 at least one button is enabled |
| CookieCard.ClicksStayInRange | src/components/CookieCard.tsx:15-50 | from any quantity in 0..10, every series of clicks on the buttons (disabled ones doing nothing) stays in 0..10 |
| CartContext.CartStore.constructor | src/context/CartContext.tsx:15 | the cart starts empty |
| CartContext.CartStore.Reset | src/pages/CheckOut.tsx:122 | `setCart({})` empties the cart |
| Home.SetQuantity | src/pages/Home.tsx:31-40 | after an update with q > 0, `cart[id] == q`; with q ≤ 0, `id` is no longer a key; every other key keeps its presence and its value |
| Home.HandleQuantityChange | src/pages/Home.tsx:31-40 | copying the cart and then setting or deleting the key in the copy leaves the cart equal to `SetQuantity` of the old cart |
| Home.SetQuantityKeepsPositive | src/pages/Home.tsx:33-39 | if every stored quantity was positive, every stored quantity is still positive |
| Home.SetQuantityIdempotent | src/pages/Home.tsx:31-40 | the same update applied twice gives the cart it gives once |
| Home.ShownQuantity | src/pages/Home.tsx:75 | a cookie absent from the cart shows 0, and a present one shows its stored quantity |
| Home.ShownAfterUpdate | src/pages/Home.tsx:31-75 | after an update with a non-negative quantity the card shows exactly that quantity |
| Home.CardClickKeepsCartWithinLimit | src/pages/Home.tsx:75-76 | a click on an enabled card button, fed back through the update, keeps every stored quantity in 1..10 |
| Home.WelcomeEffect | src/pages/Home.tsx:22-29 | the effect sets the dialog flag when `fromLogin` is `'true'` and a non-anonymous user is present, and otherwise leaves it as it was |
| Home.WelcomeCondition | src/pages/Home.tsx:25 | the welcome condition: `fromLogin` is `'true'` and a non-anonymous user is present; `WelcomeOnlyFromLogin` ties it to the rendered dialog |
| Home.WelcomeOnlyFromLogin | src/pages/Home.tsx:25-46 | on a fresh page the dialog is rendered iff `fromLogin` is `'true'` and a non-anonymous user is signed in |
| Home.WelcomeNeverForAnonymous | src/pages/Home.tsx:46 | an absent or anonymous user never sees the dialog, whatever the flag |
| Checkout.Selected | src/pages/CheckOut.tsx:41 | the selection holds exactly the catalog entries with `cart[id] > 0`, as a subsequence of the catalog (catalog order kept) |
| Checkout.TotalAmount | src/pages/CheckOut.tsx:42 | `totalAmount`, the `reduce` over the selection; `TotalIsCatalogSum` equates it with an independent sum over the catalog |
| Checkout.TotalAppend | src/pages/CheckOut.tsx:42 | the left fold of line totals splits over concatenation |
| Checkout.TotalIsCatalogSum | src/pages/CheckOut.tsx:41-42 | `totalAmount` equals the sum over the catalog of `cart[id] * price` for the ordered entries |
| Checkout.OnlyCatalogIdsMatter | src/pages/CheckOut.tsx:41-42 | two carts that agree on every catalog id give the same selection and the same total |
| Checkout.ForeignKeyIgnored | src/pages/CheckOut.tsx:41-42 | a cart key that is not a catalog id changes neither the selection nor the total |
| Checkout.CheckoutView | src/pages/CheckOut.tsx:166-215 | the page renders the empty bag for an empty selection and the summary with the total otherwise; `EmptyBagExactly` states when |
| Checkout.EmptyBagExactly | src/pages/CheckOut.tsx:166-182 | the empty-bag view is rendered iff no catalog cookie is ordered, and then the total is 0 |
| Checkout.TotalPositive | src/pages/CheckOut.tsx:42 | a fold over ordered entries with positive prices is positive |
| Checkout.NonEmptyBagPositiveTotal | src/pages/CheckOut.tsx:42 | with positive prices, a non-empty bag has a positive total |
| Checkout.OrderRequest | src/pages/CheckOut.tsx:72 | the order request sends `amount = totalAmount` and `currency = "INR"` |
| Checkout.NonEmptyBagReachesGateway | src/pages/CheckOut.tsx:69-73 | the order request of a non-empty bag passes the server's validation, and the gateway is asked for the total times 100 in INR |
| Checkout.HandlerMessage | src/pages/CheckOut.tsx:93-138 | without a payment id the message is the cancellation message; after a successful verification it is the success message naming the payment id |
| Checkout.ClientView | src/pages/CheckOut.tsx:109-120 | the client sees a successful verification only for a 2xx response |
| Checkout.CartClearedExactlyOnValidSignature | src/pages/CheckOut.tsx:99-128 | for every callback, against the server's `/verify-signature`, the handler clears the cart iff all fields are present and the signature is the HMAC of `order_id + "\|" + payment_id` |
| Checkout.CheckoutPage.constructor | src/pages/CheckOut.tsx:44-45 | no message, not loading |
| Checkout.CheckoutPage.HandlePayment | src/pages/CheckOut.tsx:54-164 | if the SDK fails: that message, loading off, no request; otherwise one order request for the current cart's total in INR, then an error message and loading off, or the modal opened for the returned order with loading kept on; the cart is untouched |
| Checkout.CheckoutPage.OnPaymentResponse | src/pages/CheckOut.tsx:93-138 | a verification request is sent iff the callback has a payment id, carrying the callback's three fields; the cart is emptied and the success navigation scheduled iff the verification succeeded, and the cart is unchanged otherwise; the message is `HandlerMessage`; loading ends |
| Checkout.CheckoutPage.OnModalClose | src/pages/CheckOut.tsx:151-155 | closing the modal sets the "closed without completing payment" message and ends loading |
| Checkout.RedWhenMarkersMissing | src/pages/CheckOut.tsx:219 | a message lacking a letter of `successful` and a letter of `Verified` is styled red |
| Checkout.SuccessStyled | src/pages/CheckOut.tsx:219 | the message is green iff it includes `successful` or `Verified`; the lemmas below fix the colour of each message |
| Checkout.SuccessMessageStyledGreen | src/pages/CheckOut.tsx:121 | the success message is styled green whatever the payment id |
| Checkout.CancelledStyledRed | src/pages/CheckOut.tsx:134 | the cancellation message is styled red |
| Checkout.ModalClosedStyledRed | src/pages/CheckOut.tsx:152 | the modal-closed message is styled red |
| Checkout.InitiatedStyledRed | src/pages/CheckOut.tsx:96 | the in-progress message is styled red |
| Checkout.UnexpectedErrorStyledRed | src/pages/CheckOut.tsx:161 | the unexpected-error message is styled red |
| Checkout.VerificationErrorStyledRed | src/pages/CheckOut.tsx:131 | the message for a failed verification request is styled red |
| Checkout.SdkFailedStyledRed | src/pages/CheckOut.tsx:61 | the SDK-failure message is styled red |
| Checkout.RedWithoutPairUl | src/pages/CheckOut.tsx:219 | a message with no `u` directly followed by `l` and no `V` includes neither marker word, so it is styled red |
| Checkout.HandlerMessageColour | src/pages/CheckOut.tsx:93-138 | the handler leaves a green message after a successful verification, and a red one after a cancellation or a failed verification request; the two error messages that embed the server's text are not covered |
| StackedCardCarousel.Prev | src/components/StackedCardCarousel.tsx:15 | with `n = 0` or a NaN index the result is NaN; for an index in `[0, n)` it is the index before, wrapping from 0 to `n - 1` |
| StackedCardCarousel.Next | src/components/StackedCardCarousel.tsx:16 | NaN as above; for an index in `[0, n)` it is the index after, wrapping from `n - 1` to 0 |
| StackedCardCarousel.PrevNextInverse | src/components/StackedCardCarousel.tsx:15-16 | `next(prev(i)) == i` and `prev(next(i)) == i` |
| StackedCardCarousel.NextTimesCompose | src/components/StackedCardCarousel.tsx:16 | `a + b` presses of next are `a` presses followed by `b` |
| StackedCardCarousel.NextTimesAdvances | src/components/StackedCardCarousel.tsx:16 | before the last card, `k` presses advance the index by `k` |
| StackedCardCarousel.FullTurn | src/components/StackedCardCarousel.tsx:16 | `n` presses of next return to the starting index |
| StackedCardCarousel.Offset | src/components/StackedCardCarousel.tsx:22 | for in-range indices the offset lies in `[0, n)` and is 0 iff the card is the front card |
| StackedCardCarousel.Z | src/components/StackedCardCarousel.tsx:23 | `z` is 30 at offset 0, 20 at offset 1 and 10 otherwise; `Layering` states which cards get which |
| StackedCardCarousel.X | src/components/StackedCardCarousel.tsx:25 | `x` is 0 at offset 0, -30 at offset 1 and -60 otherwise; `Layering` states which cards get which |
| StackedCardCarousel.OffsetOne | src/components/StackedCardCarousel.tsx:22 | the offset is 1 iff there are two or more cards and the card is the one `next` would bring forward |
| StackedCardCarousel.Layering | src/components/StackedCardCarousel.tsx:22-25 | exactly the front card has z 30 and x 0; the card behind it has z 20 and x -30; every other card has z 10 and x -60 |
| StackedCardCarousel.DotHighlighted | src/components/StackedCardCarousel.tsx:52 | dot `i` is highlighted when `i === index`; `OneDotHighlighted` shows exactly one is |
| StackedCardCarousel.OneDotHighlighted | src/components/StackedCardCarousel.tsx:52 | exactly one pagination dot, dot `index`, is highlighted |
| StackedCardCarousel.Carousel.constructor | src/components/StackedCardCarousel.tsx:13 | the index starts at 0 |
| StackedCardCarousel.Carousel.PrevClicked | src/components/StackedCardCarousel.tsx:15 | the index becomes `Prev` of the old index and stays in range |
| StackedCardCarousel.Carousel.NextClicked | src/components/StackedCardCarousel.tsx:16 | the index becomes `Next` of the old index and stays in range |
| AuthContext.GetServerBootId | src/context/AuthContext.tsx:35-42 | null on a thrown fetch, a non-OK status, a body without a boot id, or an empty boot id; a 2xx health report with a non-empty boot id yields exactly that id |
| AuthContext.HealthRoundTrip | src/context/AuthContext.tsx:37-40 | the client reads back exactly the boot id that `/health` reports |
| AuthContext.Stored | src/context/AuthContext.tsx:63 | `getItem` yields the stored value iff the key is present |
| AuthContext.StorageAfterBoot | src/context/AuthContext.tsx:63-70 | with no stored id and a non-null server id, that id is stored; with a differing stored id it is replaced; with an equal stored id or a null server id nothing changes; no other key changes |
| AuthContext.BootCheckSettles | src/context/AuthContext.tsx:63-70 | after one check, a second check with the same boot id neither signs out nor changes storage |
| AuthContext.NullBootIdChangesNothing | src/context/AuthContext.tsx:65-69 | an unreachable server (null boot id) neither signs out nor changes storage |
| AuthContext.StorageAfterReload | src/context/AuthContext.tsx:82 | the reload flag becomes `'1'` and no other key changes |
| AuthContext.ReloadRunsOnce | src/context/AuthContext.tsx:75-83 | once the flag is set, the reload policy never resets the session again in that tab |
| AuthContext.PoliciesIndependent | src/context/AuthContext.tsx:63-82 | the restart check and the reload policy use different keys, and neither disturbs the other's decision |
| AuthContext.UserAfterMountAsWritten | src/context/AuthContext.tsx:59-89 | as written, mounting signs the user out exactly when it is still mounted and the backend restarted, and otherwise keeps the user |
| AuthContext.UserAfterMount | src/context/AuthContext.tsx:59-89 | as intended, mounting signs the user out when the reload flag is missing, or when it is still mounted and the backend restarted; otherwise it keeps the user |
| AuthContext.FreshLoadKeepsUserAsWritten | src/context/AuthContext.tsx:73-87 | on a first load without a restart, a signed-in user stays signed in as written but is signed out as intended |
| AuthContext.IntendedSignOutOnce | src/context/AuthContext.tsx:75-83 | as intended, the load after the first keeps a signed-in user when the backend did not restart |
| AuthContext.AuthProvider.constructor | src/context/AuthContext.tsx:47-50 | neither check has run, and nothing has been signed out |
| AuthContext.AuthProvider.SignOut | src/context/AuthContext.tsx:68 | signs the user out and counts one call; storage and flags are unchanged |
| AuthContext.AuthProvider.BootCheck | src/context/AuthContext.tsx:59-72 | when mounted: storage becomes `StorageAfterBoot`, `bootChecked` is set, and exactly one sign-out happens iff the backend restarted; when unmounted nothing changes |
| AuthContext.AuthProvider.ReloadCheck | src/context/AuthContext.tsx:74-85 | once `reloadChecked` is set nothing changes; otherwise the flag is stored, `reloadChecked` is set, and one sign-out happens iff the flag was missing and a user is signed in |
| AuthContext.AuthProvider.MountAsWritten | src/context/AuthContext.tsx:59-89 | only the restart check runs: when mounted, storage is `StorageAfterBoot` and `bootChecked` is set; when unmounted, storage and `bootChecked` are unchanged; the reload flag and `reloadChecked` are untouched; the user is `UserAfterMountAsWritten`, with one sign-out call exactly on a restart (`SignOutsAsWritten`) |
| AuthContext.AuthProvider.Mount | src/context/AuthContext.tsx:59-89 | the reload policy runs and then the restart check: the flag is `'1'` and `reloadChecked` is set; when mounted, storage is both updates in turn and `bootChecked` is set; when unmounted, storage is only the reload update and `bootChecked` is unchanged; the user is `UserAfterMount`; the sign-out calls grow by `SignOutsOnMount`, which is 2 when a signed-in user's fresh load meets a restart |
| AuthContext.AuthProvider.SignOutUser | src/context/AuthContext.tsx:169-178 | signs out, with one call, only when a user is signed in; it makes no call otherwise |
| AuthContext.UseAuth | src/context/AuthContext.tsx:187-193 | outside any provider the hook throws "useAuth must be used within an AuthProvider"; inside one it returns the provider's value |
| ReviewsSection.DefaultRatingsHigh | src/components/ReviewsSection.tsx:10-15 | there are four default reviews, each rated 4 or 5 |
| ReviewsSection.Reviews | src/components/ReviewsSection.tsx:24 | missing or empty `items` gives the default reviews; any other `items` is used unchanged |
| ReviewsSection.RenderList | src/components/ReviewsSection.tsx:31 | the rendered list has length 2·n and holds the reviews in order, twice over |
| ReviewsSection.CardKey | src/components/ReviewsSection.tsx:32 | the key `${r.id}-${idx}` of the card at position `idx`; `CardKeysDistinct` shows the keys are distinct |
| ReviewsSection.TailAfterDashOf | src/components/ReviewsSection.tsx:32 | the text after the last `-` of `p + "-" + d` is `d` when `d` has no `-` |
| ReviewsSection.CardKeysDistinct | src/components/ReviewsSection.tsx:31-32 | the keys `${id}-${idx}` of the rendered cards are pairwise distinct, whatever the ids |
| ReviewsSection.Stars | src/components/ReviewsSection.tsx:38 | five stars, star `i` filled iff `i < rating` |
| ReviewsSection.FilledPrefix | src/components/ReviewsSection.tsx:38 | the first `k` stars hold the rating clamped to `0..k` filled ones |
| ReviewsSection.FilledStars | src/components/ReviewsSection.tsx:38 | exactly five stars are drawn, and the filled count is the rating clamped to 0..5 |
| ProtectedRoutes.Decide | src/components/ProtectedRoutes.tsx:7-29 | while loading, the loading screen whatever the user; when not loading and there is no user, a redirect to `/signin` with `replace`; the nested routes are rendered iff not loading and a user is present |
| ProtectedRoutes.AnonymousUserPasses | src/components/ProtectedRoutes.tsx:21 | an anonymous user passes the gate |
| App.Match | src/App.tsx:29-42 | a matched route is in the table and has the requested path; no match means no route has that path |
| App.HideNav | src/App.tsx:22 | the navigation bar is hidden exactly on `/signin` and `/signed-out` |
| App.Render | src/App.tsx:29-42 | the routed screen: no match renders nothing, a public route its page, and a gated route the gate's decision; the lemmas below state it per path |
| App.PublicRoutesUngated | src/App.tsx:31-33 | `/signin`, `/signed-out` and `/order-success` render their pages whatever the auth state |
| App.ProtectedPaths | src/App.tsx:36-41 | the routes under the gate are exactly `/`, `/home` and `/checkout` |
| App.HomeMatches | src/App.tsx:38-39 | `/` and `/home` both match a gated home-page route |
| App.HomeAliases | src/App.tsx:38-39 | `/` and `/home` render the same screen, which is the home page once a user is signed in |
| App.CheckoutNeedsUser | src/App.tsx:40 | the checkout content renders iff the auth state is settled and a user is present; with no user the screen is the redirect to `/signin` |
| App.RedirectTargetPublic | src/App.tsx:22-31 | the gate's redirect target renders without the gate and without the navigation bar |
| App.NavShownOnGatedPages | src/App.tsx:22-27 | the navigation bar is shown on `/`, `/home`, `/checkout` and `/order-success` |

## Left out

- Network and vendor I/O is not modelled: `fetch`, the Razorpay SDK and its modal, Firebase Auth and Admin, and Firestore. Their outcomes are inputs or function parameters.
- HMAC-SHA256, `crypto.randomUUID`, `JSON.stringify` and `Date.now()` are parameters, not implementations.
- The server timestamps are not modelled: `createdAt`/`updatedAt` in stored documents, and `new Date()` in the client profile.
- Floating point is not modelled. Amounts, prices, quantities, ratings and review ids are integers. A fractional rating (4.5 fills five stars) and `amount * 100` on fractional rupees are outside the model.
- `Server.CreateOrder`: the body's `amount` is a number and `currency` a string. The code's coercion of other JSON types (a numeric string times 100, for instance) is not modelled.
- `Server.VerifySignature`: the three fields are strings or absent. Non-string JSON values, which `+ "|" +` would stringify, are not modelled.
- `Text.ToLower` covers only the ASCII letters. `toLowerCase`'s Unicode case mapping is not modelled.
- The `/test-db` and `/` routes are diagnostics with no decisions beyond those of `/save-user`, so they are not modelled. The `x-api-key` middleware is commented out in the source.
- Express error handling outside the handlers is not modelled. A CORS refusal is the callback's error value, not an HTTP response.
- Async ordering, the `mounted` races, and the concurrency of the client confirmation with the webhook are not modelled. Each policy is one sequential step. `AuthProvider.Mount` assumes the reload policy finishes before `/health` answers.
- A rejected `auth.signOut()` is not modelled. Both callers in the boot effect swallow the rejection. `signOutUser` rethrows, and its error path is not modelled.
- The `onAuthStateChanged` listener, persistence, redirect results, the custom-token sign-in and the profile save with its `/save-user` fallback are not modelled. They are Firebase glue with no decision of their own beyond `Server.SaveUser`.
- `src/pages/SignIn.tsx` is not part of this model. It is the phone-OTP and reCAPTCHA sign-in flow, which is Firebase glue.
- Presentation-only files are not part of this model: Hero, NavBar, Story, BehindTheScenes, OrderSuccess, Signout, PrivacyPolicy, SwiperCarousel, CookieDetailModal, main.tsx and the Tailwind configuration.
- `StackedCardCarousel`: the animation `scale` values and the framer-motion parameters are floating-point presentation. `items.length` is taken to be fixed for the life of the component.
- `App.Match`: react-router's path matching compares exactly here. Its case-insensitive and trailing-slash matching is not modelled.
- `Checkout.CheckoutPage.HandlePayment`: the modal's `prefill`, `key` and theme are not modelled. The `user` effect at lines 48-52 only logs.
- The two-second delay before the navigation to `/order-success` is a scheduled flag, not a timer.
- `useCart` and the cart provider are React glue. Only the `Cart` type and its empty initial state are modelled.

## Findings

| source | as written | input that shows it | evidently intended | confidence | as-written member | corrected member |
|---|---|---|---|---|---|---|
| src/backend/server.js:260 | the handler reads `req.body.payload.payment.entity` with no guard, so a verified body without `payload.payment` throws, and Express answers 500 | a correctly signed delivery of `{"event": "order.paid"}` with no `payload.payment` | acknowledge every verified event with 200, and read the payment entity only for the two payment events | high, not executed | Server.WebhookAsWrittenFailsWithoutPayment | Server.Webhook |
| src/context/AuthContext.tsx:73-87 | the reload-policy `useEffect` is called inside the restart check's async function, after an `await`; a hook called outside render throws, so the once-per-load sign-out never runs and `cg_reload_done` is never set | the first page load in a tab of a user who is already signed in, with no backend restart | register the reload effect beside the restart check, so the first load in a tab signs the user out once | high, not executed | AuthContext.FreshLoadKeepsUserAsWritten | AuthContext.UserAfterMount |
