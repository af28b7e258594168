# Anandamoyee India storefront: OTP store, order intake and cart, in Dafny

This project models the parts of the storefront that have behaviour worth stating:

- the server's in-memory OTP store and the routes that use it: sending a code, verifying it,
  the periodic sweep of expired codes, and the four routes that consume a verified code
  (login, phone change, single-product order, cart order);
- order intake: the snapshot of a product into a single order, the cart loop that resolves
  items and sums subtotals, and the customer merge done by a phone change;
- the WhatsApp client's token gate and receiver normalisation;
- the client-side cart (add, remove, update quantity, clear, count, total).

Layout:

| file | module | contents |
|---|---|---|
| `wrappers.dfy` | `Wrappers` | `Option`, `Result` |
| `strings.dfy` | `Strings` | digit filtering (`replace(/[^\d]/g, '')`) and decimal rendering (`String(n)`) |
| `whatsapp.dfy` | `Whatsapp` | `sendMessage`: the token lookup, the receiver rules, the request it builds; the remote answer is an input |
| `otp.dfy` | `Otp` | the OTP records and the store transitions as pure functions, with their lemmas |
| `orders.dfy` | `Orders` | products, customers and orders (legacy single-product fields or `items[]`), the cart loop as a method, order reassignment |
| `server.dfy` | `Server` | class `OtpStore` (the `otpStore` Map updated in place) and class `Shop` (the collections plus one method per route) |
| `cart.dfy` | `CartContext` | the client cart updaters and folds as functions on sequences |

The server-side methods change state in place; each one's postcondition says that the new
state is exactly what a pure function of `Otp` or `Orders` gives for the old state, or states
the new maps outright. The properties are then proved about those functions. The time
(`Date.now()`) is a parameter `now`, and the random code is a parameter of type `Otp.Code`
(1000..9999). The answer of the messaging service is a parameter `Whatsapp.Remote`. A JSON body
field that is absent is modelled as `""` for strings, `0` for the quantity and `None` for ids.
These are exactly the values the routes' `!field` tests reject.

From the code's behaviour, stated in the model:

- Consuming a code checks only that a record is present with `verified` set. Expiry is not
  looked at (`Otp.Consumable`).
- An order request that names a `customerId` skips the OTP check entirely. The id is not
  looked up (`Server.Authorized`).
- A cart order consumes the guest's code before any product is looked up. So a cart with
  nothing resolvable answers "no valid products" and the code is still used up.
- Keys of the OTP store are the phone string as sent. Normalisation happens only when a
  message is sent, so two spellings of one number are two keys.
- Verifying does not delete the record, so the right code verifies again, up to three
  times per issued code, until a route consumes it
  (`Otp.RightCodeVerifiesUntilAttemptsRunOut`). Single use is enforced by consumption
  (`Otp.ConsumeIsSingleUse`).
- The receiver rules are applied in order: the 10-digit rule first, then the leading-zero
  rule on the result. A 10-digit number starting with `0` therefore becomes `910...`.

## Model

| member | source | states |
|---|---|---|
| Strings.DigitsOnly | server/whatsapp.js:18 | the stripped phone contains only digits and is no longer than the input |
| Strings.DigitsOnlyOfDigits | server/whatsapp.js:18 | stripping a digit string leaves it unchanged |
| Strings.DigitsOnlyAppend | server/whatsapp.js:18 | stripping distributes over concatenation: the digits of `a + b` are those of `a` followed by those of `b` |
| Strings.DigitChar | server/server.js:258 | a digit value renders as a digit character |
| Strings.DecimalString | server/server.js:258 | `String(n)` is a non-empty digit string |
| Strings.DecimalRoundTrip | server/server.js:258 | reading back the rendered decimal gives the number |
| Strings.DecimalStringInjective | server/server.js:258 | distinct codes render as distinct strings |
| Strings.FourDigits | server/server.js:258 | a code in 1000..9999 renders as exactly four digits without a leading zero |
| Whatsapp.SettingGet | server/models/Setting.js:16-19 | definition of `Setting.get`: the stored value, or none |
| Whatsapp.Token | server/whatsapp.js:11-15 | definition of the token gate: an absent or empty token counts as not configured |
| Whatsapp.NormalizeReceiver | server/whatsapp.js:17-24 | definition of the receiver rules, applied in the order `sendMessage` applies them |
| Whatsapp.SendMessage | server/whatsapp.js:9-51 | definition of `sendMessage`: the request it builds, if any, and its result for a given remote answer |
| Whatsapp.NoTokenNoRequest | server/whatsapp.js:11-15 | with no token, or an empty one, no request is built and the result is the "not configured" error |
| Whatsapp.TokenSendsOneRequest | server/whatsapp.js:9-41 | with a token, one request is built for the normalised receiver, with the message and token, with a media URL exactly when one is given; success exactly when the service answers OK |
| Whatsapp.SuccessIffDeliverable | server/whatsapp.js:11-51 | `success` holds exactly when a token is configured and the service answers OK |
| Whatsapp.RemoteErrorText | server/whatsapp.js:44-47 | a refusal reports the service's message, or "Failed to send message" when it has none |
| Whatsapp.NormalizedIsDigits | server/whatsapp.js:18-24 | the normalised receiver contains only digits |
| Whatsapp.TenDigitsGetCountryCode | server/whatsapp.js:19-21 | exactly 10 digits become `91` followed by them, 12 characters |
| Whatsapp.LeadingZeroReplaced | server/whatsapp.js:22-24 | a digit string that is not 10 long and starts with `0` has the `0` replaced by `91`, one character longer |
| Whatsapp.OtherDigitsUnchanged | server/whatsapp.js:18-24 | any other digit string is sent as stripped |
| Whatsapp.PrefixedNumberUnchanged | server/whatsapp.js:18-24 | a 12-digit number already starting with `91` is unchanged |
| Otp.Issue | server/server.js:257-266 | definition of the fresh record written by the send route |
| Otp.Send | server/server.js:244-281 | definition of the send transition: phone check, rate limit, write, deliver, delete on failure |
| Otp.Verify | server/server.js:284-313 | definition of the verify transition |
| Otp.Consume | server/server.js:324-328 | definition of the check-and-delete shared by the four consuming routes |
| Otp.Sweep | server/server.js:236-241 | definition of the sweep: the records whose expiry has not passed |
| Otp.IssuedRecord | server/server.js:257-266 | a fresh record holds a four-digit code that reads back as the drawn number, 0 attempts, not verified, created now, expiring 300000 ms later |
| Otp.SendRejectsShortPhone | server/server.js:247-249 | fewer than 10 digits after stripping: rejected, store unchanged |
| Otp.SendRateLimited | server/server.js:252-255 | a record created less than 30000 ms before now: rate-limited, store unchanged |
| Otp.SendDeliveredStoresFreshRecord | server/server.js:258-273 | a delivered send maps the phone to the fresh record, overwriting any earlier one, and changes nothing else |
| Otp.SendUndeliveredLeavesNoRecord | server/server.js:261-276 | an undelivered send reports the error and leaves no record for the phone; other entries unchanged |
| Otp.SendWithoutTokenFails | server/server.js:270-276 | with no token configured, the send reports the "not configured" error and leaves no record |
| Otp.SendTouchesOnlyItsPhone | server/server.js:244-281 | a send changes no other phone's record |
| Otp.SendKeepsWellFormed | server/server.js:244-281 | records stay well formed (four-digit code, attempts 0..3, expiry = creation + 5 min) |
| Otp.ResendCooldown | server/server.js:252-266 | after a delivered send, a second send within 30000 ms is refused; one 30000 ms or more later replaces the record |
| Otp.VerifyWithoutRecord | server/server.js:290-293 | no record: not found, store unchanged |
| Otp.VerifyAfterExpiry | server/server.js:295-298 | past expiry: expired, the record deleted and attempts not counted |
| Otp.VerifyCountsBeforeComparing | server/server.js:300-311 | the attempt is counted first; a fourth attempt deletes the record; a mismatch stores the count and reports `3 - attempts`; a match stores the count and sets `verified` |
| Otp.VerifiedIff | server/server.js:284-311 | verification succeeds exactly when both fields are given, the record exists, has not expired, has fewer than 3 attempts and holds the code |
| Otp.VerifiedIsConsumable | server/server.js:311 | after a successful verification the record can be consumed |
| Otp.VerifyKeepsWellFormed | server/server.js:284-313 | records stay well formed |
| Otp.ComparisonsBounded | server/server.js:300-308 | over any run of verify calls, codes are compared at most `3 - attempts` times for a record |
| Otp.AtMostThreeComparisons | server/server.js:300-308 | an issued record has its code compared at most 3 times |
| Otp.WrongCodesCountDown | server/server.js:300-308 | three wrong codes report 2, 1 and 0 attempts remaining; a fourth call, even with the right code, is refused as too many attempts and the record is gone |
| Otp.RightCodeVerifiesUntilAttemptsRunOut | server/server.js:300-311 | the right code verifies three times in a row, the record staying consumable, and the fourth call is refused with the record gone |
| Otp.ConsumeIsSingleUse | server/server.js:324-328 | a second consumption of the same verification fails and changes nothing |
| Otp.ConsumeKeepsWellFormed | server/server.js:324-328 | records stay well formed |
| Otp.IssueVerifyConsume | server/server.js:244-328 | send, then verify with the sent code within 5 minutes, then consume: each step succeeds and the code cannot be consumed again |
| Otp.SweepsCompose | server/server.js:236-241 | a sweep at `t1` followed by one at `t2 >= t1` leaves what one sweep at `t2` leaves; sweeping twice at once changes nothing |
| Otp.SweptRecordsWereExpired | server/server.js:236-241 | a record the sweep removes would have been refused as expired, and deleted, by a verify call at the same instant |
| Otp.SweepKeepsWellFormed | server/server.js:236-241 | records stay well formed |
| Orders.SingleOrder | server/server.js:422-430 | definition of the single-product order document |
| Orders.ResolveItems | server/server.js:495-509 | definition of the cart resolution: skip unknown products, snapshot the others in order |
| Orders.CartOrder | server/server.js:515-520 | definition of the cart order document |
| Orders.ReassignOrders | server/server.js:375 | definition of `Order.updateMany({ customerId: from }, { customerId: to })` |
| Orders.CollectOrderItems | server/server.js:492-509 | the loop produces exactly the resolved items in input order and their subtotal sum |
| Orders.SingleOrderTotal | server/server.js:422-430 | a single order's total is price times quantity, status Pending, with the given customer |
| Orders.ResolveItemsAppend | server/server.js:495-509 | resolving a concatenation resolves each part in order |
| Orders.ResolveOneLine | server/server.js:496-507 | a line with an unknown product is skipped; a known one becomes a snapshot with `subtotal = price * quantity` |
| Orders.ResolvedItemsAreSnapshots | server/server.js:496-507 | every resolved item is the snapshot of a stored product |
| Orders.ResolveItemsEmptyIff | server/server.js:511-513 | the result is empty exactly when no line names a stored product |
| Orders.CartOrderTotals | server/server.js:515-520 | each subtotal is price times quantity and the total is their sum; status Pending |
| Orders.ReassignUnitesOrders | server/server.js:375 | no order is lost; the current customer owns its own orders and the absorbed one's, the absorbed one owns none, other customers keep exactly theirs, every order not of the absorbed customer is unchanged, and a moved order changes only its customer id |
| Orders.UniquePhoneOwner | server/models/Customer.js:4-7 | with unique phones, a phone's owner is the only one |
| Server.Authorized | server/server.js:406-413 | definition of the order routes' gate: a named customer id, or a consumable OTP record for the phone |
| Server.OtpStore.constructor | server/server.js:233 | the store starts empty |
| Server.OtpStore.Send | server/server.js:244-281 | outcome and new store are those of `Otp.Send` on the old store |
| Server.OtpStore.Verify | server/server.js:284-313 | outcome and new store are those of `Otp.Verify` on the old store; a mismatch reports between 0 and 2 attempts remaining, which the store invariant guarantees |
| Server.OtpStore.Consume | server/server.js:324-328 | succeeds exactly when the record is consumable; the new store is `Otp.Consume` of the old |
| Server.OtpStore.Sweep | server/server.js:236-241 | the loop leaves exactly `Otp.Sweep` of the old store |
| Server.Shop.constructor | server/server.js:233 | empty OTP store, customers and orders |
| Server.Shop.Login | server/server.js:318-340 | missing phone is refused with the store untouched; otherwise the code is consumed; success exactly when it was consumable; an existing owner is returned unchanged, else one customer is created; afterwards exactly one customer has the phone |
| Server.Shop.ChangePhone | server/server.js:354-385 | missing phone, unverified phone, unknown profile refused in that order, after consumption; on success exactly one customer has the new phone; another owner is deleted and its orders reassigned; all other customers and orders unchanged |
| Server.Shop.PlaceOrder | server/server.js:398-471 | field check, OTP consumption for guests only, product lookup; on success one order is added, the snapshot with total price times quantity, and `whatsappSent` holds exactly when delivery is possible |
| Server.Shop.PlaceCartOrder | server/server.js:474-563 | field check, OTP consumption for guests only, then resolution; nothing resolvable is refused after the code was consumed; an item with quantity below 1 fails the save; on success the order of the resolved items is added |
| Server.FreshGuestIsConsumable | server/server.js:244-328 | from an empty store, a delivered send and an immediate verify with the sent code leave a record the consuming routes accept |
| Server.GuestLoginScenario | server/server.js:244-340 | for any phone the send route accepts, a guest who sends, verifies and logs in gets a profile with that phone; a second login without a new code is refused |
| CartContext.AddToCart | client/src/context/CartContext.jsx:28-40 | definition of `addToCart`: merge into an entry with the same id, else append |
| CartContext.UpdateQuantity | client/src/context/CartContext.jsx:46-58 | definition of `updateQuantity`: below 1 removes, else sets |
| CartContext.ClearCart | client/src/context/CartContext.jsx:60-62 | definition of `clearCart` |
| CartContext.CartCount | client/src/context/CartContext.jsx:64 | definition of `cartCount`, the fold of the quantities |
| CartContext.CartTotal | client/src/context/CartContext.jsx:65 | definition of `cartTotal`, the fold of price times quantity |
| CartContext.AddQuantity | client/src/context/CartContext.jsx:32-36 | same length; the matching entries gain `qty`, the others are unchanged |
| CartContext.SetQuantity | client/src/context/CartContext.jsx:51-57 | same length; the matching entries get `qty`, the others are unchanged |
| CartContext.RemoveFromCart | client/src/context/CartContext.jsx:42-44 | no longer than before; an entry is kept exactly when its id differs |
| CartContext.AddExistingIncreasesOnlyThatEntry | client/src/context/CartContext.jsx:30-36 | adding a present product keeps the length and raises only the matching entries by `qty` |
| CartContext.AddNewAppends | client/src/context/CartContext.jsx:38 | adding an absent product appends `{product, qty}` |
| CartContext.AddKeepsIdsDistinct | client/src/context/CartContext.jsx:28-40 | ids stay pairwise distinct |
| CartContext.AddKeepsQuantitiesPositive | client/src/context/CartContext.jsx:28-40 | adding at least 1 keeps every quantity at least 1 |
| CartContext.AddQuantityAt | client/src/context/CartContext.jsx:32-36 | with distinct ids, only entry `k` changes, by `qty` |
| CartContext.RemoveAbsent | client/src/context/CartContext.jsx:43 | removing an absent id changes nothing |
| CartContext.RemoveAppend | client/src/context/CartContext.jsx:43 | removal distributes over concatenation, so relative order is kept |
| CartContext.RemoveAt | client/src/context/CartContext.jsx:43 | with distinct ids, removing entry `k`'s id deletes exactly that entry |
| CartContext.RemoveKeepsIdsDistinct | client/src/context/CartContext.jsx:43 | ids stay pairwise distinct |
| CartContext.RemoveKeepsQuantitiesPositive | client/src/context/CartContext.jsx:43 | quantities stay at least 1 |
| CartContext.UpdateBelowOneRemoves | client/src/context/CartContext.jsx:46-50 | a quantity below 1 is the same as removing |
| CartContext.UpdateSetsOnlyMatching | client/src/context/CartContext.jsx:51-57 | a quantity of at least 1 sets it on the matching entries only |
| CartContext.UpdateAbsentUnchanged | client/src/context/CartContext.jsx:46-57 | updating an absent id changes nothing |
| CartContext.UpdateKeepsIdsDistinct | client/src/context/CartContext.jsx:46-57 | ids stay pairwise distinct |
| CartContext.UpdateKeepsQuantitiesPositive | client/src/context/CartContext.jsx:46-57 | quantities stay at least 1 |
| CartContext.CountAppend | client/src/context/CartContext.jsx:64-65 | count and total of a concatenation are the sums of the parts |
| CartContext.CountSingle | client/src/context/CartContext.jsx:64-65 | a single entry counts its quantity and totals price times quantity |
| CartContext.CountSplit | client/src/context/CartContext.jsx:64-65 | count and total split around any entry |
| CartContext.LineTotalAdd | client/src/context/CartContext.jsx:34 | raising a quantity by `qty` raises the line total by price times `qty` |
| CartContext.AddExistingChangesCountAndTotal | client/src/context/CartContext.jsx:30-36 | adding a present product raises the count by `qty` and the total by price times `qty` |
| CartContext.AddNewChangesCountAndTotal | client/src/context/CartContext.jsx:38 | adding a new product raises the count by `qty` and the total by price times `qty` |
| CartContext.RemoveChangesCountAndTotal | client/src/context/CartContext.jsx:43 | removing an entry lowers count and total by its quantity and line total |
| CartContext.CountAtLeastLength | client/src/context/CartContext.jsx:64 | with quantities at least 1 the count is at least the number of entries |
| CartContext.ClearEmpties | client/src/context/CartContext.jsx:60-65 | after clearing the cart is empty and count and total are 0 |

## Left out

- HTTP routing, JSON bodies and status codes: each route answers with a `Result` whose error names the refusal.
- Persistence: collections are maps keyed by id. The database's id generator is the counter `Shop.nextId`. `Setting.get` is a map lookup.
- The HTTP call to the messaging service (server/whatsapp.js:26-51): its answer is the input `Whatsapp.Remote` (answered OK or not, with a message, or threw).
- `setInterval` and `Date.now()`: the sweep is a method taking `now`. Of the routes only send and verify read the clock, so only they take `now`; the consuming routes need none because consumption ignores expiry.
- The send route's `Date.now()` reads (server/server.js:253, :263 and :264) are one instant `now`. The route reads the clock separately for `expiresAt` and `createdAt`, so the route only guarantees `expiresAt <= createdAt + 300000`; `Otp.WellFormedRecord`'s `expiresAt == createdAt + TtlMs` holds by this choice.
- `Math.random`: the code is a parameter constrained to 1000..9999.
- Interleaving of concurrent requests on the shared map: each route runs to completion in the model.
- Message texts: the OTP text keeps only "Your OTP is: " and the code; the order confirmation is a fixed string; the `whatsappSent` message variant is not modelled.
- The owner notification in both order routes: both routes discard its result, so it affects no state.
- The server's error branches on exceptions (malformed ids, database failures): not modelled.
- Prices and quantities are integers; JavaScript's floating-point numbers are not modelled.
- The stored code is compared as a string, as the verify route compares with `!==`; a code sent as a JSON number would never match, and that is not modelled separately.
- Records are values in the map; mutating a record obtained from the map is modelled as writing the updated record back, so aliasing of record objects is not modelled.
- The profile read routes, category, banner, enquiry and product CRUD, uploads, the seed route and order status updates.
- The client's `localStorage` persistence, React pages and components, timers, discount display and `extract_colors.js`.
- Server.Shop.PlaceCartOrder: the schema's `min: 1` on item quantities is modelled as a failed save; other schema checks are not.
