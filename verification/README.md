# BharatBartan order and payment bookkeeping, in Dafny

This project models the order and payment logic of the BharatBartan storefront
backend (`server.js`, an Express application over MongoDB). Each handler is a
pure function. It takes the in-memory order store and a request, and returns
the next store and the response.

The handlers modelled:

- the cart upsert (`POST /api/cart`);
- direct order recording (`POST /api/order`);
- guest order recording (`POST /api/save-order`);
- the administrative status override (`PUT /api/orders/:id/status`);
- client-driven payment verification (`POST /api/verify-payment`);
- the gateway webhook (`POST /webhook/razorpay`).

Modules:

- `Basics` (basics.dfy): `Option` and the "first element satisfying a test" search. Both `Array.find` and `findOne` perform this search.
- `Numerals` (numerals.dfy): decimal rendering of integers as `${n}` prints them for |n| < 10^21, and its inverse.
- `Signature` (signature.dfy): the message signed on the verification path and the signature comparison. The keyed hash is a function parameter (`Hmac`).
- `Cart` (cart.dfy): cart items, the upsert, and its frame and uniqueness facts.
- `Orders` (orders.dfy): the `Order` document and its defaults, the store, and the amount and product-list computation. It also holds the guest sentinels and the two in-place status updates.
- `Handlers` (handlers.dfy): requests, responses and the endpoint functions, with the reconciliation lemmas.

The store is a sequence of orders in insertion order, plus the id that the next
saved order receives. This id stands in for MongoDB's `_id`. `Orders.Valid`
says that ids strictly increase along the sequence, so they are unique. Every
handler preserves it. The model assumes that `findOne` without a sort returns
the earliest inserted match, so "the first order with payment id p" is the
first such element of the sequence. MongoDB does not guarantee this natural
order (see "## Left out").

The model follows the code as written:

- The signature check is plain string equality (`===`), not a constant-time comparison.
- Verify-payment always inserts a new order. It never looks for an existing order with that payment id, and it never upserts. Replaying a confirmed verification therefore creates a second paid order (`Handlers.VerifyPaymentNotIdempotent`).
- Persistence failures are caught only in save-order and verify-payment. `/api/order` and the status override have no error path for a failed save.
- The webhook never reads the event type. Any correctly signed event marks the order paid, `payment.failed` included (`Handlers.WebhookIgnoresEventType`).
- The status override accepts any string, including one that moves an order out of "Paid". Only the two reconciliation paths never regress a paid order (`Handlers.PaidNeverRegresses`).

## Model

| member | source | states |
|---|---|---|
| `Basics.FirstIndex` | server.js:90 | The search result is present exactly when some element passes the test, and it is then the position of the first one that does. |
| `Cart.Add` | server.js:90-92 | Existing product: same length, only the first matching item changes, and its quantity rises by one. New product: `{productId, title, price, quantity: 1}` is appended. |
| `Cart.AddIncrementsTheItem` | server.js:90-91 | With unique product ids, the upsert raises the quantity of the item for that product and leaves every other item alone. |
| `Cart.AddPreservesUniqueness` | server.js:90-92 | If product ids are pairwise distinct before the upsert, they are still distinct after it. |
| `Cart.AddAddsOneUnit` | server.js:90-92 | In either branch, the cart holds exactly one more unit of the product and the same quantity of every other product. |
| `Cart.PostCart` | server.js:87-95 | For an existing user: only that user's cart changes, to the upserted cart, which is also the response. Every other user is unchanged. |
| `Numerals.IntToStringRoundTrip` | server.js:136 | The decimal text that the product list embeds for a quantity parses back to that quantity. |
| `Numerals.ParseIntRoundTrip` | server.js:206 | Every canonical integer numeral is the rendering of the integer it denotes, so rendering is a bijection onto canonical numerals. |
| `Numerals.IntToStringInjective` | server.js:136 | Different quantities give different quantity text. |
| `Signature.PaymentMessage` | server.js:198-201 | The signed message is the order id, then a vertical bar, then the payment id, and each part can be read back from its position. |
| `Signature.MatchesExactlyTheDigest` | server.js:203 | A signature passes exactly when it is present and equals the HMAC digest of the message. A missing signature never passes. |
| `Signature.TamperedSignatureFails` | server.js:245 | Changing any single character of the correct digest makes the check fail. |
| `Signature.PaymentMessageInjective` | server.js:200 | When order ids contain no vertical bar, one signed message cannot stand for two different (order id, payment id) pairs. |
| `Orders.Insert` | server.js:145 | Saving a new document appends it with an id no existing order has, keeps every earlier order, and preserves the uniqueness of ids. |
| `Orders.OrDefault` | server.js:139 | The JavaScript or-operator with a fallback: the stored value is either the supplied value or the fallback, a non-empty supplied value is kept, and with a non-empty fallback the stored value is never empty. |
| `Orders.ReduceIsSum` | server.js:135 | The left-to-right reduce that computes `totalAmount` equals the sum of price times quantity over the items. |
| `Orders.ProductList` | server.js:136 | The product list has one entry per item, in order, and entry i is `title_i + " x" + quantity_i`. |
| `Orders.DescribeRecoversItem` | server.js:136 | A product description starts with the title and " x", and the rest parses back to the quantity. |
| `Orders.MarkPaid` | server.js:249-252 | Only the first order whose payment id matches gets status "Paid", and nothing else changes. With no such order the store is unchanged. |
| `Orders.MarkPaidIdempotent` | server.js:249-252 | Marking the same payment paid twice gives the same store as marking it once. |
| `Orders.SetStatus` | server.js:158-160 | There is no result exactly when no order has the id. Otherwise only the order found has its status replaced. |
| `Orders.SetStatusTouchesOnlyThatOrder` | server.js:158-160 | In a valid store, exactly the order with that id gets the new status, and every other order is unchanged. |
| `Handlers.Materialise` | server.js:133-143 | The built order has amount = sum of price × quantity, one "title xN" entry per item, and the guest email and "Not Provided" sentinels exactly when those fields are absent or empty. It has no gateway ids and status "Processing". |
| `Handlers.PostOrder` | server.js:107-128 | Appends one order. It stores email, address, amount, product list and both gateway ids exactly as sent, with no sentinels and status "Processing". Existing orders are unchanged. |
| `Handlers.SaveOrder` | server.js:131-151 | Missing items or a failed save: a 500 and an unchanged store. Otherwise: one appended guest order and a reply carrying its fresh id. |
| `Handlers.UpdateStatus` | server.js:156-163 | Unknown id: 404 and an unchanged store. Known id: "Status updated", with the store updated as `SetStatus` describes. |
| `Handlers.UpdateStatusFrame` | server.js:158-162 | On a valid store, the override changes only the status of the order with that id, and no order is added or removed. |
| `Handlers.VerifyPayment` | server.js:195-228 | Mismatch: `verified: false` and an unchanged store. Match with a failed save or no items: `verified: true`, a save error, and an unchanged store. Otherwise: exactly one order is appended. It has status "Paid", both gateway ids, the computed amount and list, and the guest sentinels. Earlier orders are unchanged. |
| `Handlers.VerifyPaymentNotIdempotent` | server.js:209-220 | Replaying a confirmed verification appends a second paid order with the same payment id under a different id, and the two replies differ. |
| `Handlers.Webhook` | server.js:237-271 | Mismatch: 400 and an unchanged store. Match: always 200, and the store is updated as `MarkPaid` describes for the event's payment id. |
| `Handlers.WebhookIdempotent` | server.js:245-252 | Delivering the same webhook twice gives the same store and response as delivering it once. |
| `Handlers.WebhookOnlyMarksPaid` | server.js:249-252 | The webhook adds and removes no order. Each order either stays the same or changes only its status, to "Paid". |
| `Handlers.PaidNeverRegresses` | server.js:209-252 | Neither the webhook nor verify-payment moves an order that is "Paid" to any other status. |
| `Handlers.WebhookAfterVerifyIsNoOp` | server.js:209-252 | Suppose verify-payment has recorded the first order for a payment. The webhook for that payment then finds that order, which is already paid, and leaves the store unchanged. |
| `Handlers.WebhookIgnoresEventType` | server.js:245-252 | A correctly signed webhook updates the store the same way whatever its event type, so a `payment.failed` event marks the first order with that payment id "Paid". |
| `Handlers.GatewayAmount` | server.js:184 | The amount sent to the gateway is a whole number of hundreds, and dividing it by 100 gives the rupee total back. |

## Left out

- HTTP routing, body parsing and CORS (server.js:13-15). Each handler is a function returning a response value instead.
- MongoDB persistence (server.js:21-23). The store is an in-memory sequence. A failed save is the `persisted` parameter, and only where the source catches it (server.js:147-150, server.js:221-224).
- HMAC-SHA256 and `JSON.stringify` (server.js:198-201, server.js:241-243). They are library calls. The model takes them as the function parameters `Hmac` and `Serializer`, and the signing secret is a parameter too.
- Google OAuth, passport and sessions (server.js:51-85). These are external identity plumbing.
- The crash when no user matches `googleId` in the cart upsert (server.js:89-90). `Cart.PostCart` requires the user to exist. Users are a map keyed by `googleId`, so the model assumes one user per Google id.
- Cart.PostCart: does not model a request without `googleId`. server.js:88-89 then run `User.findOne({ googleId: undefined })`, which Mongoose treats as `findOne({})`, so the source upserts an arbitrary user's cart and sends that cart back (server.js:90-94). The model's `googleId` is always a string and must name an existing user.
- `GET /api/cart/:googleId` and `POST /api/address` (server.js:96-106). They read or overwrite one user field and have no order or payment logic.
- Email dispatch after a webhook (server.js:230-236, server.js:254-264). It is a fire-and-forget side effect that never changes the store or the response.
- Razorpay order creation and the key endpoint (server.js:170-193). These are a gateway call with a random receipt string. Only the rupees-to-paise conversion is modelled (`Handlers.GatewayAmount`).
- `GET /api/orders` and the `createdAt` timestamp (server.js:48, server.js:152-155). Both depend on the clock.
- Floating-point numbers. Prices, quantities and totals are mathematical integers. JavaScript `Number` rounding, `NaN` from malformed items, and non-integral quantities in `${quantity}` are not modelled.
- Handlers.Webhook: reduces the body to three fields (event type, payment id, order id), so `Serializer` sees only those fields and not the rest of the JSON body. A correctly signed body with no `payload.payment.entity` throws at server.js:246 and gets no response. An entity with no `id` makes server.js:249 query `findOne({ razorpayPaymentId: undefined })`, which Mongoose treats as `findOne({})`, so the source marks an arbitrary order "Paid" and answers 200. Neither path is modelled, because the payment id is always a string. The order id extracted at server.js:247 is never used.
- Absent ids on the verification path. The gateway order id and payment id are strings. The source would concatenate `undefined` into the message.
- Invalid `:id` strings on the status override (a cast error in the source) and an absent `status` field. The id is a natural number and the status is a string.
- Cart.Add: takes the request's `productId` as a string. The schema casts the stored id to a String (server.js:31), but the lookup compares it with `===` against the raw request value (server.js:90). A JSON-number `productId` such as 5 never matches the stored "5", so the source appends a second item for the same product. `Cart.AddPreservesUniqueness` therefore holds only for string product ids.
- Orders.MarkPaid: assumes `findOne` without a sort (server.js:249) returns the earliest inserted matching order. MongoDB's natural order is not guaranteed to be insertion order. This matters only when several orders share a payment id, which verify-payment replays and `/api/order` can produce. `Handlers.WebhookAfterVerifyIsNoOp` rests on the same assumption.
- Numerals.IntToString: renders every integer in plain decimal. JavaScript prints integral Numbers with magnitude at least 10^21 in exponent form ("1e+21").
- Concurrency. Handlers run one at a time, so the race between verify-payment and the webhook on the same payment is not modelled.
