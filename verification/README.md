# PaymentGateway: Stripe webhook reconciliation and Mollie route helpers

This project models two parts of the PaymentGateway server in Dafny.

**The Stripe webhook endpoint** (`router.post('/')` in `src/webhook.js`). The
handler receives an event whose signature Stripe's SDK has already checked.
A failed check is answered with 400 and `Webhook Error: <message>`. A verified
event is dispatched on its `type` to one operation on the `StripePayment`
collection (the stored documents of `src/models/stripePayement.model.js`):

- `checkout.session.completed` creates a document;
- `payment_intent.succeeded` and `payment_intent.payment_failed` update the
  first document whose `paymentIntentId` is the intent's id, if there is one;
- `charge.updated` upserts on the charge's `payment_intent`;
- every other type is ignored.

Every verified event is then answered with `{ received: true }`, even when the
store operation throws.

The collection is the class `Store.StripePayments`. Its `records` field is a
`seq<PaymentRecord>` that `Create` and `FindOneAndUpdate` reassign. The handler
is the method `Webhook.Handle`. Each method is proved against a pure function
(`Store.Created`, `Store.Updated`, `Webhook.Dispatch`, `Webhook.Webhook`). The
lemmas state what the source promises about those functions.

**The Mollie helpers in `index.js`**:

- `getRedirectUrl` and `getWebhookUrl`;
- the payment data sent to Mollie, which carries `webhookUrl` only when it is
  configured;
- the error body of a failed payment creation;
- the payment-id check of `GET /mollie-session/:paymentId`.

Modules: `Js` (JavaScript values, `||`, `String.prototype.includes`),
`PaymentRecords` (the schema), `Store` (the collection), `Webhook` (the
endpoint), `MollieRoutes` (the `index.js` helpers).

## Modelling assumptions

- A JavaScript value is `Value<T>`: `Undefined`, `Null` or `Defined(v)`.
- A key whose value is `undefined` in an update document leaves the stored path
  unchanged. `null` overwrites the path. This is how Mongoose treats updates.
- The store runs in strict mode. Keys the schema does not declare are
  discarded. The handler passes two such keys: `updated` on both
  payment-intent branches, and `error` on the failure branch. `UpdateDoc.stray`
  holds them, and `Store.Updated` never reads it.
- A filter `{ paymentIntentId: null }` (or `undefined`, which the driver sends
  as `null`) matches documents whose path is `null` or missing. An upsert on
  such a key stores `null`. This follows MongoDB's semantics.
- The collection is a sequence, and its order stands for MongoDB's natural
  order. `findOneAndUpdate` without `sort` updates the first document in that
  order, which MongoDB does not promise to be insertion order.
- The clock (`new Date()` and the store's timestamps) is the parameter `now`.
  A throwing store operation is the parameter `fault`. A throwing operation
  writes nothing.
- The outcome of `stripe.webhooks.constructEvent` is the input
  `verified: Result<Event, string>`. `Err` carries `err.message`.

## Where the code differs from an idealised reconciler

The model follows the code, not an idealised reconciler:

- A repeated `checkout.session.completed` creates a second document
  (`RepeatedSessionCompletedDuplicates`). The code calls `create`, and no
  schema path is unique.
- `charge.updated` replaces `billingDetails` as a whole. `name` and `email`
  default to `''`, and `address` defaults to `{}`.
- `payment_intent.payment_failed` passes its message under `error`, not
  `errorMessage`. So no event ever writes `errorMessage`.
- `payment_intent.succeeded` stores the intent's own `status`. The code does
  not force it to a fixed value.

## Model

| member | source | states |
|---|---|---|
| `Webhook.Handle` | src/webhook.js:11-99 | The collection and the response after one request are exactly those of `Webhook.Webhook` applied to the old collection. |
| `Webhook.RejectedEventWritesNothing` | src/webhook.js:15-20 | A failed signature check gives status 400 with body `"Webhook Error: " + message` and leaves the collection unchanged. |
| `Webhook.VerifiedEventAcknowledged` | src/webhook.js:94-98 | A verified event always gets 200 `{ received: true }`, including when the store throws, and a throwing store writes nothing. |
| `Webhook.ClassifyRoundTrip` | src/webhook.js:27-92 | Each of the four handled branches is reached by exactly one type tag, and every other tag goes to `default`. |
| `Webhook.UnhandledEventIgnored` | src/webhook.js:91-92 | An event type outside the four handled ones leaves the collection unchanged. |
| `Webhook.SessionCompletedAppends` | src/webhook.js:28-37 | Exactly one document is appended and the existing ones are kept. The new document holds the session's id, intent, email, amount, currency and status, and no other path. Both of its timestamps are the insertion time. |
| `Webhook.RepeatedSessionCompletedDuplicates` | src/webhook.js:28-37 | Delivering the same completed session twice appends two documents with identical paths. Nothing deduplicates. |
| `Webhook.IntentSucceededUpdatesFirstMatch` | src/webhook.js:45-52 | Only the first document with the intent's id changes: its status takes the event's status, `createdAt` is kept and `updatedAt` becomes now. With no such document the collection is unchanged and nothing is created. |
| `Webhook.IntentFailedUpdatesFirstMatch` | src/webhook.js:57-66 | Only the first matching document changes: its status becomes `'failed'`. With no match nothing changes. The message goes under the key `error`, so no `errorMessage` changes and a different message gives the same collection. |
| `Webhook.ChargeMergeApplies` | src/webhook.js:75-83 | Merging the charge document sets charge id, receipt URL and status. It sets the method type to the given type or `''`, replaces `billingDetails` as a whole, and keeps every other path. |
| `Webhook.ChargeBilling` | src/webhook.js:79-83 | The billing details written always have a `name` and an `email`. They are `''`/`''`/`{}` when the charge has no billing details. When it has them, a truthy name or email is copied and a null or empty one becomes `''`. A present address is copied and a missing one becomes `{}`. |
| `Webhook.ChargeUpdatedUpserts` | src/webhook.js:72-86 | Afterwards some document has the charge's intent. The first match is updated as `ChargeApplied` says and nothing else changes. With no match, one document is appended holding only the intent and the charge's paths, so the count grows by at most one. |
| `Webhook.EventTouchesAtMostOne` | src/webhook.js:26-96 | Any event changes at most one existing document, never one whose `paymentIntentId` differs from the event's key, and adds at most one. |
| `Webhook.UpdateEventsIdempotent` | src/webhook.js:45-89 | Delivering any of the three update events a second time, at any later time, leaves every stored path as the first delivery left it. |
| `Webhook.CheckoutThenChargeScenario` | src/webhook.js:28-86 | A completed checkout for `pi_1` followed by `charge.updated` for `pi_1` leaves one document. It keeps amount 1999 and gains `ch_1`, `succeeded` and `card`. |
| `Store.StripePayments.Create` | src/webhook.js:30-37 | `create` appends one document stamped with the current time, or writes nothing when the store throws. |
| `Store.StripePayments.FindOneAndUpdate` | src/webhook.js:72-86 | `findOneAndUpdate` leaves the collection as `Store.Updated` says: it scans for the first match and updates it, or upserts, or writes nothing when the store throws. |
| `Store.FirstMatch` | src/webhook.js:46-47 | The result is the position of the first document the filter matches; no earlier document matches, and the result is the length when none does. |
| `Store.UpdateHitsFirstMatch` | src/webhook.js:46-52 | When document `i` is the first match, the update changes document `i` and nothing else. |
| `Store.UpdateMisses` | src/webhook.js:72-86 | With no match, an update without upsert changes nothing. An upsert appends one document that matches the filter. |
| `Store.UpdateTouchesAtMostOne` | src/webhook.js:46-86 | An update changes at most one existing document, never one the filter does not match, and keeps every `createdAt`. It gives the changed document `updatedAt = now` and grows the collection only on an upsert that found nothing. |
| `Store.UpsertLeavesMatch` | src/webhook.js:72-86 | After an upsert, some document carries the filter's key. |
| `Store.UpdateIdempotent` | src/webhook.js:46-86 | Repeating an update that does not rewrite the key leaves every stored path unchanged. |
| `PaymentRecords.MergeLaws` | src/models/stripePayement.model.js:3-29 | `$set` on schema paths is partial. An empty update is the identity, and an update into an empty document stores exactly what it gives. Repeating an update is a no-op, and two updates compose as their merge. |
| `Webhook.Classify` | src/webhook.js:27-92 | Each of the four handled cases is chosen exactly when `event.type` is its tag. Every other tag falls to `default`. |
| `Webhook.SessionDoc` | src/webhook.js:30-37 | The created document copies the session's id, intent, email, amount, currency and payment status. It has no charge path, billing details or error message. |
| `Webhook.SucceededUpdate` | src/webhook.js:48-51 | Merging the update into any document changes only `paymentStatus`, which takes the intent's status. `updated` is its only key outside the schema. |
| `Webhook.FailureMessage` | src/webhook.js:58 | The message is `undefined` when `last_payment_error` is null or missing, and that error's `message` otherwise. |
| `Webhook.FailedUpdate` | src/webhook.js:58-65 | Merging the update into any document changes only `paymentStatus`, to `'failed'`. It never gives `errorMessage`. The message travels under `error`, beside `updated`, outside the schema. |
| `Webhook.MethodType` | src/webhook.js:78 | The method type is the charge's truthy `payment_method_details.type`, and `''` otherwise. |
| `Webhook.ChargeUpdate` | src/webhook.js:74-84 | The update gives charge id, receipt URL, status, method type and billing details. It gives no intent id, session id, email, amount, currency or error message. |
| `Webhook.Dispatch` | src/webhook.js:26-96 | A throwing store or an unhandled type leaves the collection unchanged. Any event adds at most one document. Only `checkout.session.completed` and `charge.updated` can add one, and the first always does. |
| `Webhook.Webhook` | src/webhook.js:11-99 | The status is 400 exactly when verification failed, with `Webhook Error: <message>` and no write. Otherwise it is 200 `{ received: true }`, and the collection grows by at most one document. |
| `Store.Matches` | src/webhook.js:47 | A document matches `{ paymentIntentId: key }` exactly when its path and the key are equal after `undefined` is read as `null`. |
| `Store.Created` | src/webhook.js:30 | `create` keeps every document and appends one holding the given paths, with both timestamps equal to now. |
| `Store.Updated` | src/webhook.js:72-86 | `findOneAndUpdate` changes no document except the first match, and grows the collection exactly when it upserts and nothing matched. The new document then matches the filter unless the update rewrites the key. |
| `PaymentRecords.Merge` | src/models/stripePayement.model.js:3-25 | An empty update leaves a document as it is, and an update into an empty document stores what it gives. A given `paymentStatus` or `billingDetails` replaces the stored one, and a `paymentIntentId` or `errorMessage` the update leaves out is kept. |
| `PaymentRecords.Inserted` | src/models/stripePayement.model.js:28 | A new document holds exactly the given paths, with `createdAt` and `updatedAt` both equal to now. |
| `PaymentRecords.Touched` | src/models/stripePayement.model.js:28 | An updated document keeps `createdAt`, gets `updatedAt = now`, and holds its paths as `$set` merges them. |
| `Js.OrElse` | index.js:29 | `v \|\| fallback` is `v` when it is truthy and the fallback otherwise, so it is never empty when the fallback is not. |
| `Js.Includes` | index.js:45 | `includes` can only be true when the searched string is no longer than the subject. The empty string and any prefix are always found. |
| `Js.IncludesIff` | index.js:45 | `includes` is true exactly when the searched string occurs at some index. |
| `Js.IncludesChar` | index.js:179 | `includes` of a one-character string is membership. |
| `MollieRoutes.FrontendUrl` | index.js:29 | The frontend URL is the configured value when it is set and non-empty, and `"http://localhost:5173"` otherwise. It is never empty. |
| `MollieRoutes.GetRedirectUrl` | index.js:28-39 | The result always starts with the frontend URL plus `/success`. It is exactly that when the id is missing, null or empty, and it ends with the id when the id is truthy. |
| `MollieRoutes.RedirectUrlCarriesId` | index.js:33-38 | The suffix after `?mollie_id=` is exactly the truthy id the URL was built with, and there is no such suffix when no id was given. The id is not encoded, so this is not a query-string parse. |
| `MollieRoutes.GetWebhookUrl` | index.js:42-51 | The result is never `undefined`. A non-null result is truthy and ends with `/webhooks/mollie`. |
| `MollieRoutes.WebhookUrlShape` | index.js:45-50 | The result is null exactly when the setting is unset, empty, or contains `yourdomain.com` at some position. Otherwise it is the non-empty setting, free of that domain, followed by `/webhooks/mollie`. |
| `MollieRoutes.BuildPaymentData` | index.js:105-121 | The payment data has amount `EUR`, the description or `"Payment"`, the bare success redirect and the order id. It has a `webhookUrl` key exactly when `getWebhookUrl` is non-null, holding that URL, and never a null one. |
| `MollieRoutes.DescribeCreationError` | index.js:154-169 | Status 500. The message is the redirect-URL message exactly for field `redirectUrl` and the webhook-URL message exactly for `webhookUrl`, and `"Mollie payment failed"` otherwise, with the matching details. The field is reported as given, or `"unknown"` when falsy. |
| `MollieRoutes.CheckPaymentId` | index.js:179-185 | A payment id is accepted exactly when it is non-empty and has neither `{` nor `}`, which subsumes the `"{id}"` test. A rejected id gets status 400, `"Invalid payment ID format"` and the details `"Received payment ID: "` followed by the id. |

## Left out

- Stripe signature verification (`constructEvent`): HMAC over the raw body inside a foreign SDK. Its outcome is an input.
- Express routing, body parsing, CORS, environment loading, database connection and `app.listen`: I/O plumbing. Environment variables are parameters.
- Logging (`console.*`): it has no effect on state or responses.
- Concurrent and asynchronous delivery: each request is one sequential step.
- Provider session creators (`src/stripe.js`, `src/adyen.js`, `src/paypal.js`, `src/mollie.js`): thin SDK and HTTP wrappers that rely on floating-point amount conversion.
- Amount validation in `POST /create-payment/mollie` (`Number(amount)`, `isNaN`, `toFixed(2)`): floating point. The formatted amount is the parameter `amountValue`.
- Order id generation: it depends on the clock and on randomness. The id is the parameter `orderId`.
- The Mollie SDK calls (`payments.create`, `payments.update`, `payments.get`) and the Stripe and Mollie fetch routes: pass-through calls to foreign code.
- `GET /test-mollie-config`: a diagnostic echo of the same helpers.
- Mongoose type casting of payload values of the wrong type, for example a numeric string into `amountTotal`: the payload fields carry the schema's types.
