# Billing-record state machine of express-stripe, in Dafny

This project models the part of the express-stripe billing backend that changes a user's billing
state. Three pieces drive it: the provider's webhook events, the webhook controller that dispatches
them, and the local half of subscription cancellation.

- The `User` table (src/db/schema.ts) is an immutable `UserRow` datatype. The table is a
  `map<int, UserRow>` keyed by the primary key `id`.
  - `Schema.WellFormed` is what the database guarantees of every table state.
  - The key is the row's own `id` and is a 32-bit `integer`.
  - `email` is unique.
  - Every `varchar(n)` column holds at most n characters.
- Each handler of src/stripe/webhookHandlers.ts is a pure function. It takes the table, the event's
  object and a `DbFaults` oracle (does the read or the write raise?), and returns the handler's
  `WebhookResponse` together with the new table.
  - An update is written as its SET clause (`Queries.Assignment`). `Queries.Apply` leaves every other
    column alone.
  - Each handler's contract names the columns that change, the row they change on, and the error
    code returned in every other case. In every failure case the table is unchanged.
- The reverse lookup `getUserIdByStripeCustomerId` returns the row id as a string, and the handlers
  turn it back with `Number(userId)`. The model keeps this string hop: `JsNumber.IntToString` and
  `JsNumber.ParseId` are connected by a round-trip lemma.
- `webhookController` (src/stripe/stripeWebhook.ts) takes three inputs: the signature header, the
  answer of the provider library's signature check (an oracle), and the verified event. Its result
  is the HTTP reply, the table, and which handler ran.
- `cancelSubscriptionController` (src/stripe/cancelSubscription.ts) takes the provider's answer to
  the subscription update as an input. Its result includes the request the provider would receive.
  That shows when the provider is called, with what, and that the local write happens only after the
  provider succeeds.
- The clock (`new Date()`) is a `now: Timestamp` parameter.

Two behaviours of the code differ from what its comments and exports suggest. The model follows
the code in both:

- The comment at src/stripe/webhookHandlers.ts:174 speaks of handling statuses such as `past_due`,
  but for "subscription updated" the code starts `plan` at `"free"`, and only status `"active"`
  turns it to `"pro"`. So `past_due`, `incomplete` and every other status also give `"free"`; the
  plan is never left at its previous value (`WebhookHandlers.PlanForStatus`,
  `WebhookHandlers.PastDueIsFree`).
- `handleInvoicePaymentCanceled` is exported (src/stripe/webhookHandlers.ts:323), but the
  controller's switch has no case for `invoice.payment_canceled`. That event type is acknowledged
  as unhandled and changes nothing (`StripeWebhook.PaymentCanceledIsUnhandled`).

Three more behaviours of the code are stated as lemmas, not fixed:

- `stripeCustomerId` has no unique constraint. A "checkout session completed" event that carries a
  customer already linked to another user puts that customer on a second row
  (`WebhookHandlers.CheckoutCanShareCustomer`). The lookup's `limit(1)` has no ORDER BY, so it may
  then answer with either row. When at most one row carries the customer
  (`Queries.CustomerOnOneRow`), the answer is forced (`Queries.SingleRowLookupIsForced`).
- Duplicate delivery of an event, with the same clock value, is harmless, provided the event's
  customer is on one row at most (`StripeWebhook.ReplayIsHarmless`). A later redelivery of
  "subscription deleted" does move `canceledAt` to the later time.
- Out-of-order delivery is not harmless. A stale "active" update can follow a deletion and make the
  row "pro" again (`StripeWebhook.StaleUpdateRevivesSubscription`).

## Model

| member | source | states |
|---|---|---|
| Schema.WellFormed | src/db/schema.ts:10-22 | in a table state the database accepts, two different rows never share an `id` or an `email`; the empty table is such a state |
| WebhookHandlers.FoundIdIsTruthy | src/stripe/webhookHandlers.ts:163-165 | the decimal rendering of any row id is truthy, so the `!userId` test after a successful lookup never answers "User not found" |
| Schema.NewUser | src/db/schema.ts:9-24 | a new row takes the column defaults: plan "free", the default name and role, every nullable billing column null, and it fits its columns |
| Schema.LiteralsFit | src/db/schema.ts:18-22 | "free" and "pro" fit `plan` (10); "canceled", "canceling", "succeeded" and "failed" fit the status columns (25) |
| JsNumber.IntToString | src/stripe/webhookHandlers.ts:373 | `id.toString()` is never empty, so the handlers' `!userId` test never fails on a found id |
| JsNumber.NatToDigits | src/stripe/webhookHandlers.ts:373 | the decimal rendering of a natural number is a nonempty string of digits |
| JsNumber.ParseId | src/stripe/webhookHandlers.ts:84 | `Number(s)` on decimal strings; a non-negative result for unsigned input |
| JsNumber.ParseIdOfIntToString | src/stripe/webhookHandlers.ts:373 | `Number(String(id))` gives back `id` for every integer, so the string hop through the lookup finds the same row |
| Queries.Least | src/stripe/webhookHandlers.ts:371 | the row chosen by `limit(1)` is a member of the matching set and no other member has a smaller id |
| Queries.SelectByCustomerId | src/stripe/webhookHandlers.ts:366-373 | a found id names a row whose `stripeCustomerId` equals the searched id; no result means no row carries it; a null id matches nothing |
| Queries.SelectByCustomerIdStable | src/stripe/webhookHandlers.ts:366-373 | tables that agree on ids and on the `stripeCustomerId` column give the same lookup answer when at most one row carries the customer |
| Queries.Apply | src/stripe/webhookHandlers.ts:227-233 | a `.set()` clause writes each listed column with its value and leaves every other column of the row as it was; an empty clause changes nothing |
| Queries.SingleRowLookupIsForced | src/stripe/webhookHandlers.ts:366-373 | when at most one row carries the customer, `limit(1)` must return that row, whatever order the database reads in |
| Queries.UpdateById | src/stripe/webhookHandlers.ts:226-234 | an update by id raises exactly on a write fault, a non-`integer` id, or a value too long for its column, whether or not the row exists; otherwise it rewrites that one row through the SET clause and no other row |
| Queries.UpdateByEmailSingleRow | src/stripe/webhookHandlers.ts:28-32 | the update by email raises exactly on a write fault or an over-long value; because email is unique (src/db/schema.ts:12) it rewrites only the row carrying the email and returns that single id |
| Queries.UpdateKeepsWellFormed | src/db/schema.ts:10-23 | rewriting one row with values that fit keeps the key, uniqueness and length constraints |
| Queries.UpdateByEmailKeepsWellFormed | src/db/schema.ts:12 | a successful update by email changes a single row, which carries that email, and keeps the constraints |
| WebhookHandlers.GetUserIdByStripeCustomerId | src/stripe/webhookHandlers.ts:361-381 | empty or null id gives null without a lookup; a failed query gives null; a result parses back to the id of a row linked to that customer; null (after a real query) means no row is linked |
| WebhookHandlers.PlanForStatus | src/stripe/webhookHandlers.ts:174-183 | the plan is "pro" exactly when the status is "active", and "free" for every other status |
| WebhookHandlers.PastDueIsFree | src/stripe/webhookHandlers.ts:175-183 | a "past_due" update downgrades to "free" |
| WebhookHandlers.UpdateResolvedUser | src/stripe/webhookHandlers.ts:163-193 | the lookup-based handlers answer USER_NOT_FOUND with the table unchanged when the lookup gives null; they answer their own error with the table unchanged when the update raises; otherwise they rewrite only the resolved row |
| WebhookHandlers.HandleCustomerCreated | src/stripe/webhookHandlers.ts:12-59 | no email gives MISSING_EMAIL; a write fault, or a customer id too long for its column, gives DATABASE_ERROR; otherwise no row with that email gives USER_NOT_FOUND; the table changes only on success, and then only `stripeCustomerId` of the one row with that email |
| WebhookHandlers.HandleCheckoutSessionCompleted | src/stripe/webhookHandlers.ts:61-105 | no metadata userId gives MISSING_USER_ID; an absent row with a well-formed id and a customer that fits gives USER_NOT_FOUND, and that is the only case that does; every other failure (a non-numeric or out-of-range id, a write fault, a customer id too long) gives DATABASE_ERROR; on success row `Number(userId)` gets plan "pro", last payment "succeeded" and the session's customer, and nothing else changes |
| WebhookHandlers.HandleSubscriptionCreated | src/stripe/webhookHandlers.ts:107-156 | a failed read or a failed update gives SUBSCRIPTION_ERROR; no linked row gives USER_NOT_FOUND; on success the linked row gets plan "pro", the payload's status and id, and `canceledAt` cleared, and nothing else changes |
| WebhookHandlers.HandleSubscriptionUpdated | src/stripe/webhookHandlers.ts:159-207 | no linked row gives USER_NOT_FOUND; a failed update gives SUBSCRIPTION_UPDATE_ERROR; on success the row's status and subscription id are copied from the payload, and its plan is "pro" iff the status is "active", else "free" |
| WebhookHandlers.HandleSubscriptionDeleted | src/stripe/webhookHandlers.ts:210-248 | no linked row gives USER_NOT_FOUND; a write fault gives CANCELLATION_ERROR; on success the row has plan "free", status "canceled", no subscription id and `canceledAt = now`, and nothing else changes |
| WebhookHandlers.HandleInvoicePaymentSucceeded | src/stripe/webhookHandlers.ts:251-284 | on success only the row's last payment ("succeeded") and plan ("pro") change; otherwise USER_NOT_FOUND or PAYMENT_SUCCESS_ERROR with the table unchanged |
| WebhookHandlers.HandleInvoicePaymentFailed | src/stripe/webhookHandlers.ts:288-320 | on success only the row's last payment changes, to "failed"; otherwise USER_NOT_FOUND or PAYMENT_ERROR with the table unchanged |
| WebhookHandlers.HandleInvoicePaymentCanceled | src/stripe/webhookHandlers.ts:323-358 | on success only the row's last payment changes, to "canceled"; otherwise USER_NOT_FOUND or PAYMENT_CANCELLATION_ERROR with the table unchanged |
| WebhookHandlers.CheckoutCanShareCustomer | src/stripe/webhookHandlers.ts:76-96 | a completed checkout for a user, carrying a customer already linked to another user, succeeds and leaves the customer on both rows |
| WebhookHandlers.UpdateResolvedUserReplay | src/stripe/webhookHandlers.ts:163-193 | a lookup-based handler that leaves `stripeCustomerId` alone gives the same response and table when applied a second time, when at most one row carries the customer |
| WebhookHandlers.SubscriptionCreatedReplay | src/stripe/webhookHandlers.ts:113-138 | a second "subscription created" delivery gives the same response and table as the first, when at most one row carries the customer |
| WebhookHandlers.CustomerCreatedReplay | src/stripe/webhookHandlers.ts:27-47 | a second "customer created" delivery gives the same response and table as the first |
| WebhookHandlers.CheckoutSessionCompletedReplay | src/stripe/webhookHandlers.ts:76-96 | a second "checkout session completed" delivery gives the same response and table as the first |
| WebhookHandlers.SubscriptionDeletedIdempotent | src/stripe/webhookHandlers.ts:226-234 | applying "subscription deleted" twice with the same `now` equals applying it once, when at most one row carries the customer |
| StripeWebhook.Route | src/stripe/stripeWebhook.ts:35-80 | a routed event type is the one its handler is written for, and it never routes to the invoice-cancellation handler |
| StripeWebhook.RouteReachesHandler | src/stripe/stripeWebhook.ts:35-80 | each of the seven dispatched handlers is reached from its own event type and from no other; the invoice-cancellation handler is reached from none |
| StripeWebhook.Run | src/stripe/stripeWebhook.ts:36-75 | invoking any handler keeps the table constraints |
| StripeWebhook.ReplayIsHarmless | src/stripe/stripeWebhook.ts:35-75 | running any handler twice on the same event with the same `now` gives what one run gives, when a lookup-based handler's customer is on one row at most |
| StripeWebhook.DispatchEvent | src/stripe/stripeWebhook.ts:32-80 | an event runs exactly its routed handler, once; an unrouted type runs none; no failure escapes as an exception |
| StripeWebhook.Acknowledge | src/stripe/stripeWebhook.ts:77-90 | after verification the reply is always 200; unhandled types get the "Unhandled event type" message; a handled event reports its handler's `success`, false included; an exception reports `success: false` |
| StripeWebhook.WebhookController | src/stripe/stripeWebhook.ts:14-91 | a missing or empty signature, or a failed verification, gives 400 with no handler run and the table unchanged; every other request gives 200; an unhandled type leaves the table unchanged; a handled one takes the handler's table and reports its success |
| StripeWebhook.PaymentCanceledIsUnhandled | src/stripe/stripeWebhook.ts:77-79 | "invoice.payment_canceled" is acknowledged as unhandled and changes nothing |
| StripeWebhook.RedeliveryIsHarmless | src/stripe/stripeWebhook.ts:32-90 | delivering the same verified request twice with the same `now` leaves the table and the reply of a single delivery, when a lookup-based handler's customer is on one row at most |
| StripeWebhook.HandlersKeepPlansKnown | src/stripe/webhookHandlers.ts:175-183 | if every plan is "free" or "pro" before a handler, the same holds after it |
| StripeWebhook.StaleUpdateRevivesSubscription | src/stripe/webhookHandlers.ts:186-193 | an "active" update delivered after the deletion makes the deleted row "pro", with a subscription id and status "active" again, when the customer is on one row at most |
| CancelSubscription.Cancel | src/stripe/cancelSubscription.ts:7-59 | a failed read gives 500; no row, a null or an empty subscription id gives 404, with no provider call and the table unchanged; otherwise the provider is asked to update the stored, non-empty subscription id with `cancel_at_period_end: true`; a provider or write failure gives 500 with the table unchanged; on 200 only status "canceling" and `canceledAt = now` change, and the reply reports "canceling" and the provider's `cancel_at` |
| CancelSubscription.CancelKeepsEntitlement | src/stripe/cancelSubscription.ts:34-40 | cancellation never changes any row's plan, subscription id, last payment status or customer id |
| CancelSubscription.CancelKeepsLookup | src/stripe/cancelSubscription.ts:34-40 | the reverse lookup gives the same answer before and after a cancellation, when at most one row carries the customer |
| CancelSubscription.CancelThenDeleted | src/stripe/cancelSubscription.ts:37-38 | a cancellation followed by a written "subscription deleted" for that user ends exactly where the deletion alone ends, whatever the intermediate state, when that user is the only row carrying the customer |

## Left out

- The provider SDK is not modelled. Signature verification (`constructEvent`) and
  `subscriptions.update` are oracle inputs.
- Checkout-session and payment-intent creation (src/stripe/checkout.ts, src/stripe/payment.ts) are
  left out. They only pick a price id from the environment and relay the provider's answer.
- Postgres and Drizzle are not modelled. The table is a map, and a failing statement is a
  `DbFaults` flag.
- A write fault, or a SET value too long for its column, raises whether or not the update matches a
  row. The model takes the values to be bound parameters whose `varchar(n)` coercion Postgres folds
  while planning the statement; a prepared statement with a generic plan would instead raise only
  when it writes a row. The model does not say which Postgres error is raised.
- Queries.UpdateById: a value longer than its `varchar` column always raises in the model. Postgres
  instead truncates a value whose excess characters are all spaces and the statement succeeds, so
  such a customer id, subscription id or status gets the handler's error in the model where the
  code links or updates the row. `Queries.UpdateByEmail` and `Queries.AssignmentFits` share this.
- The clock is the `now` parameter. Logging (`console.*`) has no behaviour to model.
- Express plumbing and configuration are left out: src/main.ts, src/middleware/errorHandler.ts, the
  routers and drizzle.config.ts.
- src/middleware/enforceFreeUsersLimit.ts is left out. It has no logic.
- Concurrent and interleaved requests are left out. Each call runs alone against the table, so the
  cancellation's `returning` row always exists.
- Exceptions other than the modelled faults are left out. The controller's catch branch is shaped by
  `StripeWebhook.Acknowledge`, but `StripeWebhook.DispatchEvent` never produces it.
- JsNumber.ParseId: only `[+-]digits` and the empty string map to a number; every other string is
  NaN. JavaScript's `Number` also accepts surrounding whitespace, fractions equal to integers,
  exponents and hex, octal or binary prefixes. A checkout session whose `metadata.userId` is written
  that way gets DATABASE_ERROR in the model instead of an update.
- Queries.SelectByCustomerId: `limit(1)` without ORDER BY may return any matching row. The model
  always picks the least id. Every lemma that compares two lookups (the replay lemmas,
  `Queries.SelectByCustomerIdStable`, `CancelSubscription.CancelKeepsLookup`,
  `CancelSubscription.CancelThenDeleted`, `StripeWebhook.StaleUpdateRevivesSubscription`) therefore
  requires `Queries.CustomerOnOneRow`, under which the choice does not matter. With the customer on
  two rows the database may answer the two lookups differently, and nothing is claimed then.
- CancelSubscription.Cancel: `userId` is an integer. Other JSON values of the request body are not
  modelled. The driver's message of a database error is not carried in the 500 body.
- The event object is one record holding every field a handler reads. This mirrors the unchecked
  casts in the controller. The provider's wire format is not modelled.
