# Subscription state synchronisation of the fit9to5 functions backend

This project models the server side of the fit9to5 subscription flow: four HTTP
handlers (`createCheckoutSession`, `cancelSubscription`, `reactivateSubscription`,
`stripeWebhook`). They keep one record per user in the realtime database up to
date with the payment processor (Stripe). Each record is `users/<uid>`, with a
`subscriptionStatus` (`subscribed`, `pending_cancellation` or `unsubscribed`) and
a `stripeCustomerId`.

Layout, one module per concept:

- `wrappers.dfy` (`Wrappers`): `Option`, and `Present` for JavaScript truthiness
  of an optional string (absent and `""` are both falsy).
- `search.dfy` (`Search`): `FirstIndex`, the first-match search behind every
  `limit: 1` list call and behind "first key of the query result".
- `status.dfy` (`Status`): the three-valued status and `DerivedStatus`.
- `store.dfy` (`UserStore`): the `users` node. It is an ordered store: `order`
  is the order a query returns uids in, and `records` holds each uid's fields.
  It has single-field set writes, the client-side read with its
  `unsubscribed` default, and the reverse lookup from customer id to uid. The
  lookup is a function and also a scanning method proved equal to it.
- `processor.dfy` (`Processor`, `Events`): customers, subscriptions and
  checkout sessions held by the processor, the list, create and update calls
  the handlers make, and the webhook events.
- `handlers.dfy` (`Handlers`): each handler as a function from the state before
  a request to the response and the state after it. The steps run in source
  order, and the first failing step short-circuits.
- `backend.dfy` (`Functions`): class `Backend` holds the shared state as
  fields. Its methods run the handlers step by step, with early returns, and
  each method's postcondition is the handler function above.
- `properties.dfy` (`Properties`): the lemmas about the handler functions.

The outside world comes in as parameters:

- `verify` is the identity provider's `verifyIdToken`: a token yields its
  claims, or the call throws.
- `construct` is `stripe.webhooks.constructEvent` with the signing secret fixed.
- `failing` is the set of processor calls that throw during one request.
- `newCustomerId` and `newSessionId` are the ids the processor assigns.
- `priceId` is the configured price secret.

Two behaviours of the code worth noting:

- An `Authorization` header that starts with `Bearer ` but carries a token that
  does not verify gets **500**, not 401. The throw from `verifyIdToken` lands
  in the handler's catch-all (functions/src/index.ts:56, 113-116).
- A webhook failure inside the dispatch would answer 400, as the signature
  failure does. Store failures are not modelled (see below), so in this model
  only the signature path answers 400.

## Model

| member | source | states |
|---|---|---|
| Status.DerivedStatus | functions/src/index.ts:314-322 | total; `pending_cancellation` iff status is "active" and cancel_at_period_end is set, `subscribed` iff active and the flag is clear, `unsubscribed` iff the status is anything other than "active" |
| UserStore.ReadStatus | src/pages/Home.tsx:27-31 | a missing record or missing status field reads as `unsubscribed`; otherwise the stored value is read |
| UserStore.SetStatus | functions/src/index.ts:324-326 | a set write of one uid's `subscriptionStatus`: the field then holds the written value (`unsubscribed` included, never left absent), so the uid reads it; its customer id is kept, every other uid's record is unchanged, the store invariant is kept |
| UserStore.SetCustomerId | functions/src/index.ts:87-89 | a set write of one uid's `stripeCustomerId`: that uid then holds the id, no uid's `subscriptionStatus` field changes (an absent field stays absent), other records are unchanged, the store invariant is kept |
| UserStore.CustomerId | functions/src/index.ts:148-150 | the `stripeCustomerId` read: absent when the uid has no record, otherwise the stored field (itself possibly absent) |
| UserStore.UidByCustomerId | functions/src/index.ts:304-312 | the uid found is the first in query order whose record holds the customer id; none exactly when no uid in query order holds it, which for a well-formed store means no record at all holds it. Query order here is the order uids were first written, not the database's order by key |
| UserStore.FindUidByCustomerId | functions/src/index.ts:304-312 | the scan over the records in query order returns exactly the reverse lookup's result |
| UserStore.SetStatusLastWriteWins | functions/src/index.ts:345-347 | two status writes for one uid leave the store as the second write alone does (set semantics) |
| UserStore.SetStatusKeepsLookup | functions/src/index.ts:299-347 | a status write never changes which uid the reverse lookup finds for any customer id |
| Processor.FirstCustomerByEmail | functions/src/index.ts:69-76 | `customers.list({email, limit: 1})` returns the first customer with that exact email, or none exactly when no customer has it |
| Processor.AddCustomer | functions/src/index.ts:81-86 | a created customer is listed first, ahead of the older ones, so a later lookup by its email finds it |
| Processor.FirstActiveSubscription | functions/src/index.ts:162-173 | the first subscription of the customer whose status is "active", or none exactly when the customer has no active subscription |
| Processor.SetCancelAtPeriodEnd | functions/src/index.ts:174-176 | only `cancel_at_period_end` of the subscription with the given id changes, to the flag sent; every other subscription and field is kept |
| Processor.SetCancelAtPeriodEndKeepsActive | functions/src/index.ts:162-176 | updating the flag never changes which subscription a later active-subscription lookup finds |
| Handlers.TakeUntil | functions/src/index.ts:144 | the piece `split` returns: a prefix of the text that stops at the first occurrence of the separator, or the whole text when there is none |
| Handlers.BearerToken | functions/src/index.ts:144 | `split("Bearer ")[1]` of a header starting with `Bearer `: the text after the prefix up to the next occurrence of `Bearer `, or to the end when there is none |
| Handlers.Authenticate | functions/src/index.ts:138-146 | no bearer header exactly when the header is missing or lacks the `Bearer ` prefix; otherwise the token after the prefix is verified, and the handler is rejected exactly when verification fails |
| Handlers.CommandStatus | functions/src/index.ts:178-180 | the status a command writes is the derived status of an active subscription with the flag it sent |
| Handlers.Checkout | functions/src/index.ts:47-117 | checkout keeps the store invariant and never touches subscriptions |
| Handlers.Command | functions/src/index.ts:136-187 | a command keeps the store invariant and never touches customers or sessions |
| Handlers.ApplyEvent | functions/src/index.ts:285-354 | the event dispatch keeps the store invariant |
| Handlers.Webhook | functions/src/index.ts:266-362 | the webhook keeps the store invariant and touches no processor object |
| Functions.Backend.CreateCheckoutSession | functions/src/index.ts:47-117 | the method's response and new state are those of `Handlers.Checkout` on the old state; the object invariant (a well-formed `users` store) is kept |
| Functions.Backend.CancelSubscription | functions/src/index.ts:136-187 | response and new state are those of `Handlers.Command` with the flag set; the object invariant (a well-formed `users` store) is kept |
| Functions.Backend.ReactivateSubscription | functions/src/index.ts:206-257 | response and new state are those of `Handlers.Command` with the flag cleared; the object invariant (a well-formed `users` store) is kept |
| Functions.Backend.SetCancelAtPeriodEndFlag | functions/src/index.ts:138-186 | the steps shared by both commands, with the effect of `Handlers.Command`; the object invariant (a well-formed `users` store) is kept |
| Functions.Backend.StripeWebhook | functions/src/index.ts:266-362 | response and new store are those of `Handlers.Webhook`; only the `users` field may change; the object invariant (a well-formed `users` store) is kept |
| Properties.WebhookResponse | functions/src/index.ts:266-283 | 400 exactly when the signature header is missing or the signature check throws, with nothing changed; otherwise `{received: true}`, and the only effect is the dispatch of the event |
| Properties.CheckoutCompletedEffect | functions/src/index.ts:287-297 | with a client reference, exactly that uid's `subscriptionStatus` field is set to `subscribed` and no other record changes; without one, the store is unchanged |
| Properties.SubscriptionEventEffect | functions/src/index.ts:299-350 | updated/deleted events change only the first uid holding the event's customer id: its `subscriptionStatus` field is set to the derived status or to `unsubscribed` (stored, not removed); with no such uid, nothing changes |
| Properties.UnhandledEventIgnored | functions/src/index.ts:352-356 | an unhandled event type is acknowledged with `{received: true}` and changes nothing |
| Properties.ApplyEventIdempotent | functions/src/index.ts:291-348 | applying any event twice leaves the store as applying it once |
| Properties.WebhookRedeliveryIdempotent | functions/src/index.ts:266-362 | a redelivered webhook gets the same response and leaves the same state as the first delivery |
| Properties.SameTargetOverwrites | functions/src/index.ts:299-350 | of two subscription events for one customer, the later alone decides the store (last write wins) |
| Properties.UpdateOrderDecides | functions/src/index.ts:314-326 | updates (active, keep) then (active, cancel) end `pending_cancellation`; the reverse order ends `subscribed` |
| Properties.CommandFailures | functions/src/index.ts:138-186 | codes are 200/401/404/500; 401 exactly without a bearer header; 404 exactly when verified but there is no customer id or no active subscription; 500 exactly when the token does not verify, or a customer id is stored and the subscription list fails, or an active subscription is found and its update fails; every failure leaves processor and store unchanged, so a failed update skips the status write |
| Properties.CommandSucceeds | functions/src/index.ts:173-182 | on success the first active subscription gets the flag, the caller's `subscriptionStatus` field is set to its derived status, and every other record is unchanged |
| Properties.OptimisticWriteConfirmed | functions/src/index.ts:178-180 | when the caller is the first holder of its customer id (the earliest-written uid holding it, where the database would pick the smallest key), the updated event for the changed subscription leaves the store as the optimistic write left it |
| Properties.CancelThenReactivate | functions/src/index.ts:243-256 | reactivating after a cancel finds the same subscription and ends with the flag cleared and the caller `subscribed`, as if only the reactivation had run |
| Properties.SetFlagTwice | functions/src/index.ts:244-246 | a later flag update of a subscription overwrites an earlier one |
| Properties.CheckoutNeverWritesStatus | functions/src/index.ts:47-117 | checkout leaves every uid's `subscriptionStatus` field exactly as it was (never writes it, not even as an absent-to-`unsubscribed` write) and changes no subscription |
| Properties.CheckoutCustomerResolution | functions/src/index.ts:49-116 | 200 exactly when the token verifies, carries an email, the customer list answers, a customer is found or created, and the session call succeeds; a failed verification, a missing email or a failed list gives 500 and changes nothing; a customer found by email is reused and none is created; otherwise the mapping is written only after `customers.create` succeeds; a failed session call opens no session but leaves the mapping written |
| Properties.CheckoutSessionParameters | functions/src/index.ts:92-112 | one session is opened: subscription mode, card, one unit of the price, the mapped customer, `<origin>/success` and `<origin>/` (origin defaulting to http://localhost:3000), the uid as client reference; its id is returned |
| Properties.CheckoutCreatesOneCustomer | functions/src/index.ts:69-90 | after a successful checkout, a second one for the same user creates no second customer |
| Properties.CheckoutThenCompleted | functions/src/index.ts:287-294 | after checkout, the completed event carrying that session's client reference makes the user read `subscribed` |

## Left out

- CORS middleware and the `OPTIONS` preflight answers (functions/src/index.ts:16-28, 37-44 and repeats): HTTP plumbing with no state.
- The internals of `verifyIdToken` (including its revocation check) and of `constructEvent`: they appear only as the `verify` and `construct` oracles.
- Failures of database reads and writes, and the 500 (handlers) or 400 (webhook) they would cause: the model takes every database call as succeeding.
- Concurrency: each handler runs as one atomic step. Races between an optimistic write and a webhook appear only as sequential orders (`UpdateOrderDecides`, `OptimisticWriteConfirmed`).
- Which order the database returns matching uids in (by key, for equal children): the model keeps an abstract query order, `order`. New uids go last.
- The processor's own behaviour: billing, the checkout UI, ids (passed in as parameters) and the list order. A created customer is placed first, newest first.
- The `as` casts on event payloads: each `Event` constructor already carries the payload shape its type implies. `Unhandled` stands for every type the switch has no case for.
- A `stripe-signature` header given several times (an array): the model takes one optional string.
- Logging and error message texts: every error body is `ErrorBody`.
- The React pages, routing and display. The only front-end logic modelled is the `unsubscribed` default of `ReadStatus`, which Profile.tsx:27-31 repeats.
- Properties.OptimisticWriteConfirmed: stated only for a caller who is the first holder of its customer id. When several uids hold the same customer id, the webhook writes to the first of them, not necessarily to the caller.
