# Premium entitlement by payment webhook: a Dafny model

The repository is a small payment-checkout backend with two entry points that are
nearly the same. One is an always-on Express server (`server/node/server.js`). The
other is a serverless function (`netlify/functions/api.js`). The one piece of logic
with state is the webhook receiver. It checks that an event from the payment
provider is authentic, then branches on the event type:

- `checkout.session.completed` grants premium to the user named in the session's
  `metadata.userId`.
- `customer.subscription.deleted` revokes premium from the user whose
  `stripeCustomerId` is the subscription's customer.

The users collection of the document store is modelled as a class,
`Webhook.UsersCollection`, holding a map from document id to `UserRecord`. Its
methods `Grant` and `Revoke` and the route method `Webhook.HandleWebhook` change
that map in place. Each is proved equal to a pure function of the old map:
`GrantTable`, `RevokeTable` and `Reconcile`. Those functions state what may change
and what must not. The lemmas in `WebhookProperties` prove that redelivering an
event, each delivery at its own server time, leaves the collection as one
successful delivery at the time of the last successful one would
(`RedeliveryIsOnce`; every delivery sees the same store order `scan`), that a
missing correlation is a no-op, and that after a grant and a
revoke for the same user the flag reflects whichever came last, provided no other
document carries the same customer id (`GrantThenRevoke`;
`GrantThenRevokeSharedCustomer` shows the revoke reaching another document
when one does).

The checkout endpoint is modelled as pure functions in `Checkout`. It validates
`userId`, builds the subscription parameters and shapes the reply. The per-file
differences are in `ServerNode` and `NetlifyApi`: how the raw body is captured,
where the domain comes from, and the success reply.
`Deployments` relates the two entry points.

Modelling choices about the environment:

- **Signature verification.** The payment library's `webhooks.constructEvent` is
  the parameter `constructEvent`. It returns the verified event, or `None` when it
  throws. Its cryptography is not modelled.
- **Server time.** `serverTimestamp()` is the parameter `now`. Within one update
  both timestamps resolve to the same value. Each delivery of an event has its
  own `now` (`WebhookProperties.Delivery`).
- **A missing document.** The store's `update` fails when the document does not
  exist. Both handlers catch that failure, so the map is unchanged. This is an
  explicit assumption about the store (`UsersCollection.Update`).
- **Other store failures.** Any other failure of a store call is the parameter
  `fault`. It too leaves the map unchanged, and the reply is still 200.
- **The revoke query.** `where(...).limit(1)` returns some matching document.
  Which one is not specified. The model takes the order in which the store visits
  documents as a parameter `scan`, required to list every document (`Covers`).
  Every result holds for every such order. For a fixed order, revoke is
  idempotent. When the order may differ between deliveries, revoke is idempotent
  only if the customer id is unique: `RevokeIdempotentWhenCustomerUnique` proves
  this, and `DuplicateCustomerRevokeNotIdempotent` gives the counterexample.
- **JavaScript semantics.** A value that is a string or `undefined` is
  `Option<string>`. Truthiness means present and non-empty. A template literal
  turns `undefined` into the text `"undefined"`.

Two consequences of the code:

- A purchase takes effect only for a user document that already exists. For a
  missing document the code's `update` fails and nothing is written
  (`PurchaseForMissingUser`).
- The revoke query finds at most one record (`limit(1)` on a possibly empty
  result).

## Model

| member | source | states |
|---|---|---|
| `JsText.Truthy` | server/node/server.js:64 | a string-or-undefined value is truthy exactly when it is present and not the empty string |
| `JsText.Interpolate` | server/node/server.js:85-86 | a template literal inserts the string itself, or the text "undefined" for an undefined value |
| `JsText.StartsWith` | server/node/server.js:41 | `startsWith` holds exactly when the string is at least as long as the prefix and begins with it |
| `JsText.Includes` | netlify/functions/api.js:31 | `includes` holds exactly when the substring occurs at some position |
| `JsText.StartsWithImpliesIncludes` | server/node/server.js:41 | whatever `startsWith` accepts, `includes` accepts too |
| `Webhook.UserIdOf` | server/node/server.js:160 | `metadata?.userId` is present exactly when the session has metadata with a `userId` key, and is then that value |
| `Webhook.Authenticate` | server/node/server.js:131-154 | only a truthy secret can reject; with one the event is the verified one, never the body; without one it is the parsed body, unverified |
| `Webhook.Apply` | server/node/server.js:165-198 | a grant update sets the six entitlement fields to the session's ids and `now`; a revoke update sets flag, expiry and `updatedAt` and keeps the ids; neither touches any other field |
| `Webhook.GrantTable` | server/node/server.js:156-177 | the collection keeps its documents; with a truthy `userId` naming an existing document and no store fault, that document ends up granted and every other is unchanged; with no truthy `userId`, a missing document or a fault nothing changes |
| `Webhook.FirstMatch` | server/node/server.js:187-193 | the limited query answers a document that exists and carries the customer id, or none only when no document in the scan does |
| `Webhook.RevokeTable` | server/node/server.js:180-204 | no match or a fault leaves the collection unchanged; otherwise exactly one matching document is revoked and every other document is unchanged |
| `Webhook.Reconcile` | server/node/server.js:156-204 | dispatch on the event type: grant, revoke, or no change for any other type or on a store fault |
| `Webhook.UsersCollection.constructor` | server/node/server.js:164 | the collection handle holds the given documents |
| `Webhook.UsersCollection.Update` | server/node/server.js:164-172 | `update` succeeds exactly when the document exists and the store does not fault, and then merges the fields into that document alone |
| `Webhook.UsersCollection.QueryByCustomer` | server/node/server.js:187-190 | the query fails only on a fault; otherwise it answers at most one id, empty exactly when no document matches |
| `Webhook.UsersCollection.Grant` | server/node/server.js:156-177 | the grant handler leaves the collection equal to `GrantTable` of the old one |
| `Webhook.UsersCollection.Revoke` | server/node/server.js:180-204 | the revoke handler leaves the collection equal to `RevokeTable` of the old one |
| `Webhook.HandleWebhook` | server/node/server.js:127-207 | 400 exactly when a secret is set and verification fails, and then nothing changes; without a secret the parsed body is dispatched unverified; every authenticated event gets 200 and the collection becomes `Reconcile` of the old one |
| `WebhookProperties.PatchIsAbsolute` | server/node/server.js:165-172 | an update's result does not depend on the previous values of the fields it writes |
| `WebhookProperties.PatchIdempotent` | server/node/server.js:194-198 | the same update applied twice gives the document it gives once |
| `WebhookProperties.PatchLaterWins` | server/node/server.js:165-172 | of two grant updates, or two revoke updates, with any server times and ids, the later alone decides the document |
| `WebhookProperties.GrantIdempotent` | server/node/server.js:162-172 | a repeated completed checkout with the same server time changes nothing |
| `WebhookProperties.GrantLaterWins` | server/node/server.js:162-172 | a completed checkout delivered again at a later server time gives the collection that later delivery alone gives |
| `WebhookProperties.FirstMatchStable` | server/node/server.js:187-190 | the query's answer depends only on which documents match |
| `WebhookProperties.RevokeKeepsMatches` | server/node/server.js:194-198 | a revoke changes no document's `stripeCustomerId`, so no query result changes |
| `WebhookProperties.RevokeIdempotent` | server/node/server.js:186-200 | with one visiting order, a repeated cancellation changes nothing |
| `WebhookProperties.RevokeLaterWins` | server/node/server.js:186-200 | with one visiting order, a cancellation delivered again at a later server time gives the collection that later delivery alone gives |
| `WebhookProperties.RevokeIdempotentWhenCustomerUnique` | server/node/server.js:187-198 | with a unique customer id, a repeated cancellation changes nothing whatever order the store visits documents in |
| `WebhookProperties.DuplicateCustomerRevokeNotIdempotent` | server/node/server.js:189 | with two documents sharing a customer id, a second delivery may revoke the other one |
| `WebhookProperties.ReconcileIdempotent` | server/node/server.js:156-204 | dispatching the same authenticated event twice equals dispatching it once |
| `WebhookProperties.ReconcileLaterWins` | server/node/server.js:156-204 | of two successful deliveries of one event at different server times, in one store order, the later decides the collection |
| `WebhookProperties.Redeliver` | server/node/server.js:127-207 | deliveries of one event in order, each with its own server time and fault, keep the set of documents |
| `WebhookProperties.LastSuccess` | server/node/server.js:171 | the server time of the last delivery whose store call succeeded; none exactly when every delivery failed |
| `WebhookProperties.RedeliveryIsOnce` | server/node/server.js:156-206 | any number of deliveries, each at its own server time and in one store order, equals one successful delivery at the time of the last successful one, or no change when every delivery faulted |
| `WebhookProperties.GrantThenRevoke` | server/node/server.js:156-204 | a cancellation after a purchase leaves the user without premium, the expiry set to its time and the ids kept, other users untouched |
| `WebhookProperties.GrantThenRevokeSharedCustomer` | server/node/server.js:187-194 | when another document earlier in the store's order already carries the customer id, a cancellation after a purchase revokes that document and leaves the buyer premium |
| `WebhookProperties.RevokeThenGrant` | server/node/server.js:156-204 | a purchase after a cancellation leaves the user premium with no expiry |
| `WebhookProperties.PurchaseThenCancellation` | server/node/server.js:156-204 | user `u1` buys with `cus_1`/`sub_1` and then cancels: the exact records after each event |
| `WebhookProperties.PurchaseForMissingUser` | server/node/server.js:162-176 | a purchase for a user id with no document changes nothing |
| `Checkout.SessionRequest` | server/node/server.js:60-87 | a missing or empty `userId` is rejected with "User ID is required"; otherwise mode `subscription`, one line item of the given price with quantity 1, metadata holding just `userId` |
| `Checkout.ReturnUrlsShareDomain` | server/node/server.js:85-86 | the success and cancel urls are the domain followed by their fixed pages, so they differ and the domain can be read back |
| `Checkout.CreateCheckoutSession` | netlify/functions/api.js:52-90 | a request without `userId` gets 400 and creates no session; otherwise exactly one session is requested, a provider error gives 400 with its message and success gives the redirect or `{ url }` |
| `ServerNode.RawBody` | server/node/server.js:40-44 | the raw body is kept exactly when the url starts with `/webhook` |
| `ServerNode.CreateCheckoutSession` | server/node/server.js:60-98 | success is a 303 redirect after one session request, every JSON reply is a 400, and the urls use `DOMAIN` as it stands |
| `ServerNode.HandleWebhookRoute` | server/node/server.js:127-207 | the server's webhook route: the shared handler with the raw body its parser captured |
| `NetlifyApi.RawBody` | netlify/functions/api.js:30-34 | the raw body is kept exactly when the url contains `/webhook` anywhere |
| `NetlifyApi.CheckoutDomain` | netlify/functions/api.js:53 | `DOMAIN` when it is truthy, else `URL` |
| `NetlifyApi.CreateCheckoutSession` | netlify/functions/api.js:52-90 | every reply is JSON; status 200 exactly when the body is `{ url }`, which is the url of the one session the provider created |
| `NetlifyApi.HandleWebhookRoute` | netlify/functions/api.js:106-182 | the serverless webhook route: the shared handler with the raw body its parser captured |
| `Deployments.ServerCaptureImpliesNetlifyCapture` | netlify/functions/api.js:31 | every url the server captures the raw body for is captured by the serverless function too |
| `Deployments.PrefixedRouteCapturedOnlyByNetlify` | server/node/server.js:41 | `/api/webhook` is captured by the serverless function but not by the server |
| `Deployments.SameSessionWhenDomainSet` | netlify/functions/api.js:53 | with `DOMAIN` set, both entry points request the same session |

## Left out

- Express routing, static files, `app.listen` and the serverless wrapper are HTTP plumbing.
- Loading `.env` and setting up the store and payment clients is configuration.
  This includes the private-key newline fix.
- `/config`, `/checkout-session` and `/customer-portal` are single calls to the
  provider with nothing to decide.
- The cryptography of signature verification: `constructEvent` is an arbitrary function parameter.
- JSON parsing. The parsed body and the raw body are independent inputs.
- The model does not say how the provider behaves without a raw body, so a route
  whose url was not captured is not shown to fail verification.
- Logging, real clocks and `async` scheduling. Timestamps are the parameter `now`.
- Malformed events are not modelled. The model's event always carries an object
  with a customer and a subscription. In the code, a missing `data` or
  `data.object` makes the handler throw outside its `try`.
- Null customer or subscription ids in an event are not modelled.
- Absent and null fields are not told apart: `None` stands for both. A grant
  writes an explicit null expiry, so a document that lacked the field gains it,
  which the model cannot show. `isPremium` is a plain boolean and cannot be
  absent before the first grant. No stated property depends on either difference.
- A `userId` that is not a string (a number, a boolean) is not modelled.
  Truthiness is modelled for strings and `undefined` only.
- `RedeliveryIsOnce`: every delivery of the event sees the same store order
  `scan`. When the order may change between deliveries and several documents
  share the customer id, the result can differ (`DuplicateCustomerRevokeNotIdempotent`).
- Concurrent deliveries are not modelled. Neither is a document deleted between
  the revoke query and its update. A single `fault` flag covers every store failure.
- Which of several documents with the same customer id the revoke query picks is
  left to the order parameter `scan`. The model does not choose a particular
  document, because the store promises none.
