# Subscription entitlements of the fitness site, in Dafny

This project models the billing core of the site: the payment-provider
webhook that keeps each user's profile row (`stripeSubscriptionId`,
`subscriptionActive`, `subscriptionTier`) in step with checkout, invoice and
subscription events; the status endpoint that reads `subscriptionActive`
back; the route guard that sends users to sign-up, the plan page or the
subscribe page; and the plan catalogue whose intervals (`week`, `month`,
`year`) are the tiers the webhook stores.

Files:

- `wrappers.dfy`: `Option`, standing for `undefined`/`null` next to a value.
- `plans.dfy` (module `Plans`): `availablePlans`, the price-id record and `getPriceIDFromType`.
- `entitlements.dfy` (module `Entitlements`): the profile table as a map from
  user id to `Profile`. It gives Prisma's `update` by user id (with its failure
  cases) and `findUnique` by subscription id. It states the three routines,
  the `switch` dispatch and `POST` as functions, and a sequential trace of
  deliveries (`Replay`). The lemmas say what each event does to the table.
- `webhook.dfy` (module `Webhook`): class `ProfileStore`. It holds the table
  and a reverse index from subscription id to user id (the unique index that
  `findUnique` relies on). It updates both in place, one method per routine,
  and each method is proved to leave exactly the table the function in
  `Entitlements` describes.
- `check_subscription.dfy` (module `CheckSubscription`): the `GET` status endpoint.
- `middleware.dfy` (module `Middleware`): the route classes and the ordered redirect decision.
- `access.dfy` (module `Access`): lemmas across components. The guard, fed by
  the status endpoint, lets a user onto plan routes exactly when the webhook
  has left their row active. A tier stored from the subscribe page names
  exactly one plan.

Modelling choices:

- JavaScript truthiness is explicit. A user id, subscription id or plan type
  is "present" only when it is defined and not `""` (`Present`). The stored
  tier is `planType || null` (`TierOf`).
- Store failures are inputs. `Faults(lookupFails, writeFails)` says whether
  the routine's one `findUnique` and its one `update` reach the store. An
  update is also refused, without any fault, when the user has no row
  (`RecordNotFound`). It is refused too when it would give a second row the
  same subscription id (`UniqueConstraintFailed`). A refused update changes
  nothing, and the routine catches it.
- Signature verification is an input: `Verified(event)` or `Rejected(message)`.
- A found row whose `userId` is `""` is treated as "no profile found", as
  `!profile?.userId` does.
- The invoice routine reads the subscription id from `invoice.subscription`
  only; there is no fallback to a nested line-item field. And the `400`
  answer for an error escaping a routine (app/api/webhook/route.ts:50-52)
  cannot occur, because every store call inside the routines is wrapped in
  its own `try`. So a verified event is always answered `200 {}`.

## Model

| member | source | states |
|---|---|---|
| `Plans.PriceIdMap` | lib/plans.ts:45-49 | the price-id record has exactly the keys `week`, `month`, `year` |
| `Plans.GetPriceIdFromType` | lib/plans.ts:51 | intended lookup: a price id exactly for `week`/`month`/`year`, each the configured one, `undefined` for every other string |
| `Plans.GetPriceIdFromTypeAsWritten` | lib/plans.ts:45-51 | the property read as written yields a string exactly for the three plan types, and `undefined` only for strings that are neither plan types nor inherited member names |
| `Plans.AsWrittenLookupLeaksPrototype` | lib/plans.ts:51 | for plan type `toString` the intended lookup is `undefined` while the as-written one yields an inherited member |
| `Plans.AsWrittenAgreesOnStrings` | lib/plans.ts:51 | wherever the as-written lookup yields a string it is the intended price id, and conversely |
| `Plans.WithInterval` | app/profile/page.tsx:82-84 | the candidates the `find` by interval scans: exactly the plans of the table with that interval, and no more of them than there are plans |
| `Plans.FindByInterval` | app/profile/page.tsx:82-84 | `find` yields the first plan with the interval, `undefined` exactly when no plan has it, and agrees with the head of the filtered candidates |
| `Plans.FindByTierFindsPlan` | app/profile/page.tsx:82-84 | the profile page finds a current plan exactly for a tier `week`/`month`/`year`, and it is a plan of that interval |
| `Plans.FindShowsThePlan` | app/profile/page.tsx:82-84 | finding by a plan's own interval yields that very plan |
| `Plans.IntervalsAreDistinct` | lib/plans.ts:11-41 | there are exactly three plans; their intervals are `week`, `month`, `year`, pairwise distinct |
| `Plans.LookupByTierFindsAtMostOne` | lib/plans.ts:11-41 | looking a plan up by a tier finds exactly one plan for `week`/`month`/`year` and none for any other tier |
| `Plans.OnlyMonthIsPopular` | lib/plans.ts:20-32 | a plan is popular exactly when its interval is `month` |
| `Plans.EveryPlanHasPriceId` | lib/plans.ts:11-49 | every interval of `availablePlans` has a price id |
| `Entitlements.Owner` | app/api/webhook/route.ts:93-96 | on a table with unique ids, the row found holds the id, and "none" means no row holds it |
| `Entitlements.Apply` | app/api/webhook/route.ts:73-77 | an update's `data` sets every field it names to the given value (null included) and leaves every other field unchanged |
| `Entitlements.WriteOutcomeOf` | app/api/webhook/route.ts:71-78 | the update succeeds exactly when the row exists, no other row holds the new subscription id and the store answers; a missing row is reported as such, a unique clash only when another row holds the id |
| `Entitlements.Update` | app/api/webhook/route.ts:71-78 | an update keyed by one user id keeps the set of rows and every other row; a refused update (no row, unique clash, store down) changes nothing |
| `Entitlements.UpdateKeepsIdsUnique` | app/api/webhook/route.ts:93-94 | no update breaks the uniqueness of `stripeSubscriptionId` |
| `Entitlements.FindUnique` | app/api/webhook/route.ts:92-107 | the lookup finds a row exactly when the store answers and some row holds the id, and the row it finds holds the id |
| `Entitlements.TierOf` | app/api/webhook/route.ts:76 | the stored tier is the plan type when that is non-empty, else null |
| `Entitlements.CheckoutSessionCompleted` | app/api/webhook/route.ts:56-82 | keeps the rows, the uniqueness of ids and the invariant "active implies a subscription id" |
| `Entitlements.UpdateSubscriber` | app/api/webhook/route.ts:91-117 | lookup then update keeps the rows and the uniqueness of ids |
| `Entitlements.InvoicePaymentFailed` | app/api/webhook/route.ts:84-118 | keeps the rows, the uniqueness of ids and the invariant "active implies a subscription id" |
| `Entitlements.CustomerSubscriptionDeleted` | app/api/webhook/route.ts:120-154 | keeps the rows, the uniqueness of ids and the invariant "active implies a subscription id" |
| `Entitlements.Deliver` | app/api/webhook/route.ts:30-49 | the dispatch keeps rows, uniqueness and the invariant; no routine runs exactly for an unrecognised type |
| `Entitlements.Post` | app/api/webhook/route.ts:9-54 | a rejected signature answers status 400 with the verifier's message and leaves the table alone; a verified event answers status 200 after its routine |
| `Entitlements.Replay` | app/api/webhook/route.ts:9-54 | any sequential trace of deliveries keeps the rows, the uniqueness of ids and the invariant "active implies a subscription id" |
| `Entitlements.CheckoutActivates` | app/api/webhook/route.ts:60-81 | with both ids, an existing row, no other row holding the id and the store up, the row becomes (id, active, tier from plan type); in every other case the table is unchanged |
| `Entitlements.InvoiceFailureDeactivates` | app/api/webhook/route.ts:84-117 | the row holding the id gets `subscriptionActive := false` with id and tier kept; with no id, no such row or a store error the table is unchanged |
| `Entitlements.DeletionResets` | app/api/webhook/route.ts:120-153 | the row holding the id is reset to (null, false, null); with no such row or a store error the table is unchanged |
| `Entitlements.NoWriteNoChange` | app/api/webhook/route.ts:56-154 | every delivery that does not complete a write leaves the table exactly as it was |
| `Entitlements.DeliveryTouchesOneRow` | app/api/webhook/route.ts:30-154 | a delivery changes at most one row |
| `Entitlements.CheckoutRedelivery` | app/api/webhook/route.ts:70-81 | a checkout event delivered twice ends as after one clean delivery |
| `Entitlements.InvoiceRedelivery` | app/api/webhook/route.ts:108-117 | an invoice-failed event delivered twice ends as after one clean delivery |
| `Entitlements.DeletionRedelivery` | app/api/webhook/route.ts:142-153 | a deletion event delivered twice ends as after one clean delivery |
| `Entitlements.RedeliveryIsIdempotent` | app/api/webhook/route.ts:30-49 | redelivering any event after a clean delivery changes nothing; a clean redelivery after any attempt equals one clean delivery |
| `Entitlements.RejectedTraceChangesNothing` | app/api/webhook/route.ts:20-28 | a trace of requests that all fail signature verification leaves the table unchanged |
| `Entitlements.SubscriptionLifecycle` | app/api/webhook/route.ts:56-154 | for a fresh row, checkout then a failed invoice then deletion give (sub, true, plan), then (sub, false, plan), then (null, false, null) |
| `Entitlements.ExampleLifecycle` | app/api/webhook/route.ts:56-154 | the same three steps for user `u1`, subscription `sub_1` and plan type `month` |
| `Webhook.IndexedIdsAreUnique` | app/api/webhook/route.ts:93-94 | a table with an exact reverse index has unique subscription ids |
| `Webhook.ProfileStore.FindBySubscriptionId` | app/api/webhook/route.ts:93-96 | the index lookup answers what `FindUnique` says of the table |
| `Webhook.ProfileStore.Update` | app/api/webhook/route.ts:71-78 | the in-place update keeps the index exact and leaves the table and outcome `Update` describes |
| `Webhook.ProfileStore.HandleCheckoutSessionCompleted` | app/api/webhook/route.ts:56-82 | keeps the store valid and leaves the table and result `CheckoutSessionCompleted` describes |
| `Webhook.ProfileStore.UpdateSubscriber` | app/api/webhook/route.ts:91-117 | keeps the index exact and leaves the table `UpdateSubscriber` describes |
| `Webhook.ProfileStore.HandleInvoicePaymentFailed` | app/api/webhook/route.ts:84-118 | keeps the store valid and leaves the table `InvoicePaymentFailed` describes |
| `Webhook.ProfileStore.HandleCustomerSubscriptionDeleted` | app/api/webhook/route.ts:120-154 | keeps the store valid and leaves the table `CustomerSubscriptionDeleted` describes |
| `Webhook.ProfileStore.Post` | app/api/webhook/route.ts:9-54 | keeps the store valid and answers and updates as `Post` describes |
| `CheckSubscription.Get` | app/api/check-subscription/route.ts:6-26 | 400 `Missing userId.` exactly when the parameter is absent or empty; 500 `Internal Error.` exactly on a store error; otherwise 200 with the row's flag, absent exactly when there is no row; the HTTP status is 400, 500 or 200 accordingly |
| `CheckSubscription.ReportsActiveOnlyForActiveProfile` | app/api/check-subscription/route.ts:15-22 | the answer is `true` exactly for a user whose row exists and is active |
| `Middleware.IsPublicRoute` | middleware.ts:5-12 | the public routes: `/` exactly, and every path starting with `/sign-up`, `/subscribe`, `/api/webhook`, `/api/check-subscription` or `/personal` |
| `Middleware.IsSignUpRoute` | middleware.ts:15 | the sign-up routes: paths starting with `/sign-up` |
| `Middleware.IsPlanRoute` | middleware.ts:17 | the plan routes: paths starting with `/plan` |
| `Middleware.Decide` | middleware.ts:19-56 | the callback's verdict: no redirect from the status endpoint; `/sign-up/` only for an anonymous non-public request; `/plan` only for a signed-in sign-up request; `/subscribe` exactly when the status was fetched and did not report `true` |
| `Middleware.StatusEndpointPassesThrough` | middleware.ts:27-29 | `/api/check-subscription` always passes through, whatever the sign-in state |
| `Middleware.RouteClassesDisjoint` | middleware.ts:5-17 | no path is both a sign-up and a plan route; sign-up routes are public, plan routes are not |
| `Middleware.PrivateRouteNeedsSignIn` | middleware.ts:31-34 | a non-public route without a user id redirects to location `/sign-up/` |
| `Middleware.SignedInSignUpGoesToPlan` | middleware.ts:36-39 | a signed-in user on a sign-up route redirects to location `/plan` |
| `Middleware.PlanRouteNeedsActiveSubscription` | middleware.ts:41-53 | a signed-in user on a plan route passes exactly when the status answer is a literal `true`; any other answer or a fetch/parse failure redirects to `/subscribe` |
| `Middleware.StatusQueriedOnlyForSignedInPlan` | middleware.ts:31-54 | the status is consulted exactly for signed-in plan requests, and otherwise cannot change the decision; an anonymous plan request goes to `/sign-up/` |
| `Middleware.OtherRequestsPassThrough` | middleware.ts:27-55 | every request no rule catches passes through, including an anonymous request for a sign-up route |
| `Access.ParsedStatus` | middleware.ts:44-48 | the guard reads `true` exactly from a 200 body carrying `true` |
| `Access.GuardOverStore` | middleware.ts:44-48 | the guard's verdict when its status fetch is answered by the status endpoint over the current table (its properties are `Access.PlanAccessFollowsStore`) |
| `Access.PlanAccessFollowsStore` | middleware.ts:41-53 | a signed-in user reaches a plan route exactly when the status store answers and holds their row as active |
| `Access.WebhookDrivesPlanAccess` | app/api/webhook/route.ts:70-153 | after a written checkout the user reaches plan routes; a failed invoice or a deletion of that subscription sends them to `/subscribe` |
| `Access.StoredTierNamesOnePlan` | app/subscribe/page.tsx:130 | a checkout with a plan's interval as plan type stores that tier, which names exactly one plan with a price id, and the profile page's `find` shows that plan |

## Left out

- Signature cryptography (`stripe.webhooks.constructEvent`) and the webhook secret: verification is an input.
- Prisma beyond a table keyed by user id with a unique subscription-id index: no SQL, transactions or connection handling. Which store call fails is an input, and logging is not modelled.
- Concurrency and delivery order across webhook requests: deliveries are a sequential trace (`Replay`), so interleavings of one request's lookup and update with another's are not captured.
- Stripe's expanded objects: `session.subscription` and `invoice.subscription` are taken to be the id string or absent, as the casts in the source assume.
- Profile creation happens outside the webhook. `Webhook.ProfileStore.CreateProfile` only stands for it, adding a row with no subscription, and cites no line.
- The route matcher: `"/x(.*)"` is read as a prefix match and `"/"` as an exact match. The `config.matcher` pattern and the identity provider's `auth()` are out; the user id is an input.
- The guard's `fetch` of the status endpoint is an input (`StatusOutcome`). `Access` assumes it reaches the endpoint with the same user id; URL encoding of the id is not modelled.
- The price-id environment variables are taken to be set (the source asserts so with `!`). Plan amounts are integer cents. Descriptions and feature lists are display text and are left out.
- `Entitlements.Post`: the 400 answer of the outer `catch` (app/api/webhook/route.ts:50-52) is not modelled, because nothing inside the routines can throw past their own `try` blocks.
- The workout-plan generator (a call to a language model), all pages and components, and the build configuration are not part of this model.

## Findings

| source | as written | input that shows it | evidently intended | confidence | as-written member | corrected member |
|---|---|---|---|---|---|---|
| lib/plans.ts:51 | `priceIDMap[planType]` reads a property of an object literal, which falls back to Object.prototype for keys that are not own properties | `getPriceIDFromType("toString")` yields the inherited function, neither a price id nor `undefined` | `undefined` for every plan type other than `week`, `month`, `year` | high for the language semantics; not executed | `Plans.AsWrittenLookupLeaksPrototype` | `Plans.GetPriceIdFromType` |
