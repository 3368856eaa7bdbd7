# Ticketing site core — a Dafny model

This project models the business logic of an event-ticketing site. The site
sells tickets online and at the door through a payment provider. It keeps
orders and ticket tiers in a database, takes newsletter sign-ups, and stores
uploaded images and audio in a blob store. The model covers four pieces:

- **Checkout validation chains.** Each checkout route runs an ordered,
  fail-fast list of guards. The online route (`Checkout`) checks the request
  and the tier. The door route (`DoorCheckout`) first checks the event (door
  mode on, published), then looks the tier up within that event. The first
  failing guard decides the status and message. Only a request that passes
  every guard asks the provider for a payment session. The test file
  extracts the online rules as stand-alone validators (`Validation`). Lemmas
  prove the online route answers as those validators say once the tier is
  found. The door route has its own stock and price-id rules with different
  wording (`DoorCheckout.DoorTierChecks`), and its lemma is stated against
  those.
- **Payment webhook reconciliation** (`Webhook`). A completed checkout
  upserts one order row per checkout session and adds the quantity to the
  tier's sold count. A refunded charge sets the order's status and refunded
  amount and releases a floored share of the tickets, never taking the sold
  count below zero. `Webhook.Reconcile` states the transition on values;
  the class `Webhook.Store` carries it out on its fields.
- **Newsletter subscribe** (`Newsletter`). This covers:
  - a fixed-window rate limiter (`RateLimiter`, a mutable map from client
    address to count and window end);
  - the email-shape check, proved equivalent to the regular expression it
    implements;
  - the subscriber table transitions: insert, resubscribe or no change, with
    emails stored lower-cased.
- **Uploads** (`Blob`, `Upload`). The MIME allow-lists, the inclusive 5 MB
  image cap, the stored paths, and the content-type lookup by extension.

Vendor calls become inputs:
- whether the database or the webhook is configured;
- the rows the database returns, as maps;
- the provider's session URL, or `None` when the call fails;
- whether the webhook signature verifies;
- whether an order upsert or a subscriber insert succeeds;
- `Date.now()` as `now`, and the random file-name text as `suffix`.

Money is in integer cents. The webhook divides both the amount paid and the
amount refunded by 100 before storing or comparing them. Scaling both by the
same factor changes no comparison or ratio.

`Common` holds the JavaScript string operations the routes rely on:
- truthiness of an optional string;
- `replace(/\/$/, '')`;
- decimal rendering of a number inside a template string;
- `split('.').pop()`;
- `toLowerCase()`;
- `join`.

## Model

| member | source | states |
|---|---|---|
| Common.StripTrailingSlash | src/pages/api/checkout.ts:86 | The site URL loses exactly one trailing '/' when it has one and is otherwise unchanged. |
| Common.NatToDecimal | src/tests/stripe.test.ts:46 | The rendering of a count is a non-empty digit string with no leading zero. |
| Common.DecimalRoundTrip | src/tests/stripe.test.ts:46 | Reading the rendered digits back gives the number: the count in "Only N tickets remaining" is the available count. |
| Common.NatToDecimalInjective | src/tests/stripe.test.ts:46 | Different counts give different messages. |
| Common.AfterLast | src/lib/blob.ts:113 | `split(sep).pop()` is the longest suffix without the separator: the whole string when it has none, otherwise the text right after the last separator. |
| Common.AfterLastOfJoin | src/pages/api/upload.ts:59-60 | Whatever comes before the last separator does not affect the extracted extension. |
| Common.ToLower | src/pages/api/newsletter/subscribe.ts:64 | Lower-casing keeps the length, maps each character, and leaves no upper-case ASCII letter. |
| Common.ToLowerIdempotent | src/pages/api/newsletter/subscribe.ts:64 | Lower-casing an already lower-cased email changes nothing. |
| Validation.ValidateQuantity | src/tests/stripe.test.ts:18-23 | Valid iff 1 ≤ q ≤ 10; otherwise "Quantity must be between 1 and 10". |
| Validation.ValidateTierActive | src/tests/stripe.test.ts:25-30 | Valid iff the tier is active; otherwise "This ticket tier is not available". |
| Validation.ValidateTierType | src/tests/stripe.test.ts:32-37 | Rejects exactly `door` tiers, with the door-only message. |
| Validation.ValidateStock | src/tests/stripe.test.ts:39-50 | No cap means valid for any sold count and quantity. With a cap: valid iff available ≥ quantity. On failure: the sold-out message when available ≤ 0, otherwise "Only N tickets remaining" with 0 < N < quantity. |
| Validation.ValidateStripeConfig | src/tests/stripe.test.ts:52-57 | Rejects exactly a missing or empty price id. |
| Validation.FirstFailure | src/tests/stripe.test.ts:17-57 | Nothing when every check passes; otherwise the message of the first failing check, all before it passing. |
| Validation.CalculateRefundStatus | src/tests/stripe.test.ts:60-65 | "refunded" iff refunded ≥ original, including more than original; otherwise "partially_refunded". |
| Validation.CalculateTicketsToReturn | src/tests/stripe.test.ts:67-77 | A full refund returns the whole quantity. A partial one returns the floor of refunded·quantity/original. |
| Validation.PartialRefundBounds | src/tests/stripe.test.ts:76 | A partial refund returns between 0 and the quantity, and strictly fewer than a non-empty order. |
| Validation.TicketsToReturnMonotone | src/tests/stripe.test.ts:76 | A larger partial refund never returns fewer tickets. |
| Validation.FactorCancel | src/tests/stripe.test.ts:76 | Cancelling a positive factor, the step the monotonicity proof needs. |
| Validation.QuantityExamples | src/tests/stripe.test.ts:80-114 | The test file's quantity cases: 1, 5 and 10 accepted; 0, 11 and -1 refused with the range message. |
| Validation.StockExamples | src/tests/stripe.test.ts:182-227 | 100/90 with 5 passes; no cap with 10 passes; 100/100 is sold out. |
| Validation.OnlyThreeRemaining | src/tests/stripe.test.ts:228-244 | 100/97 with 5 is refused with "Only 3 tickets remaining". |
| Validation.RefundExamples | src/tests/stripe.test.ts:281-318 | Status for 100/100, 110/100, 50/100 and 1/100. Tickets 4, 2, 1 and 0 for the full, 50 %, 33 % and 5 % cases. |
| Checkout.Decide | src/pages/api/checkout.ts:7-97 | Status codes and order: 500 without a database, then 400 for missing ids, then 400 for a quantity outside 1..10, then 404 "Ticket tier not found" for an unknown tier. Every refusal is 400, 404 or 500, and 404 only for an unknown tier. A session is requested iff every guard passes; it carries the request's event id, tier id and quantity, the tier's price id, and the `/success` and `/events/<id>` URLs. |
| Checkout.Post | src/pages/api/checkout.ts:90-109 | 200 with the URL iff a session is decided and the provider answers. A refusal is answered with its own status and message. A provider failure gives 500 "Failed to create checkout session". |
| Checkout.DecideFollowsValidators | src/pages/api/checkout.ts:48-83 | Once the tier is found, the route's answer is the first failure among active, channel, stock and price id, in that order. A session is requested iff none fails. |
| Checkout.InactiveTierRefusedFirst | src/pages/api/checkout.ts:48-53 | An inactive tier gets 400 "This ticket tier is not available" whatever the later checks would say. |
| Checkout.NullQuantityRefused | src/pages/api/checkout.ts:15-31 | A `null` quantity does not take the default 1: it is refused with the range message. An absent one behaves as 1. |
| Checkout.TierNotScopedToEvent | src/pages/api/checkout.ts:34-45 | The tier lookup ignores the event: a tier of another event is sold under the requested event id. |
| DoorCheckout.DoorStock | src/pages/api/door-checkout.ts:85-97 | The stock rule with the door wording: "Tickets are sold out" when available ≤ 0, otherwise "Only N tickets remaining". |
| DoorCheckout.Decide | src/pages/api/door-checkout.ts:7-119 | Same front guards as the online route. A session iff the event exists, is in door mode and published, the tier belongs to that event, and active, stock and price id pass. The cancel URL is `<site>/door/<event_id>`. |
| DoorCheckout.Post | src/pages/api/door-checkout.ts:112-130 | 200 with the URL iff a session is decided and the provider answers. A refusal keeps its status and message. A provider failure gives 500 "Failed to create checkout session". |
| DoorCheckout.EventChecksInOrder | src/pages/api/door-checkout.ts:34-59 | A missing event gives 404, then door mode off gives 400, then not published gives 400, each with its own message, in that order. |
| DoorCheckout.TierOfOtherEventNotFound | src/pages/api/door-checkout.ts:62-74 | A tier that belongs to another event gives 404 "Ticket tier not found". |
| DoorCheckout.NullQuantityRefused | src/pages/api/door-checkout.ts:15-31 | A `null` quantity is refused with the range message before the event is looked up. |
| DoorCheckout.DecideFollowsDoorRules | src/pages/api/door-checkout.ts:77-105 | Past the lookups, the answer is the first failure among active, door stock and price id. The tier type is never checked. |
| Webhook.Reconcile | src/pages/api/stripe-webhook.ts:6-189 | The route on one delivery. It replies 200, 400, 404 or 500; every reply other than 200 leaves both tables as they were; the set of tiers never changes. |
| Webhook.CompleteCheckout | src/pages/api/stripe-webhook.ts:30-129 | The completed-checkout branch replies 200, or 400 with no change. It adds at most the session's order row and no tier. |
| Webhook.RefundCharge | src/pages/api/stripe-webhook.ts:132-186 | The refund branch replies 200, or 404 with no change. It adds or removes no order row and no tier, and assigns no order number. |
| Webhook.FindByIntent | src/pages/api/stripe-webhook.ts:138-147 | The lookup by payment intent finds an order iff exactly one row carries that intent, and the row it finds carries it. |
| Webhook.Store.HandleWebhook | src/pages/api/stripe-webhook.ts:6-189 | The store's new tables and the reply are exactly `Reconcile` of the old tables and the delivery. |
| Webhook.Store.HandleCompleted | src/pages/api/stripe-webhook.ts:30-129 | The completed-checkout branch carried out on the store equals `CompleteCheckout`. |
| Webhook.Store.HandleRefund | src/pages/api/stripe-webhook.ts:132-186 | The refund branch carried out on the store, with or without its order and tier writes landing, equals `RefundCharge`. |
| Webhook.FailedWritesStillAcknowledged | src/pages/api/stripe-webhook.ts:43-183 | A failed order or sold-count write leaves its table unchanged, and the reply is the same as when every write lands. |
| Webhook.RejectedDeliveryChangesNothing | src/pages/api/stripe-webhook.ts:8-27 | Unconfigured gives 500; a missing or unverifiable signature gives 400. No table changes in any of these cases. |
| Webhook.MissingMetadataChangesNothing | src/pages/api/stripe-webhook.ts:33-40 | Without event or tier metadata the reply is 400 "Missing metadata" and nothing is written. |
| Webhook.CompletedUpsertsOneOrder | src/pages/api/stripe-webhook.ts:43-63 | When the upsert lands, exactly one row exists for the session id afterwards, "completed", holding the session's tier, quantity and amount; other rows are untouched. An existing row keeps its order number, which is not among the upserted columns. A new one takes the model's next number. |
| Webhook.CompletedAddsQuantity | src/pages/api/stripe-webhook.ts:73-92 | When the sold-count write lands, each completed delivery adds its quantity to its tier's sold count, even when the order write failed. No other tier changes. |
| Webhook.DuplicateCompletedDelivery | src/pages/api/stripe-webhook.ts:42-92 | A repeated delivery leaves the order table as one delivery did, but the sold count grows by twice the quantity. |
| Webhook.RefundOfUnknownOrder | src/pages/api/stripe-webhook.ts:138-147 | A refund whose intent matches no order, or several, gives 404 "Order not found" and changes nothing. |
| Webhook.RefundUpdatesOrder | src/pages/api/stripe-webhook.ts:149-165 | When the order update lands: status "refunded" iff the refunded amount reaches the amount paid. The refunded amount is set to the charge's cumulative amount, not added to. No other field or row changes. |
| Webhook.RefundReleasesTickets | src/pages/api/stripe-webhook.ts:153-183 | When the tier write lands, the tier's sold count becomes max(0, sold − n) for n = tickets to return, and is untouched when n is 0. A full refund returns the whole quantity, a partial one at most the quantity. Other tiers are untouched. |
| Webhook.UnhandledEventIsNoop | src/pages/api/stripe-webhook.ts:188-189 | Any other event type gives 200 and no change. |
| Webhook.ReconcileKeepsSoldCountsNonNegative | src/pages/api/stripe-webhook.ts:73-92 | No delivery makes a sold count negative, given non-negative checkout quantities. |
| Webhook.RefundsReleaseCumulatively | src/pages/api/stripe-webhook.ts:134-183 | A partial refund followed by a completing one releases the partial share and then the whole quantity again. |
| Newsletter.RateStep | src/pages/api/newsletter/subscribe.ts:9-24 | One address's step: allowed iff there is no record, the window has passed, or the count is below 5. A refusal keeps the record. A new window stores (1, now + 1 h); otherwise the count goes up by one. An allowed request always lies inside its record's window. |
| Newsletter.RateLimiter.constructor | src/pages/api/newsletter/subscribe.ts:5 | The limiter starts with no records. |
| Newsletter.RateLimiter.CheckRateLimit | src/pages/api/newsletter/subscribe.ts:9-24 | No record, or an expired window, stores (1, now + 1 h) and allows. A count ≥ 5 in the window refuses and keeps the record. Otherwise the count goes up by one and the call allows. Other addresses are untouched, and every count stays within 1..5. |
| Newsletter.WithinWindowAllowsAtMostRemaining | src/pages/api/newsletter/subscribe.ts:18-23 | Inside a window, an address is allowed at most 5 minus its count more requests. |
| Newsletter.AtMostLimitPerWindow | src/pages/api/newsletter/subscribe.ts:6-23 | From the request that opens a window until it ends, at most 5 requests per address are allowed. |
| Newsletter.ReplayWithinWindow | src/pages/api/newsletter/subscribe.ts:18-23 | Inside a window the count climbs by one per request up to 5 and stays there. |
| Newsletter.SixthRequestRefused | src/pages/api/newsletter/subscribe.ts:6-23 | The sixth request from one address inside a window is refused. |
| Newsletter.IndexOf | src/pages/api/newsletter/subscribe.ts:27 | The first position of a character, or none when absent. |
| Newsletter.IsValidEmail | src/pages/api/newsletter/subscribe.ts:26-29 | True iff the string matches `^[^\s@]+@[^\s@]+\.[^\s@]+$`, with `\s` as JavaScript defines it. |
| Newsletter.EmailChecksSound | src/pages/api/newsletter/subscribe.ts:27 | Passing the scan's checks means the string matches the pattern. |
| Newsletter.EmailChecksComplete | src/pages/api/newsletter/subscribe.ts:27 | A string matching the pattern passes the scan's checks. |
| Newsletter.ValidEmailExample | src/pages/api/newsletter/subscribe.ts:27 | "fan@club.nyc" passes. |
| Newsletter.UndottedDomainRefused | src/pages/api/newsletter/subscribe.ts:27 | "fan@club" fails. |
| Newsletter.WhitespaceRefused | src/pages/api/newsletter/subscribe.ts:27 | "fan @club.nyc" fails. |
| Newsletter.SubscribeRows | src/pages/api/newsletter/subscribe.ts:61-109 | The table step replies 200 or 500; 500 exactly when the address is new and the insert fails, and then nothing changes. The keys afterwards are the old ones plus the lower-cased address on a 200. |
| Newsletter.SubscribeRowsSpec | src/pages/api/newsletter/subscribe.ts:61-109 | After a subscribe the lower-cased address is subscribed iff the reply is 200. Rows stay keyed by their lower-cased email, only that row changes, and a new row holds the lower-cased email, the source and no unsubscribe time. |
| Newsletter.SubscribeAgainIsNoop | src/pages/api/newsletter/subscribe.ts:61-87 | Subscribing again, in any letter case, after a successful subscribe changes nothing: "You're already subscribed!". |
| Newsletter.SubscriberTable.Upsert | src/pages/api/newsletter/subscribe.ts:61-109 | An unsubscribed row is resubscribed, a subscribed one left alone, a new lower-cased row inserted, and a failed insert gives 500. The result equals `SubscribeRows`. |
| Newsletter.Subscribe | src/pages/api/newsletter/subscribe.ts:31-109 | 500 without a database. The rate limit is charged next, before the email is read, and a refusal gives 429. A missing or malformed email gives 400. Otherwise the table step with source defaulting to "website". |
| Blob.CheckImage | src/lib/blob.ts:32-38 | Passes iff the type is jpeg, png or webp and the size is at most 5·1024·1024. The type message comes first, then the size message. |
| Blob.UploadImage | src/lib/blob.ts:31-47 | Stores iff the image guard passes, under `images/<now>-<name>` with the file's type. Otherwise fails with the guard's message. |
| Blob.UploadAudio | src/lib/blob.ts:49-62 | Stores iff the type is one of the four audio types, with no size limit, under `audio/<now>-<name>`. |
| Blob.UploadFlyer | src/lib/blob.ts:94-110 | The image guard, storing under `flyers/<now>-<name>`. |
| Blob.ImageCapIsFiveMegabytes | src/lib/blob.ts:29-38 | The size message reads "5MB". Exactly 5 MiB passes and one byte more is refused. |
| Blob.InvalidImageMessage | src/lib/blob.ts:33 | The type message lists the allow-list in order: "image/jpeg, image/png, image/webp". |
| Blob.StoredPathsDisjoint | src/lib/blob.ts:40-103 | Images, audio and flyers never share a path. |
| Blob.Extension | src/lib/blob.ts:113 | The extension holds no '.' and no upper-case letter. |
| Blob.ContentTypeAsWritten | src/lib/blob.ts:112-124 | The lookup as written returns an inherited member exactly for "constructor" and "__proto__". Otherwise it agrees with `GetContentType`. |
| Blob.InheritedNameEscapesTable | src/lib/blob.ts:123 | Any name ending in ".constructor" gets the inherited `constructor` function, not a MIME type. |
| Blob.GetContentType | src/lib/blob.ts:112-124 | A known lower-cased extension gets exactly its table entry (jpg and jpeg → image/jpeg, png, webp, mp3 → audio/mpeg, aiff, wav); any other gives "application/octet-stream". |
| Blob.ContentTypeOfKnownExtension | src/lib/blob.ts:113-123 | Every name "<stem>.<ext>" whose lower-cased `ext` is a table key gets that key's MIME type. |
| Blob.SameExtensionSameContentType | src/lib/blob.ts:112-124 | Two names with the same lower-cased extension get the same content type. |
| Blob.ContentTypeIsUploadable | src/lib/blob.ts:27-28 | Every MIME type the lookup names passes the image or the audio allow-list. |
| Blob.ExtensionOfJoin | src/lib/blob.ts:113 | A name ending in ".ext" has `ext`, lower-cased, as its extension. |
| Blob.BareNameIsExtension | src/lib/blob.ts:113 | A name without '.' is its own extension: "PNG" maps to "image/png". |
| Blob.TrailingDotIsUnknown | src/lib/blob.ts:123 | An empty extension gives "application/octet-stream". |
| Blob.LastDotDecides | src/lib/blob.ts:113 | Only the text after the last '.' counts: "mix.final.WAV" is "audio/wav". |
| Blob.ContentTypeIgnoresCase | src/lib/blob.ts:113 | The content type of a name does not depend on its letter case. |
| Blob.AfterLastOfLower | src/lib/blob.ts:113 | Lower-casing commutes with taking the text after the last '.'. |
| Blob.AfterLastUnique | src/lib/blob.ts:113 | The text after the last separator is the only suffix that holds no separator and is either the whole string or preceded by one. |
| Upload.Decide | src/pages/api/upload.ts:8-72 | Status codes in order: 401 without the cookie, then 400 without a file. An image of another MIME type gets 400 "Invalid image type. Allowed: jpg, png, webp", an oversized one 400 "Image too large. Max size: 5MB", and audio of another type 400 "Invalid audio type. Allowed: mp3, aiff, wav". A type other than image/audio gets 400 "Invalid upload type". Every refusal is 400 or 401, and 401 exactly when the cookie is missing or empty. Stores iff an image has an allowed type and size ≤ 5 MB, or audio has an allowed type. The write goes to `<type>s/<now>-<suffix>.<ext>` with the file's type. |
| Upload.RouteAgreesWithHelpers | src/pages/api/upload.ts:31-50 | The route accepts an image iff `uploadImage` would, and audio iff `uploadAudio` would. It refuses an oversized image with the helper's own message. |
| Upload.UnauthorizedFirst | src/pages/api/upload.ts:10-16 | Without the cookie, or with an empty one, the answer is 401 whatever the form holds. |
| Upload.StoredNameKeepsExtension | src/pages/api/upload.ts:59-60 | The stored name starts with `<type>s/`, ends with the original extension, and has the original's content type. |
| Upload.StoredNameShape | src/pages/api/upload.ts:60 | The filename template begins with `<type>s/` and keeps the text after the name's last '.'. |

## Left out

- Floating point: the routes divide cents by 100 and compute `Math.floor((refunded / paid) * quantity)` on doubles. The model uses exact integer arithmetic, so float rounding at exact ratio boundaries is not captured.
- `parseInt` on webhook metadata (NaN, trailing text): the quantity arrives as an optional integer.
- Request fields of an unexpected type (a string quantity, a non-string email, a text value in the upload form's `file` field) are not modelled. A quantity is absent, `null` or an integer. A fractional quantity such as 2.5 passes the 1..10 guard in the source and reaches the stock check and the provider; the model cannot express it. Request parsing failures and the `catch` paths are also left out: the generic 500 replies "Something went wrong…", "Webhook error" and "Upload failed".
- Webhook signature verification is an HMAC inside the provider's SDK and is an input flag here. The provider's session creation is an input: its URL, or a failure.
- The `increment_sold_count` database function is not part of this model. Both it and the read-modify-write fallback are taken to add the quantity when the tier exists and the sold-count write lands.
- Order numbers are modelled as a counter that advances only when a new order row is inserted. The source only reads `order_number` back from the upsert; how the database assigns it (a sequence may also advance on a conflicting upsert) is not part of this model. What the source does fix is that an existing row keeps its number.
- The confirmation email (event and tier reads, locale date formatting, sending) changes no state and cannot change the 200 reply, so it is left out.
- Concurrency: the read-modify-write race on the sold count and parallel rate-limit updates. One request is handled at a time.
- The order columns the model does not read (customer name formatting, the order number returned to the email), and the database default for `subscribed_at` on insert, which the model sets to `now`.
- A `null` newsletter `source` is treated like an absent one and stored as "website"; the source's destructuring default applies only to an absent field, so it would store `null`.
- Resubscription ignores the update's own error in the source. The model lets that update always succeed.
- `toLowerCase` is modelled on ASCII letters only; Unicode case mapping is not captured.
- `Date.now()` and `Math.random().toString(36).substring(7)` are the parameters `now` and `suffix`. The blob store's URL answer is not modelled; the model returns the write request instead.
- `deleteBlob`, `listFlyers` and `getTestFlyer` are plain calls into the blob store with no local logic.
- Webhook.CompletedAddsQuantity: the stock cap is not consulted on delivery, so the sold count may exceed `max_stock`. The model states this as it is and claims no bound.
- Webhook.ReconcileKeepsSoldCountsNonNegative: needs non-negative checkout quantities, which the route does not check on webhook metadata.
- The "idempotent on stripe_session_id" comment on the upsert covers the order row only, and the order row is idempotent. The sold-count increment that follows is not idempotent: a repeated delivery counts its tickets again (`Webhook.DuplicateCompletedDelivery`).

## Findings

| source | as written | input that shows it | evidently intended | confidence | as-written member | corrected member |
|---|---|---|---|---|---|---|
| src/lib/blob.ts:123 | `types[ext \|\| '']` indexes a plain object literal, so it also finds the members inherited from `Object.prototype` | `getContentType("flyer.constructor")` returns the `Object` function, not a string | Only the table's own seven entries count; anything else gives "application/octet-stream" | not executed; follows from JavaScript property lookup | Blob.ContentTypeAsWritten (shown by Blob.InheritedNameEscapesTable) | Blob.GetContentType |
