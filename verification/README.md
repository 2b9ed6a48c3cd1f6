# Beat-store fulfilment, modelled in Dafny

The storefront sells lease tiers of audio beats through two callable Cloud
Functions in `functions/index.js`:

- `createCheckoutSession` refuses callers who are not signed in. It then opens a
  Stripe Checkout Session whose metadata records the caller's uid, the beat id
  and the lease tier.
- `getDownloadLink` releases the purchased file. It checks the caller and the
  session id, then re-reads the session from Stripe. It requires the status to
  be exactly `paid`, requires complete metadata that names the caller, and
  requires the deliverable `deliverables/{beatId}/{leaseType}.zip` to exist in
  the bucket. It then signs a read URL valid for ten minutes. For an
  `exclusive` lease it merges `isSold: true` into the beat's Firestore
  document.

The model treats every external call as an input:

- Stripe's sessions are a map from session id to `(payment status, metadata)`.
- The bucket is a set of object names.
- The `beats` collection is a map from beat id to a field map.
- `Date.now()` is an integer parameter.
- A signed URL is an abstract `Grant(path, action, expires)`.

`getDownloadLink` becomes a pure function returning the result and the catalog
after the call.

Modules:

- `Callable`: caller identity, `HttpsError` codes, `Result`, and JavaScript truthiness of optional strings.
- `Stores`: the session record, the metadata keys and their decoding, and the merge write that marks a beat sold.
- `Paths`: the deliverable object name, and a parser showing when that name identifies the purchase.
- `Checkout`: `createCheckoutSession`'s auth check and metadata, and the provider's move to `paid`.
- `DownloadLink`: `getDownloadLink`, a declarative `Entitlement` it is proved against, and one lemma per error.
- `Redemption`: a sequence of calls sharing the catalog.
- `RoundTrip`: checkout, then payment, then download.

A Stripe lookup of an unknown session id throws a plain error, not an
`HttpsError`. The Firebase callable runtime reports such an error to the caller
with code `internal` and message `INTERNAL`. The model returns exactly that.
This comes from the runtime, not from the source file.

## Model

| member | source | states |
|---|---|---|
| `Stores.ReadPurchase` | functions/index.js:100-103 | the metadata yields a purchase exactly when `beatId`, `leaseType` and `userId` are all present and non-empty; the purchase carries those three values |
| `Stores.MarkSold` | functions/index.js:131-133 | the merge write leaves the beat marked sold; it creates the document if missing, keeps its other fields, and keeps every other document |
| `Stores.MarkSoldIdempotent` | functions/index.js:133 | repeating the merge write changes nothing; on a beat already sold the write is a no-op |
| `Paths.DeliverablePath` | functions/index.js:112-113 | the object name starts with `deliverables/`, ends with `.zip`, and is as long as its parts |
| `Paths.ParseDeliverablePath` | functions/index.js:112-113 | any name the parser accepts is the deliverable path of the beat and tier it returns, and that beat id has no `/` |
| `Paths.ParseDeliverablePathRoundTrip` | functions/index.js:112-113 | for a beat id without `/`, parsing the deliverable path gives back exactly that beat and lease tier |
| `Paths.DeliverablePathInjective` | functions/index.js:113 | two purchases of `/`-free beat ids with the same object name are the same purchase |
| `Paths.DeliverablePathCollision` | functions/index.js:113 | without that restriction, beat `a/b` tier `c` and beat `a` tier `b/c` name the same object |
| `Checkout.SessionMetadata` | functions/index.js:61-65 | the metadata maps `userId` to the caller's uid and `beatId`/`leaseType` to what the client sent; it has no other key |
| `Checkout.CreateCheckoutSession` | functions/index.js:24-68 | without a caller: `unauthenticated` and no session created; otherwise the new id is returned and the provider holds an unpaid session with that metadata under it (the provider assigns fresh ids; a reused id would be overwritten); other sessions are untouched |
| `Checkout.MetadataRoundTrip` | functions/index.js:61-65 | decoding the metadata checkout wrote gives back the caller's uid, beat and lease tier when all are non-empty |
| `DownloadLink.GetDownloadLink` | functions/index.js:79-138 | succeeds exactly when the caller holds an `Entitlement`; the grant is read-only on that purchase's object and expires at `now + 600000`; the catalog changes only by the exclusive sale; on every error the catalog is unchanged |
| `DownloadLink.UnauthenticatedFirst` | functions/index.js:82-84 | with no caller the result is `unauthenticated` whatever the session id, sessions, bucket and catalog hold |
| `DownloadLink.MissingSessionIdRejected` | functions/index.js:89-92 | a missing or empty session id gives `invalid-argument` whatever the sessions hold |
| `DownloadLink.UnknownSessionRejected` | functions/index.js:95 | a non-empty session id the provider does not know gives `internal` with message `INTERNAL` (the runtime's report of the thrown lookup), before the payment status is consulted; catalog unchanged |
| `DownloadLink.UnpaidRejected` | functions/index.js:95-98 | a status other than exactly `paid` gives `failed-precondition` whatever the metadata and bucket hold; no grant, catalog unchanged |
| `DownloadLink.IncompleteMetadataRejected` | functions/index.js:100-103 | a paid session missing any of the three metadata values gives `internal`, even for a caller who is not the buyer |
| `DownloadLink.OtherBuyerRejected` | functions/index.js:104-106 | a paid, complete session whose `userId` is not the caller's uid gives `permission-denied` whatever the bucket holds |
| `DownloadLink.MissingDeliverableRejected` | functions/index.js:113-120 | the caller's own paid session with no object at its path gives `not-found`; no grant, catalog unchanged |
| `DownloadLink.GrantIsScoped` | functions/index.js:113-127 | a grant names an existing object under `deliverables/` ending `.zip`, is read-only, and expires 600000 ms after `now` |
| `DownloadLink.OnlyExclusiveSaleWrites` | functions/index.js:129-134 | the catalog changes only when an entitled exclusive sale hits a beat not yet sold; such a sale always leaves the beat sold; no other document changes and none is created |
| `DownloadLink.CatalogDoesNotGate` | functions/index.js:116-134 | the result does not depend on the catalog, so a beat already sold exclusively is still delivered |
| `DownloadLink.RetryIsIdempotent` | functions/index.js:123-134 | a retried call keeps the catalog the first call left, succeeds exactly when the first call succeeded, and fails with the same error when it failed; on success it grants the same object with a fresh expiry |
| `Redemption.Replay` | functions/index.js:129-134 | after a sequence of calls, a beat is sold iff it was sold before or some call sold it exclusively; a beat no call sold keeps its document |
| `Redemption.ReplayTwiceIsReplayOnce` | functions/index.js:133 | replaying the same calls on the resulting catalog changes nothing |
| `Redemption.ReplayFixedPoint` | functions/index.js:129-134 | a catalog already marking every beat the calls sell is left unchanged by them |
| `RoundTrip.BuyerRedeemsPaidCheckout` | functions/index.js:61-136 | a session opened by `uid` for a non-empty beat and tier, then paid, gives `uid` a grant on `deliverables/{beatId}/{leaseType}.zip` when the object exists; it marks the beat sold iff the tier is `exclusive` |
| `RoundTrip.OthersCannotRedeemPaidCheckout` | functions/index.js:100-106 | any other caller presenting that paid session gets `permission-denied` |
| `RoundTrip.UnpaidCheckoutRefused` | functions/index.js:95-98 | a freshly opened, unpaid session gives `failed-precondition`, even to its buyer |
| `RoundTrip.IncompleteIntentNeverRedeems` | functions/index.js:100-103 | a paid checkout whose client omitted or emptied the beat or tier can never be redeemed; it gives `internal` |

## Left out

- Stripe SDK calls: `sessions.create` and `sessions.retrieve` are foreign network calls. Their results are inputs, a new session id and a sessions map.
- Line-item shaping is descriptive request data with no checked behaviour. This covers price, currency, product name and description, payment mode, and the success and cancel URLs (functions/index.js:38-58). So the model does not show that the price the client sends is never checked at fulfilment.
- The `catch` path of `createCheckoutSession` (functions/index.js:69-72) is left out. It only wraps provider failures.
- Failures of the bucket existence check, of URL signing and of the Firestore write are not modelled. Each external call is treated as returning normally.
- URL signing is left out. A signed URL is an abstract grant, with no V4 signing cryptography.
- Firebase wiring is configuration: `onCall`, `setGlobalOptions`, the secret, the region and the bucket name.
- `console.error` logging is left out.
- `Date.now()` is an integer parameter.
- Concurrent redemption of one exclusive beat is left out. The code uses no locking, and the model runs calls one after another.
- Single use of a session id is not modelled. The code does not enforce it, so a paid session can be redeemed again; `RetryIsIdempotent` states what that retry does.
- Only string payload values are modelled. A `sessionId`, `beatId` or `leaseType` sent as a number, boolean or `null` is left out; `undefined` and `""` are covered.
- Firestore document paths are left out. The catalog is keyed by beat id. A beat id containing `/` would address a different document path, or be refused by Firestore.
- `Checkout.SessionMetadata` writes an empty `beatId` or `leaseType` as given. Stripe may instead drop such a key. Either way `getDownloadLink` refuses the session with `internal`.
- `getDownloadLink` awaits the Firestore write before it returns (functions/index.js:133-136), so a failed write returns no URL. Write failures are not modelled (see above).
- A call with no payload at all (`request.data` is `null`) is left out. Destructuring it throws a `TypeError`, which the runtime reports as `internal`. In `getDownloadLink` this happens at functions/index.js:89, before the session id check. In `createCheckoutSession` it happens at functions/index.js:32, outside the `try`. The model's `None` stands only for a payload object that lacks the key.
