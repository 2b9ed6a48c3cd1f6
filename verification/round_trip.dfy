/** Checkout followed by payment followed by download: a session opened by a
    caller and then paid is redeemable by that caller and by no one else. */
module RoundTrip {
  import opened Callable
  import opened Stores
  import opened Paths
  import opened Checkout
  import opened DownloadLink

  /** The provider's sessions once `uid` has opened session `id` for the
      intent and paid for it. */
  function PaidCheckout(uid: string, data: CheckoutData, id: string, sessions: Sessions): (paid: Sessions)
  {
    var created := CreateCheckoutSession(Some(Auth(uid)), data, id, sessions).1;
    MarkPaid(created, id)
  }

  /** The buyer who opened and paid the session receives a grant on
      `deliverables/{beatId}/{leaseType}.zip`, and an exclusive lease marks the
      beat sold. */
  lemma BuyerRedeemsPaidCheckout(
    uid: string, beatId: string, leaseType: string, id: string,
    sessions: Sessions, objects: Objects, catalog: Catalog, now: int)
    requires uid != "" && beatId != "" && leaseType != "" && id != ""
    requires DeliverablePath(beatId, leaseType) in objects
    ensures var data := CheckoutData(Some(beatId), Some(leaseType));
      && CreateCheckoutSession(Some(Auth(uid)), data, id, sessions).0 == Ok(id)
      && GetDownloadLink(Some(Auth(uid)), Some(id), PaidCheckout(uid, data, id, sessions), objects, catalog, now)
         == Outcome(
              Ok(Grant("deliverables/" + beatId + "/" + leaseType + ".zip", Read, now + 600000)),
              if leaseType == "exclusive" then MarkSold(catalog, beatId) else catalog)
  {
    MetadataRoundTrip(uid, beatId, leaseType);
  }

  /** Anyone else presenting the same paid session is refused
      `permission-denied`, whatever the bucket holds. */
  lemma OthersCannotRedeemPaidCheckout(
    uid: string, other: Auth, beatId: string, leaseType: string, id: string,
    sessions: Sessions, objects: Objects, catalog: Catalog, now: int)
    requires uid != "" && beatId != "" && leaseType != "" && id != ""
    requires other.uid != uid
    ensures var data := CheckoutData(Some(beatId), Some(leaseType));
      GetDownloadLink(Some(other), Some(id), PaidCheckout(uid, data, id, sessions), objects, catalog, now)
        == Outcome(Err(HttpsError(PermissionDenied, UserMismatch)), catalog)
  {
    MetadataRoundTrip(uid, beatId, leaseType);
  }

  /** Before payment the buyer's own session is refused `failed-precondition`. */
  lemma UnpaidCheckoutRefused(
    uid: string, data: CheckoutData, id: string,
    sessions: Sessions, objects: Objects, catalog: Catalog, now: int)
    requires id != ""
    ensures var created := CreateCheckoutSession(Some(Auth(uid)), data, id, sessions).1;
      GetDownloadLink(Some(Auth(uid)), Some(id), created, objects, catalog, now)
        == Outcome(Err(HttpsError(FailedPrecondition, PaymentNotCompleted)), catalog)
  {
  }

  /** A paid checkout whose client omitted or emptied the beat or lease tier
      can never be redeemed: it fails `internal`. */
  lemma IncompleteIntentNeverRedeems(
    uid: string, caller: Auth, data: CheckoutData, id: string,
    sessions: Sessions, objects: Objects, catalog: Catalog, now: int)
    requires id != ""
    requires !Truthy(data.beatId) || !Truthy(data.leaseType)
    ensures GetDownloadLink(Some(caller), Some(id), PaidCheckout(uid, data, id, sessions), objects, catalog, now)
      == Outcome(Err(HttpsError(Internal, MissingMetadata)), catalog)
  {
  }
}
