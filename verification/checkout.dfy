/** createCheckoutSession, as far as it decides anything: it refuses callers
    who are not signed in and records the buyer and the purchase intent as the
    session's metadata. The provider assigns the session id, which is a
    parameter here. */
module Checkout {
  import opened Callable
  import opened Stores

  /** The payment status the provider gives a session it has just created. */
  const Unpaid := "unpaid"

  const MustLogInToPurchase := "You must be logged in to make a purchase."

  /** The purchase intent the client sends; a field it omits is `None`. The
      price and song name only describe the line item and are not modelled. */
  datatype CheckoutData = CheckoutData(beatId: Option<string>, leaseType: Option<string>)

  /** The session metadata: the caller's uid, and the beat and lease tier as
      the client sent them (a key the client omitted is not written). */
  function SessionMetadata(uid: string, data: CheckoutData): (m: map<string, string>)
    ensures Field(Some(m), UserIdKey) == Some(uid)
    ensures Field(Some(m), BeatIdKey) == data.beatId
    ensures Field(Some(m), LeaseTypeKey) == data.leaseType
    ensures m.Keys <= {UserIdKey, BeatIdKey, LeaseTypeKey}
  {
    var withBeat := if data.beatId.Some? then map[BeatIdKey := data.beatId.value] else map[];
    var withLease := if data.leaseType.Some? then map[LeaseTypeKey := data.leaseType.value] else map[];
    withBeat + withLease + map[UserIdKey := uid]
  }

  /** Opens a checkout session for the caller: returns the provider's id and
      the provider's sessions with the new, unpaid session added. */
  function CreateCheckoutSession(auth: Option<Auth>, data: CheckoutData, newId: string, sessions: Sessions): (r: (Result<string>, Sessions))
    ensures auth.None? ==> r.0 == Err(HttpsError(Unauthenticated, MustLogInToPurchase)) && r.1 == sessions
    ensures auth.Some? ==>
      && r.0 == Ok(newId)
      && r.1.Keys == sessions.Keys + {newId}
      && r.1[newId].paymentStatus == Unpaid
      && Field(r.1[newId].metadata, UserIdKey) == Some(auth.value.uid)
      && Field(r.1[newId].metadata, BeatIdKey) == data.beatId
      && Field(r.1[newId].metadata, LeaseTypeKey) == data.leaseType
    ensures forall id :: id in sessions && id != newId ==> id in r.1 && r.1[id] == sessions[id]
  {
    if auth.None? then
      (Err(HttpsError(Unauthenticated, MustLogInToPurchase)), sessions)
    else
      (Ok(newId), sessions[newId := Session(Unpaid, Some(SessionMetadata(auth.value.uid, data)))])
  }

  /** Decoding the metadata that checkout wrote gives back the buyer and the
      intent, provided the client sent a non-empty beat and lease tier. */
  lemma MetadataRoundTrip(uid: string, beatId: string, leaseType: string)
    requires uid != "" && beatId != "" && leaseType != ""
    ensures ReadPurchase(Some(SessionMetadata(uid, CheckoutData(Some(beatId), Some(leaseType)))))
      == Some(Purchase(beatId, leaseType, uid))
  {
  }

  /** The provider's transition when the buyer completes payment: the session's
      status becomes `paid` and its metadata stays as checkout wrote it. */
  function MarkPaid(sessions: Sessions, id: string): (r: Sessions)
    requires id in sessions
    ensures r.Keys == sessions.Keys
    ensures r[id] == sessions[id].(paymentStatus := Paid)
    ensures forall other :: other in sessions && other != id ==> r[other] == sessions[other]
  {
    sessions[id := sessions[id].(paymentStatus := Paid)]
  }
}
