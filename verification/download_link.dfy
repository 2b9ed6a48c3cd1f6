/** getDownloadLink: verifies that a checkout session was paid by the caller,
    issues a short-lived read grant on the purchased deliverable and, for an
    exclusive lease, marks the beat sold. The payment provider, the bucket, the
    clock and Firestore are parameters. */
module DownloadLink {
  import opened Callable
  import opened Stores
  import opened Paths

  /** The lease tier that sells a beat outright. */
  const Exclusive := "exclusive"

  /** How long a signed download URL stays valid: ten minutes, in milliseconds. */
  const SignedUrlTtlMs := 10 * 60 * 1000

  const MustLogIn := "You must be logged in."
  const MissingSessionId := "Missing sessionId."
  const PaymentNotCompleted := "Payment not completed."
  const MissingMetadata := "Missing purchase metadata."
  const UserMismatch := "User mismatch."
  const DeliverableNotFound := "Deliverable not found on server."
  /** What the platform reports when the provider's session lookup throws. */
  const LookupFailed := "INTERNAL"

  /** The only action a grant allows. */
  datatype Action = Read

  /** A signed URL, abstractly: the one object it unlocks, the action it allows
      and the instant (in milliseconds) it expires. */
  datatype Grant = Grant(path: string, action: Action, expires: int)

  /** A call's result together with the catalog after it. */
  datatype Outcome = Outcome(result: Result<Grant>, catalog: Catalog)

  /** The object name a purchase unlocks. */
  function PathOf(p: Purchase): (path: string)
  {
    DeliverablePath(p.beatId, p.leaseType)
  }

  /** The purchase a caller may download, defined from the stores alone and
      without regard to the order of the checks: an authenticated caller, a
      non-empty session id that the provider knows, a paid session whose
      metadata is complete and names the caller, and a deliverable that
      exists. */
  function Entitlement(auth: Option<Auth>, sessionId: Option<string>, sessions: Sessions, objects: Objects): (e: Option<Purchase>)
  {
    if auth.Some? && Truthy(sessionId) && sessionId.value in sessions
       && sessions[sessionId.value].paymentStatus == Paid
       && ReadPurchase(sessions[sessionId.value].metadata).Some?
       && ReadPurchase(sessions[sessionId.value].metadata).value.userId == auth.value.uid
       && PathOf(ReadPurchase(sessions[sessionId.value].metadata).value) in objects
    then ReadPurchase(sessions[sessionId.value].metadata)
    else None
  }

  /** The catalog after a successful download of the purchase. */
  function AfterSale(catalog: Catalog, p: Purchase): (after: Catalog)
  {
    if p.leaseType == Exclusive then MarkSold(catalog, p.beatId) else catalog
  }

  /** The handler itself, its checks in the program's order. */
  function GetDownloadLink(
    auth: Option<Auth>, sessionId: Option<string>,
    sessions: Sessions, objects: Objects, catalog: Catalog, now: int): (r: Outcome)
    ensures r.result.Ok? <==> Entitlement(auth, sessionId, sessions, objects).Some?
    ensures r.result.Ok? ==>
      var p := Entitlement(auth, sessionId, sessions, objects).value;
      && r.result.value == Grant(PathOf(p), Read, now + SignedUrlTtlMs)
      && r.catalog == AfterSale(catalog, p)
    ensures r.result.Err? ==> r.catalog == catalog
  {
    if auth.None? then
      Outcome(Err(HttpsError(Unauthenticated, MustLogIn)), catalog)
    else if !Truthy(sessionId) then
      Outcome(Err(HttpsError(InvalidArgument, MissingSessionId)), catalog)
    else if sessionId.value !in sessions then
      Outcome(Err(HttpsError(Internal, LookupFailed)), catalog)
    else
      var session := sessions[sessionId.value];
      if session.paymentStatus != Paid then
        Outcome(Err(HttpsError(FailedPrecondition, PaymentNotCompleted)), catalog)
      else
        var purchase := ReadPurchase(session.metadata);
        if purchase.None? then
          Outcome(Err(HttpsError(Internal, MissingMetadata)), catalog)
        else if purchase.value.userId != auth.value.uid then
          Outcome(Err(HttpsError(PermissionDenied, UserMismatch)), catalog)
        else
          var path := DeliverablePath(purchase.value.beatId, purchase.value.leaseType);
          if path !in objects then
            Outcome(Err(HttpsError(NotFound, DeliverableNotFound)), catalog)
          else
            var grant := Grant(path, Read, now + SignedUrlTtlMs);
            var catalog' := if purchase.value.leaseType == Exclusive then MarkSold(catalog, purchase.value.beatId) else catalog;
            Outcome(Ok(grant), catalog')
  }

  /** Without a caller the call fails `unauthenticated`, whatever the session
      id, the provider, the bucket or the catalog hold. */
  lemma UnauthenticatedFirst(sessionId: Option<string>, sessions: Sessions, objects: Objects, catalog: Catalog, now: int)
    ensures GetDownloadLink(None, sessionId, sessions, objects, catalog, now)
      == Outcome(Err(HttpsError(Unauthenticated, MustLogIn)), catalog)
  {
  }

  /** A missing or empty session id fails `invalid-argument` before the
      provider is asked. */
  lemma MissingSessionIdRejected(auth: Auth, sessionId: Option<string>, sessions: Sessions, objects: Objects, catalog: Catalog, now: int)
    requires !Truthy(sessionId)
    ensures GetDownloadLink(Some(auth), sessionId, sessions, objects, catalog, now)
      == Outcome(Err(HttpsError(InvalidArgument, MissingSessionId)), catalog)
  {
  }

  /** A session id the provider does not know makes the lookup throw, which the
      caller sees as `internal`; the payment status is never consulted. */
  lemma UnknownSessionRejected(auth: Auth, sessionId: string, sessions: Sessions, objects: Objects, catalog: Catalog, now: int)
    requires sessionId != "" && sessionId !in sessions
    ensures GetDownloadLink(Some(auth), Some(sessionId), sessions, objects, catalog, now)
      == Outcome(Err(HttpsError(Internal, LookupFailed)), catalog)
  {
  }

  /** A session whose status is not exactly `paid` fails
      `failed-precondition`, whatever its metadata or the bucket hold. */
  lemma UnpaidRejected(auth: Auth, sessionId: string, sessions: Sessions, objects: Objects, catalog: Catalog, now: int)
    requires sessionId != "" && sessionId in sessions
    requires sessions[sessionId].paymentStatus != Paid
    ensures GetDownloadLink(Some(auth), Some(sessionId), sessions, objects, catalog, now)
      == Outcome(Err(HttpsError(FailedPrecondition, PaymentNotCompleted)), catalog)
  {
  }

  /** A paid session with incomplete metadata fails `internal`, even when the
      caller is not the buyer: the metadata check precedes the identity check. */
  lemma IncompleteMetadataRejected(auth: Auth, sessionId: string, sessions: Sessions, objects: Objects, catalog: Catalog, now: int)
    requires sessionId != "" && sessionId in sessions
    requires sessions[sessionId].paymentStatus == Paid
    requires !Truthy(Field(sessions[sessionId].metadata, BeatIdKey))
          || !Truthy(Field(sessions[sessionId].metadata, LeaseTypeKey))
          || !Truthy(Field(sessions[sessionId].metadata, UserIdKey))
    ensures GetDownloadLink(Some(auth), Some(sessionId), sessions, objects, catalog, now)
      == Outcome(Err(HttpsError(Internal, MissingMetadata)), catalog)
  {
  }

  /** A paid session bought by someone else fails `permission-denied`,
      whatever the bucket holds. */
  lemma OtherBuyerRejected(auth: Auth, sessionId: string, sessions: Sessions, objects: Objects, catalog: Catalog, now: int)
    requires sessionId != "" && sessionId in sessions
    requires sessions[sessionId].paymentStatus == Paid
    requires ReadPurchase(sessions[sessionId].metadata).Some?
    requires ReadPurchase(sessions[sessionId].metadata).value.userId != auth.uid
    ensures GetDownloadLink(Some(auth), Some(sessionId), sessions, objects, catalog, now)
      == Outcome(Err(HttpsError(PermissionDenied, UserMismatch)), catalog)
  {
  }

  /** A paid session of the caller whose deliverable is missing fails
      `not-found`: no grant, no catalog change. */
  lemma MissingDeliverableRejected(auth: Auth, sessionId: string, sessions: Sessions, objects: Objects, catalog: Catalog, now: int)
    requires sessionId != "" && sessionId in sessions
    requires sessions[sessionId].paymentStatus == Paid
    requires ReadPurchase(sessions[sessionId].metadata).Some?
    requires ReadPurchase(sessions[sessionId].metadata).value.userId == auth.uid
    requires PathOf(ReadPurchase(sessions[sessionId].metadata).value) !in objects
    ensures GetDownloadLink(Some(auth), Some(sessionId), sessions, objects, catalog, now)
      == Outcome(Err(HttpsError(NotFound, DeliverableNotFound)), catalog)
  {
  }

  /** A grant is scoped to one file under `deliverables/` with the `.zip`
      suffix, read only, for exactly ten minutes from now. */
  lemma GrantIsScoped(auth: Option<Auth>, sessionId: Option<string>, sessions: Sessions, objects: Objects, catalog: Catalog, now: int)
    requires GetDownloadLink(auth, sessionId, sessions, objects, catalog, now).result.Ok?
    ensures var g := GetDownloadLink(auth, sessionId, sessions, objects, catalog, now).result.value;
      && g.path in objects
      && g.path[..|Prefix|] == Prefix
      && g.path[|g.path| - |Suffix|..] == Suffix
      && g.action == Read
      && g.expires - now == 600000
  {
  }

  /** Only an exclusive sale changes the catalog, and then only the sold beat's
      `isSold` field: every other document and field stays as it was. */
  lemma OnlyExclusiveSaleWrites(auth: Option<Auth>, sessionId: Option<string>, sessions: Sessions, objects: Objects, catalog: Catalog, now: int)
    ensures var r := GetDownloadLink(auth, sessionId, sessions, objects, catalog, now);
      var e := Entitlement(auth, sessionId, sessions, objects);
      && (r.catalog != catalog ==> e.Some? && e.value.leaseType == Exclusive && !IsSold(catalog, e.value.beatId))
      && (e.Some? && e.value.leaseType == Exclusive ==> IsSold(r.catalog, e.value.beatId))
      && (forall b :: b in catalog && (e.None? || b != e.value.beatId) ==> b in r.catalog && r.catalog[b] == catalog[b])
      && (forall b :: b in r.catalog ==> b in catalog || (e.Some? && b == e.value.beatId))
  {
    var e := Entitlement(auth, sessionId, sessions, objects);
    if e.Some? && e.value.leaseType == Exclusive {
      MarkSoldIdempotent(catalog, e.value.beatId);
    }
  }

  /** The catalog never gates a sale: the result is the same whatever the
      catalog holds, so a beat already sold exclusively is still delivered. */
  lemma CatalogDoesNotGate(auth: Option<Auth>, sessionId: Option<string>, sessions: Sessions, objects: Objects, c1: Catalog, c2: Catalog, now: int)
    ensures GetDownloadLink(auth, sessionId, sessions, objects, c1, now).result
         == GetDownloadLink(auth, sessionId, sessions, objects, c2, now).result
  {
  }

  /** Retrying a call, at any later instant, leaves the catalog as the first
      call left it and delivers the same file again. */
  lemma RetryIsIdempotent(auth: Option<Auth>, sessionId: Option<string>, sessions: Sessions, objects: Objects, catalog: Catalog, now1: int, now2: int)
    ensures var first := GetDownloadLink(auth, sessionId, sessions, objects, catalog, now1);
      var second := GetDownloadLink(auth, sessionId, sessions, objects, first.catalog, now2);
      && second.catalog == first.catalog
      && second.result.Ok? == first.result.Ok?
      && (second.result.Ok? ==> second.result.value == first.result.value.(expires := now2 + SignedUrlTtlMs))
      && (second.result.Err? ==> second.result == first.result)
  {
    var e := Entitlement(auth, sessionId, sessions, objects);
    if e.Some? && e.value.leaseType == Exclusive {
      MarkSoldIdempotent(catalog, e.value.beatId);
    }
  }
}
