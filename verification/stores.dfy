/** The external stores the handlers consult, as plain values: the payment
    provider's checkout sessions, the object names in the storage bucket, and the
    Firestore `beats` collection. */
module Stores {
  import opened Callable

  /** The only payment status that releases a download. */
  const Paid := "paid"

  /** The metadata keys createCheckoutSession writes and getDownloadLink reads. */
  const UserIdKey := "userId"
  const BeatIdKey := "beatId"
  const LeaseTypeKey := "leaseType"

  /** A checkout session as the provider returns it on retrieval: its payment
      status and its metadata map (`None` when the provider returns `null`). */
  datatype Session = Session(paymentStatus: string, metadata: Option<map<string, string>>)

  /** Checkout sessions by session id, as the provider knows them. */
  type Sessions = map<string, Session>

  /** The names of the objects present in the deliverables bucket. */
  type Objects = set<string>

  /** A Firestore field value. */
  datatype Value = BoolValue(b: bool) | StringValue(s: string) | IntValue(i: int)

  /** A Firestore document: its fields by name. */
  type Doc = map<string, Value>

  /** The `beats` collection: each beat's document, keyed by beat id. */
  type Catalog = map<string, Doc>

  /** The field that marks an exclusive beat as sold. */
  const IsSoldField := "isSold"

  /** What the purchase metadata of a session names: the beat, the lease tier
      and the buyer's uid. */
  datatype Purchase = Purchase(beatId: string, leaseType: string, userId: string)

  /** Reads one metadata key, treating `null` metadata as the empty object. */
  function Field(metadata: Option<map<string, string>>, key: string): (v: Option<string>)
    ensures v.Some? <==> metadata.Some? && key in metadata.value
    ensures v.Some? ==> v.value == metadata.value[key]
  {
    match metadata
    case None => None
    case Some(m) => if key in m then Some(m[key]) else None
  }

  /** The purchase recorded in a session's metadata, or `None` when any of the
      three keys is absent or empty. */
  function ReadPurchase(metadata: Option<map<string, string>>): (r: Option<Purchase>)
    ensures r.Some? <==>
      Truthy(Field(metadata, BeatIdKey)) && Truthy(Field(metadata, LeaseTypeKey)) && Truthy(Field(metadata, UserIdKey))
    ensures r.Some? ==>
      && Field(metadata, BeatIdKey) == Some(r.value.beatId)
      && Field(metadata, LeaseTypeKey) == Some(r.value.leaseType)
      && Field(metadata, UserIdKey) == Some(r.value.userId)
    ensures r.Some? ==> r.value.beatId != "" && r.value.leaseType != "" && r.value.userId != ""
  {
    var beatId := Field(metadata, BeatIdKey);
    var leaseType := Field(metadata, LeaseTypeKey);
    var userId := Field(metadata, UserIdKey);
    if Truthy(beatId) && Truthy(leaseType) && Truthy(userId) then
      Some(Purchase(beatId.value, leaseType.value, userId.value))
    else
      None
  }

  /** Whether the catalog records the beat as sold. */
  predicate IsSold(catalog: Catalog, beatId: string)
  {
    beatId in catalog && IsSoldField in catalog[beatId] && catalog[beatId][IsSoldField] == BoolValue(true)
  }

  /** The merge write `set({isSold: true}, {merge: true})` on the beat's
      document: creates the document when it is missing, sets `isSold` and keeps
      every other field and every other document. */
  function MarkSold(catalog: Catalog, beatId: string): (r: Catalog)
    ensures IsSold(r, beatId)
    ensures r.Keys == catalog.Keys + {beatId}
    ensures forall b :: b in catalog && b != beatId ==> r[b] == catalog[b]
    ensures r[beatId].Keys == (if beatId in catalog then catalog[beatId].Keys else {}) + {IsSoldField}
    ensures forall f :: beatId in catalog && f in catalog[beatId] && f != IsSoldField ==>
      r[beatId][f] == catalog[beatId][f]
  {
    var doc := if beatId in catalog then catalog[beatId] else map[];
    catalog[beatId := doc[IsSoldField := BoolValue(true)]]
  }

  /** Repeating the merge write changes nothing, and on a beat already marked
      sold the write is a no-op. */
  lemma MarkSoldIdempotent(catalog: Catalog, beatId: string)
    ensures MarkSold(MarkSold(catalog, beatId), beatId) == MarkSold(catalog, beatId)
    ensures IsSold(catalog, beatId) ==> MarkSold(catalog, beatId) == catalog
  {
    var once := MarkSold(catalog, beatId);
    var twice := MarkSold(once, beatId);
    assert twice[beatId] == once[beatId];
    if IsSold(catalog, beatId) {
      assert once[beatId] == catalog[beatId];
    }
  }
}
