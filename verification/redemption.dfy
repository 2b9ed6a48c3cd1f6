/** A sequence of getDownloadLink calls against fixed provider and bucket
    contents, each call seeing the catalog the previous one left. The catalog is
    the only state the calls share. */
module Redemption {
  import opened Callable
  import opened Stores
  import opened DownloadLink

  /** One request: the caller, the session id sent, and the instant it runs. */
  datatype Call = Call(auth: Option<Auth>, sessionId: Option<string>, now: int)

  /** Whether the call is entitled to an exclusive lease on `beatId`. */
  predicate SellsExclusive(call: Call, sessions: Sessions, objects: Objects, beatId: string)
  {
    var e := Entitlement(call.auth, call.sessionId, sessions, objects);
    e.Some? && e.value.beatId == beatId && e.value.leaseType == Exclusive
  }

  /** Whether some call of the sequence sells `beatId` exclusively. */
  predicate SoldByAny(calls: seq<Call>, sessions: Sessions, objects: Objects, beatId: string)
  {
    exists i :: 0 <= i < |calls| && SellsExclusive(calls[i], sessions, objects, beatId)
  }

  /** The catalog after running the calls in order. A beat is sold afterwards
      exactly when it was sold before or some call sold it exclusively; a sold
      beat is never unmarked; a beat no call sold keeps its document. */
  function Replay(calls: seq<Call>, sessions: Sessions, objects: Objects, catalog: Catalog): (r: Catalog)
    ensures forall b :: IsSold(r, b) <==> IsSold(catalog, b) || SoldByAny(calls, sessions, objects, b)
    ensures forall b :: !SoldByAny(calls, sessions, objects, b) ==>
      (b in r <==> b in catalog) && (b in catalog ==> r[b] == catalog[b])
    decreases |calls|
  {
    if |calls| == 0 then
      catalog
    else
      var c := calls[0];
      var next := GetDownloadLink(c.auth, c.sessionId, sessions, objects, catalog, c.now).catalog;
      assert forall b :: SoldByAny(calls, sessions, objects, b) <==>
        SellsExclusive(c, sessions, objects, b) || SoldByAny(calls[1..], sessions, objects, b) by {
        forall b | SoldByAny(calls, sessions, objects, b)
          ensures SellsExclusive(c, sessions, objects, b) || SoldByAny(calls[1..], sessions, objects, b)
        {
          var i :| 0 <= i < |calls| && SellsExclusive(calls[i], sessions, objects, b);
          if i > 0 {
            assert calls[1..][i - 1] == calls[i];
          }
        }
        forall b | SoldByAny(calls[1..], sessions, objects, b)
          ensures SoldByAny(calls, sessions, objects, b)
        {
          var j :| 0 <= j < |calls[1..]| && SellsExclusive(calls[1..][j], sessions, objects, b);
          assert calls[j + 1] == calls[1..][j];
        }
      }
      Replay(calls[1..], sessions, objects, next)
  }

  /** Replaying the same calls a second time leaves the catalog as the first
      run left it: the exclusive write is an idempotent merge. */
  lemma ReplayTwiceIsReplayOnce(calls: seq<Call>, sessions: Sessions, objects: Objects, catalog: Catalog)
    ensures var once := Replay(calls, sessions, objects, catalog);
      Replay(calls, sessions, objects, once) == once
  {
    ReplayFixedPoint(calls, sessions, objects, Replay(calls, sessions, objects, catalog));
  }

  /** A catalog that already reflects every sale of the calls is left alone. */
  lemma {:induction false} ReplayFixedPoint(calls: seq<Call>, sessions: Sessions, objects: Objects, catalog: Catalog)
    requires forall b :: SoldByAny(calls, sessions, objects, b) ==> IsSold(catalog, b)
    ensures Replay(calls, sessions, objects, catalog) == catalog
    decreases |calls|
  {
    if |calls| > 0 {
      var c := calls[0];
      var e := Entitlement(c.auth, c.sessionId, sessions, objects);
      if e.Some? && e.value.leaseType == Exclusive {
        assert SellsExclusive(calls[0], sessions, objects, e.value.beatId);
        assert SoldByAny(calls, sessions, objects, e.value.beatId);
        MarkSoldIdempotent(catalog, e.value.beatId);
      }
      forall b | SoldByAny(calls[1..], sessions, objects, b)
        ensures IsSold(catalog, b)
      {
        var j :| 0 <= j < |calls[1..]| && SellsExclusive(calls[1..][j], sessions, objects, b);
        assert calls[j + 1] == calls[1..][j];
        assert SoldByAny(calls, sessions, objects, b);
      }
      ReplayFixedPoint(calls[1..], sessions, objects, catalog);
    }
  }
}
