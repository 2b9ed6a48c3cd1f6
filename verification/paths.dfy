/** The storage layout of deliverables: the file for a beat and lease tier is
    `deliverables/{beatId}/{leaseType}.zip`. */
module Paths {
  import opened Callable

  const Prefix := "deliverables/"
  const Suffix := ".zip"

  /** The object name getDownloadLink derives from a session's metadata. */
  function DeliverablePath(beatId: string, leaseType: string): (p: string)
    ensures |p| == |Prefix| + |beatId| + 1 + |leaseType| + |Suffix|
    ensures p[..|Prefix|] == Prefix
    ensures p[|p| - |Suffix|..] == Suffix
  {
    Prefix + beatId + "/" + leaseType + Suffix
  }

  /** The index of the first occurrence of `c` in `s`, or `|s|` when there is none. */
  function IndexOf(s: string, c: char): (i: nat)
    ensures i <= |s|
    ensures c !in s[..i]
    ensures i < |s| ==> s[i] == c
    decreases |s|
  {
    if |s| == 0 then 0
    else if s[0] == c then 0
    else
      var j := IndexOf(s[1..], c);
      assert s[..j + 1] == [s[0]] + s[1..][..j];
      1 + j
  }

  /** The first occurrence is the only index that has `c` and no `c` before it. */
  lemma IndexOfUnique(s: string, c: char, k: nat)
    requires k < |s| && s[k] == c && c !in s[..k]
    ensures IndexOf(s, c) == k
  {
  }

  /** Recovers the beat and lease tier from a deliverable object name, taking
      the beat id to end at the first `/` after the prefix. */
  function ParseDeliverablePath(p: string): (r: Option<(string, string)>)
    ensures r.Some? ==> DeliverablePath(r.value.0, r.value.1) == p && '/' !in r.value.0
  {
    if |p| < |Prefix| + |Suffix| || p[..|Prefix|] != Prefix || p[|p| - |Suffix|..] != Suffix then
      None
    else
      var middle := p[|Prefix|..|p| - |Suffix|];
      var i := IndexOf(middle, '/');
      if i == |middle| then
        None
      else
        var beatId := middle[..i];
        var leaseType := middle[i + 1..];
        assert middle == beatId + "/" + leaseType;
        assert p == p[..|Prefix|] + middle + p[|p| - |Suffix|..];
        Some((beatId, leaseType))
  }

  /** For beat ids without a `/`, the object name determines the purchase: the
      parser recovers exactly the beat and lease tier it was built from. */
  lemma {:induction false} ParseDeliverablePathRoundTrip(beatId: string, leaseType: string)
    requires '/' !in beatId
    ensures ParseDeliverablePath(DeliverablePath(beatId, leaseType)) == Some((beatId, leaseType))
  {
    var p := DeliverablePath(beatId, leaseType);
    var middle := p[|Prefix|..|p| - |Suffix|];
    assert middle == beatId + "/" + leaseType;
    assert middle[..|beatId|] == beatId;
    IndexOfUnique(middle, '/', |beatId|);
  }

  /** Distinct purchases of beats whose ids have no `/` never share a file. */
  lemma DeliverablePathInjective(b1: string, l1: string, b2: string, l2: string)
    requires '/' !in b1 && '/' !in b2
    requires DeliverablePath(b1, l1) == DeliverablePath(b2, l2)
    ensures b1 == b2 && l1 == l2
  {
    ParseDeliverablePathRoundTrip(b1, l1);
    ParseDeliverablePathRoundTrip(b2, l2);
  }

  /** Without that restriction the layout is ambiguous: beat `a/b` with tier `c`
      and beat `a` with tier `b/c` name the same object. */
  lemma DeliverablePathCollision()
    ensures DeliverablePath("a/b", "c") == DeliverablePath("a", "b/c")
  {
  }
}
