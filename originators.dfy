/** The participants of history synchronisation and the roster check done at construction. */
module Originators {

  /** An originator of persistent data (an app target such as the iOS app or its watchOS extension). */
  datatype Originator = Originator(identifier: string)

  /** The set of identifiers used by a roster (`Set(allTargets.map { $0.identifier })`). */
  function Identifiers(roster: seq<Originator>): (ids: set<string>)
    ensures forall id :: id in ids <==> exists i :: 0 <= i < |roster| && roster[i].identifier == id
  {
    if roster == [] then {}
    else
      var init := roster[..|roster| - 1];
      assert forall i :: 0 <= i < |init| ==> init[i] == roster[i];
      Identifiers(init) + {roster[|roster| - 1].identifier}
  }

  /** No two roster members share an identifier. */
  ghost predicate DistinctIdentifiers(roster: seq<Originator>) {
    forall i, j :: 0 <= i < j < |roster| ==> roster[i].identifier != roster[j].identifier
  }

  /** A roster is duplicate-free exactly when its prefix is and its last identifier is new. */
  lemma DistinctSnoc(roster: seq<Originator>)
    requires roster != []
    ensures DistinctIdentifiers(roster) <==>
      DistinctIdentifiers(roster[..|roster| - 1]) && roster[|roster| - 1].identifier !in Identifiers(roster[..|roster| - 1])
  {
    var n := |roster|;
    var init := roster[..n - 1];
    assert forall i :: 0 <= i < n - 1 ==> init[i] == roster[i];
    if DistinctIdentifiers(init) && roster[n - 1].identifier !in Identifiers(init) {
      forall i, j | 0 <= i < j < n ensures roster[i].identifier != roster[j].identifier {
        if j < n - 1 {
          assert init[i] == roster[i] && init[j] == roster[j];
        }
      }
    }
  }

  /** The identifier set is never larger than the roster, and it is exactly as large
      precisely when the identifiers are pairwise distinct. */
  lemma {:induction false} IdentifierCount(roster: seq<Originator>)
    ensures |Identifiers(roster)| <= |roster|
    ensures |Identifiers(roster)| == |roster| <==> DistinctIdentifiers(roster)
  {
    if roster != [] {
      var init := roster[..|roster| - 1];
      var last := roster[|roster| - 1].identifier;
      IdentifierCount(init);
      DistinctSnoc(roster);
      assert Identifiers(roster) == Identifiers(init) + {last};
      if last !in Identifiers(init) {
        assert |Identifiers(roster)| == |Identifiers(init)| + 1;
      }
    }
  }
}
