/** The per-originator "last merged" timestamps kept in the shared user-defaults store. */
module Watermarks {
  import opened Wrappers
  import opened Originators

  /** `Date.distantPast` (0001-01-01), in seconds relative to the Foundation reference date 2001-01-01. */
  const DistantPast: int := -63114076800

  const KeyPrefix: string := "lastHistoryTransactionTimeStamp-"

  /** The defaults key under which an originator's watermark is stored. */
  function Key(o: Originator): string {
    KeyPrefix + o.identifier
  }

  /** Two originators share a key exactly when they share an identifier. */
  lemma KeyInjective(o: Originator, p: Originator)
    ensures Key(o) == Key(p) <==> o.identifier == p.identifier
  {
    if Key(o) == Key(p) {
      assert o.identifier == Key(o)[|KeyPrefix|..];
      assert p.identifier == Key(p)[|KeyPrefix|..];
    }
  }

  /** The date-valued entries of the defaults store; a key that is absent reads as nil. */
  type Defaults = map<string, int>

  /** `lastHistoryTransactionTimestamp(for:)`. */
  function LastTimestamp(d: Defaults, o: Originator): Option<int> {
    if Key(o) in d then Some(d[Key(o)]) else None
  }

  /** The entries after `updateLastHistoryTransactionTimestamp(for: o, to: v)`; storing nil removes the key. */
  function WithTimestamp(d: Defaults, o: Originator, v: Option<int>): Defaults {
    match v
    case Some(ts) => d[Key(o) := ts]
    case None => d - {Key(o)}
  }

  /** Reading after a write returns the written value for that originator and the old value
      for every originator with another identifier. */
  lemma ReadAfterWrite(d: Defaults, o: Originator, v: Option<int>, p: Originator)
    ensures LastTimestamp(WithTimestamp(d, o, v), p) ==
            if p.identifier == o.identifier then v else LastTimestamp(d, p)
  {
    KeyInjective(o, p);
  }

  /** In a roster with distinct identifiers, writing one member's watermark leaves every other
      member's watermark as it was. */
  lemma RosterWatermarksIndependent(d: Defaults, roster: seq<Originator>, i: nat, v: Option<int>)
    requires DistinctIdentifiers(roster) && i < |roster|
    ensures LastTimestamp(WithTimestamp(d, roster[i], v), roster[i]) == v
    ensures forall j :: 0 <= j < |roster| && j != i ==>
              LastTimestamp(WithTimestamp(d, roster[i], v), roster[j]) == LastTimestamp(d, roster[j])
  {
    ReadAfterWrite(d, roster[i], v, roster[i]);
    forall j | 0 <= j < |roster| && j != i
      ensures LastTimestamp(WithTimestamp(d, roster[i], v), roster[j]) == LastTimestamp(d, roster[j])
    {
      ReadAfterWrite(d, roster[i], v, roster[j]);
    }
  }

  /** The smallest element (`Sequence.min()`), or None for an empty sequence. */
  function Minimum(s: seq<int>): (m: Option<int>)
    ensures m.None? <==> s == []
    ensures m.Some? ==> m.value in s && forall x :: x in s ==> m.value <= x
  {
    if s == [] then None
    else
      assert s == [s[0]] + s[1..];
      match Minimum(s[1..])
      case None => Some(s[0])
      case Some(r) => Some(if s[0] <= r then s[0] else r)
  }

  /** Every roster member's watermark, an absent one read as `distantPast`. */
  function WatermarksOf(d: Defaults, roster: seq<Originator>): seq<int> {
    seq(|roster|, i requires 0 <= i < |roster| => LastTimestamp(d, roster[i]).GetOr(DistantPast))
  }

  /** The originator has merged something: its watermark is present and later than `distantPast`. */
  predicate HasMerged(d: Defaults, o: Originator) {
    LastTimestamp(d, o).Some? && LastTimestamp(d, o).value > DistantPast
  }

  /** `lastCommonTransactionTimestamp(in:)`: the minimum watermark over the roster, read as
      nil when it is not later than `distantPast`. */
  function LastCommonTimestamp(d: Defaults, roster: seq<Originator>): Option<int> {
    var timestamp := Minimum(WatermarksOf(d, roster)).GetOr(DistantPast);
    if timestamp > DistantPast then Some(timestamp) else None
  }

  /** There is no common timestamp exactly when the roster is empty or some member has not
      merged anything; otherwise it is later than `distantPast`, no later than any member's
      watermark, and equal to one of them. */
  lemma CommonTimestampIsMinimum(d: Defaults, roster: seq<Originator>)
    ensures var common := LastCommonTimestamp(d, roster);
            common.None? <==> roster == [] || exists i :: 0 <= i < |roster| && !HasMerged(d, roster[i])
    ensures var common := LastCommonTimestamp(d, roster);
            common.Some? ==>
              && common.value > DistantPast
              && (forall i :: 0 <= i < |roster| ==>
                    LastTimestamp(d, roster[i]).Some? && common.value <= LastTimestamp(d, roster[i]).value)
              && (exists i :: 0 <= i < |roster| && LastTimestamp(d, roster[i]) == Some(common.value))
  {
    var ws := WatermarksOf(d, roster);
    var timestamp := Minimum(ws).GetOr(DistantPast);
    assert forall i :: 0 <= i < |roster| ==> ws[i] in ws && ws[i] == LastTimestamp(d, roster[i]).GetOr(DistantPast);
    assert roster != [] && timestamp <= DistantPast ==>
             exists i :: 0 <= i < |roster| && ws[i] == timestamp;
  }

  /** The keys of every roster member. */
  function RosterKeys(roster: seq<Originator>): set<string> {
    if roster == [] then {}
    else RosterKeys(roster[..|roster| - 1]) + {Key(roster[|roster| - 1])}
  }

  /** A key is a roster key exactly when some member of the roster is stored under it. */
  lemma {:induction false} RosterKeysExactly(roster: seq<Originator>)
    ensures forall k :: k in RosterKeys(roster) <==> exists i :: 0 <= i < |roster| && k == Key(roster[i])
  {
    if roster != [] {
      var init := roster[..|roster| - 1];
      RosterKeysExactly(init);
      assert forall i :: 0 <= i < |init| ==> init[i] == roster[i];
    }
  }

  /** The entries after every roster member's watermark has been set to nil. */
  function ResetWatermarks(d: Defaults, roster: seq<Originator>): Defaults {
    d - RosterKeys(roster)
  }

  /** After a reset every roster member reads nil; an originator outside the roster keeps its watermark. */
  lemma ResetClearsRoster(d: Defaults, roster: seq<Originator>, o: Originator)
    ensures LastTimestamp(ResetWatermarks(d, roster), o) ==
            if exists i :: 0 <= i < |roster| && roster[i].identifier == o.identifier then None
            else LastTimestamp(d, o)
  {
    RosterKeysExactly(roster);
    forall i | 0 <= i < |roster| ensures Key(roster[i]) == Key(o) <==> roster[i].identifier == o.identifier {
      KeyInjective(roster[i], o);
    }
  }

  /** Right after a reset there is no common timestamp, so the next prune is skipped until
      every member has merged again. */
  lemma NoCommonTimestampAfterReset(d: Defaults, roster: seq<Originator>)
    ensures LastCommonTimestamp(ResetWatermarks(d, roster), roster) == None
  {
    if roster != [] {
      ResetClearsRoster(d, roster, roster[0]);
      CommonTimestampIsMinimum(ResetWatermarks(d, roster), roster);
    }
  }

  /** The shared user-defaults store. */
  class UserDefaults {
    var entries: Defaults

    constructor ()
      ensures entries == map[]
    {
      entries := map[];
    }

    /** `updateLastHistoryTransactionTimestamp(for:to:)`. */
    method UpdateLastHistoryTransactionTimestamp(o: Originator, v: Option<int>)
      modifies this
      ensures entries == WithTimestamp(old(entries), o, v)
    {
      match v {
        case Some(ts) => entries := entries[Key(o) := ts];
        case None => entries := entries - {Key(o)};
      }
    }
  }
}
