/** The persistent-history processor: merges other originators' transactions into this
    originator's background context and prunes history every originator has merged. */
module Processing {
  import opened Wrappers
  import opened Originators
  import opened History
  import opened Watermarks

  datatype Error =
    | IdenticalIdentifiers
    | HistoryTransactionConversionFailed
    | FetchRequestFailed   // an error thrown by the store while executing the fetch request
    | DeleteRequestFailed  // an error thrown by the store while executing the delete request

  /** How a step ended: normally, or with the error that would be logged. */
  datatype Outcome = Pass | Fail(error: Error)

  /** What Core Data answers on the calls whose workings the processor does not see: whether
      `NSPersistentHistoryTransaction.fetchRequest` exists (so that the author and context-name
      filters can be attached), whether executing the fetch request throws, whether its result
      fails to cast to a transaction list, and whether executing the delete request throws. */
  datatype CoreData = CoreData(
    fetchRequestAvailable: bool,
    fetchThrows: bool,
    castFails: bool,
    deleteThrows: bool)

  /** The processor's configuration: the current originator and its `allOrignators` roster. */
  datatype Config = Config(currentOriginator: Originator, allOriginators: seq<Originator>)

  /** The parts of the background context the processor reads: its name and transaction author. */
  datatype BackgroundContext = BackgroundContext(name: Option<string>, transactionAuthor: Option<string>)

  /** A background context after `setup`: both name and author are the originator's identifier. */
  function ConfiguredContext(o: Originator): BackgroundContext {
    BackgroundContext(Some(o.identifier), Some(o.identifier))
  }

  /** The roster check of `init(config:)`. */
  function RosterError(roster: seq<Originator>): (e: Option<Error>)
    ensures e.Some? <==> !DistinctIdentifiers(roster)
    ensures e.Some? ==> e.value == IdenticalIdentifiers
  {
    IdentifierCount(roster);
    if |Identifiers(roster)| != |roster| then Some(IdenticalIdentifiers) else None
  }

  /** `createFetchRequest(fromDate:)`: the date bound, and, when the transaction fetch request
      is available, an author and a context-name filter for each of the context's author and
      name that is set. Without it the request is the bare date bound. */
  function CreateFetchRequest(fromDate: int, context: Option<BackgroundContext>, fetchRequestAvailable: bool): FetchRequest {
    match context
    case None => FetchRequest(fromDate, None, None)
    case Some(c) =>
      if fetchRequestAvailable then FetchRequest(fromDate, c.transactionAuthor, c.name)
      else FetchRequest(fromDate, None, None)
  }

  /** The request a configured processor for `o` issues when the defaults hold `d`:
      after `o`'s watermark, an absent one read as `distantPast`. */
  function MergeRequest(d: Defaults, o: Originator, fetchRequestAvailable: bool): FetchRequest {
    CreateFetchRequest(LastTimestamp(d, o).GetOr(DistantPast), Some(ConfiguredContext(o)), fetchRequestAvailable)
  }

  /** The defaults after a merge that fetched `fetched`: untouched when nothing was fetched,
      otherwise `o`'s watermark set to the last fetched timestamp. */
  function MergedWatermarks(d: Defaults, o: Originator, fetched: seq<Transaction>): Defaults {
    if fetched == [] then d else WithTimestamp(d, o, Some(fetched[|fetched| - 1].timestamp))
  }

  /** A merge fetches exactly the log's transactions after the watermark that neither carry the
      originator's author nor its context name. */
  lemma {:induction false} MergeFetchesExactly(d: Defaults, o: Originator, log: seq<Transaction>)
    ensures forall t :: t in FetchHistory(log, MergeRequest(d, o, true)) <==>
              && t in log
              && t.timestamp > LastTimestamp(d, o).GetOr(DistantPast)
              && t.author != Some(o.identifier)
              && t.contextName != Some(o.identifier)
  {
    FetchedExactly(log, MergeRequest(d, o, true));
  }

  /** Without the transaction fetch request there is no filter: a merge fetches every logged
      transaction after the watermark, the originator's own included. */
  lemma {:induction false} UnfilteredMergeFetchesOwn(d: Defaults, o: Originator, log: seq<Transaction>)
    ensures forall t :: t in FetchHistory(log, MergeRequest(d, o, false)) <==>
              t in log && t.timestamp > LastTimestamp(d, o).GetOr(DistantPast)
  {
    FetchedExactly(log, MergeRequest(d, o, false));
  }

  /** The watermark moves only on a non-empty fetch, then to the newest fetched timestamp, which
      is later than the old watermark; no other originator's watermark changes. */
  lemma {:induction false} MergeAdvancesOwnWatermark(d: Defaults, o: Originator, log: seq<Transaction>, fetchRequestAvailable: bool)
    requires Sorted(log)
    ensures var fetched := FetchHistory(log, MergeRequest(d, o, fetchRequestAvailable));
            var after := MergedWatermarks(d, o, fetched);
            && (fetched == [] ==> after == d)
            && (fetched != [] ==>
                  && LastTimestamp(after, o) == Some(fetched[|fetched| - 1].timestamp)
                  && fetched[|fetched| - 1].timestamp > LastTimestamp(d, o).GetOr(DistantPast)
                  && forall t :: t in fetched ==> t.timestamp <= fetched[|fetched| - 1].timestamp)
            && forall p: Originator :: p.identifier != o.identifier ==> LastTimestamp(after, p) == LastTimestamp(d, p)
  {
    var fetched := FetchHistory(log, MergeRequest(d, o, fetchRequestAvailable));
    if fetched != [] {
      FetchPreservesOrder(log, MergeRequest(d, o, fetchRequestAvailable));
      FetchedExactly(log, MergeRequest(d, o, fetchRequestAvailable));
      LastIsLatest(fetched);
      assert fetched[|fetched| - 1] in fetched;
      var v := Some(fetched[|fetched| - 1].timestamp);
      ReadAfterWrite(d, o, v, o);
      forall p: Originator | p.identifier != o.identifier
        ensures LastTimestamp(WithTimestamp(d, o, v), p) == LastTimestamp(d, p)
      {
        ReadAfterWrite(d, o, v, p);
      }
    }
  }

  /** Merging twice over an unchanged log: the second fetch is empty, so the second merge
      applies nothing and leaves the watermark where the first one put it. */
  lemma {:induction false} RemergeIsNoOp(d: Defaults, o: Originator, log: seq<Transaction>, fetchRequestAvailable: bool)
    requires Sorted(log)
    ensures var after := MergedWatermarks(d, o, FetchHistory(log, MergeRequest(d, o, fetchRequestAvailable)));
            && FetchHistory(log, MergeRequest(after, o, fetchRequestAvailable)) == []
            && MergedWatermarks(after, o, FetchHistory(log, MergeRequest(after, o, fetchRequestAvailable))) == after
  {
    var request := MergeRequest(d, o, fetchRequestAvailable);
    var fetched := FetchHistory(log, request);
    if fetched != [] {
      var latest := fetched[|fetched| - 1].timestamp;
      ReadAfterWrite(d, o, Some(latest), o);
      assert MergeRequest(MergedWatermarks(d, o, fetched), o, fetchRequestAvailable) == request.(after := latest);
      RefetchFromLastIsEmpty(log, request);
    }
  }

  /** A prune never removes a transaction at or after any roster member's watermark. */
  lemma {:induction false} PruneKeepsUnmerged(d: Defaults, roster: seq<Originator>, log: seq<Transaction>)
    requires LastCommonTimestamp(d, roster).Some?
    ensures forall i, t ::
              && 0 <= i < |roster| && t in log
              && LastTimestamp(d, roster[i]).Some? && t.timestamp >= LastTimestamp(d, roster[i]).value ==>
              t in DeleteHistory(log, LastCommonTimestamp(d, roster).value)
  {
    CommonTimestampIsMinimum(d, roster);
    KeptExactly(log, LastCommonTimestamp(d, roster).value);
  }

  class PersistentHistoryProcessor {
    const config: Config
    const defaults: UserDefaults
    const store: HistoryStore
    /** The context set by `setup`; while it is nil, `process` does nothing. */
    var backgroundContext: Option<BackgroundContext>
    /** The transactions merged into the background context, in the order they were merged. */
    var merged: seq<Transaction>

    ghost predicate Valid()
      reads this, store
    {
      && DistinctIdentifiers(config.allOriginators)
      && store.Valid()
      && (backgroundContext.Some? ==> backgroundContext.value == ConfiguredContext(config.currentOriginator))
    }

    /** The part of `init(config:)` after the roster check; `New` performs the check. */
    constructor (config: Config, defaults: UserDefaults, store: HistoryStore)
      requires DistinctIdentifiers(config.allOriginators) && store.Valid()
      ensures Valid()
      ensures this.config == config && this.defaults == defaults && this.store == store
      ensures backgroundContext.None? && merged == []
    {
      this.config := config;
      this.defaults := defaults;
      this.store := store;
      backgroundContext := None;
      merged := [];
    }

    /** `setup`: names the background context and sets its transaction author to the originator's identifier. */
    method Setup()
      requires Valid()
      modifies this`backgroundContext
      ensures Valid()
      ensures backgroundContext == Some(ConfiguredContext(config.currentOriginator))
    {
      backgroundContext := Some(ConfiguredContext(config.currentOriginator));
    }

    /** `fetch(fromDate:)`: the error executing the request throws passes through; with no
        context to execute it, or a result that is not a transaction list, the conversion fails. */
    method Fetch(fromDate: int, env: CoreData) returns (r: Result<seq<Transaction>, Error>)
      ensures r.Failure? <==> backgroundContext.None? || env.fetchThrows || env.castFails
      ensures r.Failure? ==>
                r.error == if backgroundContext.Some? && env.fetchThrows then FetchRequestFailed
                           else HistoryTransactionConversionFailed
      ensures r.Success? ==>
                r.value == FetchHistory(store.transactions, CreateFetchRequest(fromDate, backgroundContext, env.fetchRequestAvailable))
    {
      var request := CreateFetchRequest(fromDate, backgroundContext, env.fetchRequestAvailable);
      if backgroundContext.None? {
        return Failure(HistoryTransactionConversionFailed);
      }
      if env.fetchThrows {
        return Failure(FetchRequestFailed);
      }
      if env.castFails {
        return Failure(HistoryTransactionConversionFailed);
      }
      return Success(FetchHistory(store.transactions, request));
    }

    /** `Collection.merge(into:)`: hands each transaction, in order, to the context, skipping those
        whose notification has no user-info dictionary. */
    method MergeInto(history: seq<Transaction>)
      modifies this`merged
      ensures merged == old(merged) + WithUserInfo(history)
    {
      var i := 0;
      while i < |history|
        invariant 0 <= i <= |history|
        invariant merged == old(merged) + WithUserInfo(history[..i])
      {
        assert history[..i + 1][..i] == history[..i];
        if history[i].userInfo.Some? {
          merged := merged + [history[i]];
        }
        i := i + 1;
      }
      assert history[..i] == history;
    }

    /** `merge()`: fetch after the own watermark, apply in order, then advance the own watermark. */
    method Merge(env: CoreData) returns (outcome: Outcome)
      requires Valid()
      modifies this`merged, defaults
      ensures Valid()
      ensures outcome.Fail? <==> backgroundContext.None? || env.fetchThrows || env.castFails
      ensures outcome.Fail? ==>
                && outcome.error == (if backgroundContext.Some? && env.fetchThrows then FetchRequestFailed
                                     else HistoryTransactionConversionFailed)
                && merged == old(merged)
                && defaults.entries == old(defaults.entries)
      ensures outcome.Pass? ==>
                var fetched := FetchHistory(store.transactions,
                                            MergeRequest(old(defaults.entries), config.currentOriginator, env.fetchRequestAvailable));
                && merged == old(merged) + WithUserInfo(fetched)
                && defaults.entries == MergedWatermarks(old(defaults.entries), config.currentOriginator, fetched)
    {
      var fromDate := LastTimestamp(defaults.entries, config.currentOriginator).GetOr(DistantPast);
      var fetched := Fetch(fromDate, env);
      if fetched.Failure? {
        return Fail(fetched.error);
      }
      var history := fetched.value;
      if history == [] {
        return Pass;
      }
      if backgroundContext.Some? {
        MergeInto(history);
      }
      defaults.UpdateLastHistoryTransactionTimestamp(config.currentOriginator, Some(history[|history| - 1].timestamp));
      return Pass;
    }

    /** `clean()`: delete the history before the common timestamp, then reset every roster
        member's watermark. */
    method Clean(deleteThrows: bool) returns (outcome: Outcome)
      requires Valid()
      modifies defaults, store
      ensures Valid()
      ensures var common := LastCommonTimestamp(old(defaults.entries), config.allOriginators);
              && (common.None? ==>
                    && outcome.Pass?
                    && defaults.entries == old(defaults.entries)
                    && store.transactions == old(store.transactions))
              && (common.Some? && backgroundContext.Some? && deleteThrows ==>
                    && outcome == Fail(DeleteRequestFailed)
                    && defaults.entries == old(defaults.entries)
                    && store.transactions == old(store.transactions))
              && (common.Some? && !(backgroundContext.Some? && deleteThrows) ==>
                    && outcome.Pass?
                    && defaults.entries == ResetWatermarks(old(defaults.entries), config.allOriginators)
                    && store.transactions ==
                         if backgroundContext.Some? then DeleteHistory(old(store.transactions), common.value)
                         else old(store.transactions))
    {
      var common := LastCommonTimestamp(defaults.entries, config.allOriginators);
      if common.None? {
        return Pass;
      }
      if backgroundContext.Some? {
        if deleteThrows {
          return Fail(DeleteRequestFailed);
        }
        store.ExecuteDelete(common.value);
      }
      ResetRosterWatermarks();
      return Pass;
    }

    /** The `forEach` of `clean()`: sets every roster member's watermark to nil, one at a time. */
    method ResetRosterWatermarks()
      modifies defaults
      ensures defaults.entries == ResetWatermarks(old(defaults.entries), config.allOriginators)
    {
      var roster := config.allOriginators;
      var i := 0;
      while i < |roster|
        invariant 0 <= i <= |roster|
        invariant defaults.entries == old(defaults.entries) - RosterKeys(roster[..i])
      {
        assert roster[..i + 1][..i] == roster[..i];
        defaults.UpdateLastHistoryTransactionTimestamp(roster[i], None);
        i := i + 1;
      }
      assert roster[..i] == roster;
    }

    /** `process(_:)`: with a context, merge and then clean; a merge error skips the clean. */
    method Process(env: CoreData) returns (outcome: Outcome)
      requires Valid()
      modifies this`merged, defaults, store
      ensures Valid()
      ensures backgroundContext.None? ==>
                && outcome.Pass?
                && merged == old(merged)
                && defaults.entries == old(defaults.entries)
                && store.transactions == old(store.transactions)
      ensures backgroundContext.Some? && (env.fetchThrows || env.castFails) ==>
                && outcome == Fail(if env.fetchThrows then FetchRequestFailed else HistoryTransactionConversionFailed)
                && merged == old(merged)
                && defaults.entries == old(defaults.entries)
                && store.transactions == old(store.transactions)
      ensures backgroundContext.Some? && !env.fetchThrows && !env.castFails ==>
                var fetched := FetchHistory(old(store.transactions),
                                            MergeRequest(old(defaults.entries), config.currentOriginator, env.fetchRequestAvailable));
                var afterMerge := MergedWatermarks(old(defaults.entries), config.currentOriginator, fetched);
                var common := LastCommonTimestamp(afterMerge, config.allOriginators);
                && merged == old(merged) + WithUserInfo(fetched)
                && (common.None? ==>
                      && outcome.Pass?
                      && defaults.entries == afterMerge
                      && store.transactions == old(store.transactions))
                && (common.Some? && env.deleteThrows ==>
                      && outcome == Fail(DeleteRequestFailed)
                      && defaults.entries == afterMerge
                      && store.transactions == old(store.transactions))
                && (common.Some? && !env.deleteThrows ==>
                      && outcome.Pass?
                      && defaults.entries == ResetWatermarks(afterMerge, config.allOriginators)
                      && store.transactions == DeleteHistory(old(store.transactions), common.value))
    {
      if backgroundContext.None? {
        return Pass;
      }
      outcome := Merge(env);
      if outcome.Fail? {
        return;
      }
      outcome := Clean(env.deleteThrows);
    }
  }

  /** `init(config:)`: refuses a roster in which two originators share an identifier. */
  method New(config: Config, defaults: UserDefaults, store: HistoryStore)
    returns (r: Result<PersistentHistoryProcessor, Error>)
    requires store.Valid()
    ensures r.Failure? <==> !DistinctIdentifiers(config.allOriginators)
    ensures r.Failure? ==> r.error == IdenticalIdentifiers
    ensures r.Success? ==>
              && fresh(r.value) && r.value.Valid()
              && r.value.config == config && r.value.defaults == defaults && r.value.store == store
              && r.value.backgroundContext.None? && r.value.merged == []
  {
    var e := RosterError(config.allOriginators);
    if e.Some? {
      return Failure(e.value);
    }
    var processor := new PersistentHistoryProcessor(config, defaults, store);
    return Success(processor);
  }
}
