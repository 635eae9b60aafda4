# Persistent-history merge and prune, modelled in Dafny

This project models the persistent-history processor of LSCocoa's Core Data layer. Several
originators share one persistent store. Typical originators are an iOS app and its watchOS
extension. Every save writes a transaction to the store's history. Each transaction carries an
author, a context name and a timestamp.

Each originator keeps a "last merged" timestamp, its watermark, in a shared user-defaults
store. The key is `lastHistoryTransactionTimeStamp-<identifier>`. On every remote-change
notification the processor runs one cycle:

- **merge**: fetch the history after its own watermark, leaving out its own author and its own
  context name. Hand each fetched transaction to the background context in order. Then move
  the watermark to the timestamp of the last one fetched.
- **clean**: take the minimum watermark over the whole roster. Skip when there is none. Otherwise
  delete the history strictly before it, then set every roster member's watermark to nil.

Construction refuses a roster in which two originators share an identifier.

Modules, one per component:

- `Wrappers` (`wrappers.dfy`): `Option` and `Result`.
- `Originators` (`originators.dfy`): the originator record and the identifier-count fact
  behind the construction check.
- `History` (`history.dfy`): transactions, the fetch request and its filter, the delete
  request, the "has user info" filter of `merge(into:)`, and the `HistoryStore` class that
  holds the shared log.
- `Watermarks` (`watermarks.dfy`): the `UserDefaults` class and the pure readers of the
  defaults: key, last timestamp, common timestamp and roster reset.
- `Processing` (`processor.dfy`): the `PersistentHistoryProcessor` class (`Setup`, `Fetch`,
  `MergeInto`, `Merge`, `Clean`, `Process`), the throwing initializer `New`, and lemmas about
  a merge and a prune.
- `Scenario` (`scenario.dfy`): a two-originator run, shown from the contracts alone. A phone and
  a watch share one store. The phone merges the watch's two transactions. A second phone cycle
  does nothing. The watch then merges the phone's transaction, which prunes the history before
  20 and resets both watermarks.

Modelling choices:

- Timestamps are integers: whole seconds relative to the Foundation reference date
  (2001-01-01). `Date.distantPast` is `DistantPast = -63114076800`, which is 0001-01-01.
- The defaults store is a `map<string, int>`. An absent key reads as nil. Storing nil removes
  the key.
- The history is a `seq<Transaction>` in ascending timestamp order. That order is the
  `HistoryStore` invariant. `HistoryStore.Record` stands in for Core Data's history tracking:
  a save appends a transaction whose timestamp is no earlier than any already logged.
- Applying a change is opaque. The processor's `merged` field records the transactions
  handed to the background context, in order.
- Four answers come from Core Data, so they are fields of a `CoreData` parameter:
  - `fetchRequestAvailable`: whether `NSPersistentHistoryTransaction.fetchRequest` exists
    (line 125). Without it the author and context-name filters are never attached.
  - `fetchThrows`: whether executing the fetch request throws. Its error passes through
    `fetch` and `merge` and is the one `process` logs; the model calls it `FetchRequestFailed`.
  - `castFails`: whether the fetch result fails to cast to a transaction list (line 115).
  - `deleteThrows`: whether the delete request throws (line 105).

  The error that `process` would log is returned as an `Outcome`.
- The background context is reduced to its `name` and `transactionAuthor`. `Setup` sets both
  to the originator's identifier. While it is nil, `process` does nothing.

Points where the code behaves differently from what one might expect, kept as the code has them:

- Calling `process` before setup is not rejected. It is a no-op (line 66).
- A failed fetch ends the whole cycle: `merge` and `clean` share one `do` block (lines 67-72),
  so clean is skipped after a merge error.
- Applying a transaction cannot fail. A transaction whose notification has no user info is
  skipped (line 152).
- When the transaction fetch request is unavailable (line 125), the fetch is the bare date
  bound. The processor then fetches and re-applies its own transactions, and its
  watermark moves to the newest transaction fetched, which may be its own
  (`UnfilteredMergeFetchesOwn`, `MergeAdvancesOwnWatermark`).
- When `clean` runs with no background context, the optional chain skips the delete but the
  watermarks are still reset (lines 105-110). `process` never reaches this case.

## Model

| member | source | states |
|---|---|---|
| Originators.Identifiers | Sources/LSCocoa/LSCoreData/PersistentHistoryProcessor/PersistentHistoryProcessor.swift:31 | an identifier is in the set exactly when some roster member carries it |
| Originators.IdentifierCount | Sources/LSCocoa/LSCoreData/PersistentHistoryProcessor/PersistentHistoryProcessor.swift:30-32 | the identifier set is never larger than the roster; it is exactly as large iff identifiers are pairwise distinct |
| Processing.RosterError | Sources/LSCocoa/LSCoreData/PersistentHistoryProcessor/PersistentHistoryProcessor.swift:29-34 | the check yields `identicalIdentifiers` exactly when two roster members share an identifier |
| Processing.New | Sources/LSCocoa/LSCoreData/PersistentHistoryProcessor/PersistentHistoryProcessor.swift:29-36 | construction fails with `identicalIdentifiers` iff the roster has a duplicate identifier; otherwise a fresh, valid, unconfigured processor with that config |
| Processing.PersistentHistoryProcessor.constructor | Sources/LSCocoa/LSCoreData/PersistentHistoryProcessor/PersistentHistoryProcessor.swift:35 | a processor over a duplicate-free roster starts with no background context and nothing merged |
| Processing.PersistentHistoryProcessor.Setup | Sources/LSCocoa/LSCoreData/PersistentHistoryProcessor/PersistentHistoryProcessor.swift:47-57 | afterwards the background context exists, named and authored by the current originator's identifier |
| History.FetchedExactly | Sources/LSCocoa/LSCoreData/PersistentHistoryProcessor/PersistentHistoryProcessor.swift:121-143 | a transaction is fetched iff it is in the log, strictly after the date, and differs from each author and context-name filter that is set |
| History.NothingMatchesNothingFetched | Sources/LSCocoa/LSCoreData/PersistentHistoryProcessor/PersistentHistoryProcessor.swift:121-143 | a request that no logged transaction matches fetches the empty history |
| History.FetchPreservesOrder | Sources/LSCocoa/LSCoreData/PersistentHistoryProcessor/PersistentHistoryProcessor.swift:121-123 | fetching from a timestamp-ordered log gives a timestamp-ordered history |
| History.RefetchFromLastIsEmpty | Sources/LSCocoa/LSCoreData/PersistentHistoryProcessor/PersistentHistoryProcessor.swift:77-93 | fetching again from the last fetched timestamp returns nothing |
| History.KeptExactly | Sources/LSCocoa/LSCoreData/PersistentHistoryProcessor/PersistentHistoryProcessor.swift:103-105 | a transaction survives the delete iff it was logged and is not strictly before the cut-off |
| History.DeleteRemovesPrefix | Sources/LSCocoa/LSCoreData/PersistentHistoryProcessor/PersistentHistoryProcessor.swift:103-105 | on an ordered log the delete removes exactly a prefix of transactions before the cut-off and keeps the rest in place |
| History.HistoryStore.ExecuteDelete | Sources/LSCocoa/LSCoreData/PersistentHistoryProcessor/PersistentHistoryProcessor.swift:105 | executing the delete request replaces the log by the kept transactions and keeps it ordered |
| History.AppliedExactly | Sources/LSCocoa/LSCoreData/PersistentHistoryProcessor/PersistentHistoryProcessor.swift:150-155 | a transaction is handed to the context iff it was fetched and its notification has user info |
| History.AllApplied | Sources/LSCocoa/LSCoreData/PersistentHistoryProcessor/PersistentHistoryProcessor.swift:150-155 | when every transaction has user info, all are applied in fetched order |
| Processing.PersistentHistoryProcessor.MergeInto | Sources/LSCocoa/LSCoreData/PersistentHistoryProcessor/PersistentHistoryProcessor.swift:150-155 | the applied sequence grows by exactly the transactions with user info, in the given order |
| Watermarks.KeyInjective | Sources/LSCocoa/LSCoreData/PersistentHistoryProcessor/PersistentHistoryProcessor.swift:160-167 | two originators share a defaults key iff they share an identifier |
| Watermarks.ReadAfterWrite | Sources/LSCocoa/LSCoreData/PersistentHistoryProcessor/PersistentHistoryProcessor.swift:160-168 | reading after a write gives the written value for that identifier and the old value for every other |
| Watermarks.RosterWatermarksIndependent | Sources/LSCocoa/LSCoreData/PersistentHistoryProcessor/PersistentHistoryProcessor.swift:165-168 | in a duplicate-free roster, writing one member's watermark leaves every other member's as it was |
| Watermarks.UserDefaults.UpdateLastHistoryTransactionTimestamp | Sources/LSCocoa/LSCoreData/PersistentHistoryProcessor/PersistentHistoryProcessor.swift:165-168 | the entry under the originator's key becomes the new date, or disappears for nil; nothing else changes |
| Watermarks.Minimum | Sources/LSCocoa/LSCoreData/PersistentHistoryProcessor/PersistentHistoryProcessor.swift:173 | None exactly for an empty sequence; otherwise an element no larger than any other |
| Watermarks.CommonTimestampIsMinimum | Sources/LSCocoa/LSCoreData/PersistentHistoryProcessor/PersistentHistoryProcessor.swift:170-175 | nil iff the roster is empty or some member's watermark is absent or not after `distantPast`; otherwise the minimum of all watermarks, later than `distantPast` |
| Watermarks.RosterKeysExactly | Sources/LSCocoa/LSCoreData/PersistentHistoryProcessor/PersistentHistoryProcessor.swift:107-110 | the keys reset are exactly the roster members' keys |
| Watermarks.ResetClearsRoster | Sources/LSCocoa/LSCoreData/PersistentHistoryProcessor/PersistentHistoryProcessor.swift:107-110 | after the reset every roster member reads nil, and an originator outside the roster keeps its watermark |
| Watermarks.NoCommonTimestampAfterReset | Sources/LSCocoa/LSCoreData/PersistentHistoryProcessor/PersistentHistoryProcessor.swift:107-110 | right after a reset there is no common timestamp, so the next clean deletes nothing until every member merges again |
| Processing.PersistentHistoryProcessor.Fetch | Sources/LSCocoa/LSCoreData/PersistentHistoryProcessor/PersistentHistoryProcessor.swift:113-119 | fails iff there is no context, executing the request throws, or the result does not cast; the thrown error is passed on, the other two give `historyTransactionConvertionFailed`; otherwise returns the history the request selects, filtered only when the transaction fetch request exists |
| Processing.MergeFetchesExactly | Sources/LSCocoa/LSCoreData/PersistentHistoryProcessor/PersistentHistoryProcessor.swift:77-78 | with the transaction fetch request available, a merge fetches exactly the logged transactions after the watermark (nil as `distantPast`) whose author and context name both differ from the originator's |
| Processing.UnfilteredMergeFetchesOwn | Sources/LSCocoa/LSCoreData/PersistentHistoryProcessor/PersistentHistoryProcessor.swift:121-142 | without the transaction fetch request, a merge fetches every logged transaction after the watermark, the originator's own included |
| Processing.MergeAdvancesOwnWatermark | Sources/LSCocoa/LSCoreData/PersistentHistoryProcessor/PersistentHistoryProcessor.swift:80-93 | an empty fetch leaves the defaults untouched; otherwise the own watermark becomes the newest fetched timestamp, later than before; no other originator's watermark changes |
| Processing.RemergeIsNoOp | Sources/LSCocoa/LSCoreData/PersistentHistoryProcessor/PersistentHistoryProcessor.swift:76-94 | a second merge over an unchanged log fetches nothing and leaves the watermark as the first left it |
| Processing.PruneKeepsUnmerged | Sources/LSCocoa/LSCoreData/PersistentHistoryProcessor/PersistentHistoryProcessor.swift:98-105 | no transaction at or after any roster member's watermark is deleted |
| Processing.PersistentHistoryProcessor.Merge | Sources/LSCocoa/LSCoreData/PersistentHistoryProcessor/PersistentHistoryProcessor.swift:76-94 | a fetch error (thrown, or a failed conversion) is reported and leaves everything unchanged; otherwise the fetched transactions with user info are applied in order and the defaults are the merged watermarks |
| Processing.PersistentHistoryProcessor.Clean | Sources/LSCocoa/LSCoreData/PersistentHistoryProcessor/PersistentHistoryProcessor.swift:97-111 | no common timestamp: nothing changes; a throwing delete: nothing changes; otherwise the log loses exactly the entries before the common timestamp and every roster watermark is reset |
| Processing.PersistentHistoryProcessor.ResetRosterWatermarks | Sources/LSCocoa/LSCoreData/PersistentHistoryProcessor/PersistentHistoryProcessor.swift:107-110 | setting each roster member's watermark to nil in turn leaves the defaults with every roster key removed and every other entry as it was |
| Processing.PersistentHistoryProcessor.Process | Sources/LSCocoa/LSCoreData/PersistentHistoryProcessor/PersistentHistoryProcessor.swift:65-74 | no context: no-op; a merge error skips clean; otherwise merge then clean, with clean computed on the watermarks the merge left |
| Scenario.PhoneMerges | Sources/LSCocoa/LSCoreData/PersistentHistoryProcessor/PersistentHistoryProcessor.swift:65-74 | a first phone cycle merges the watch's transactions at 10 and 20, sets the phone to 20 and prunes nothing |
| Scenario.PhoneRemerges | Sources/LSCocoa/LSCoreData/PersistentHistoryProcessor/PersistentHistoryProcessor.swift:65-74 | a second phone cycle over the unchanged log changes nothing |
| Scenario.WatchPrunes | Sources/LSCocoa/LSCoreData/PersistentHistoryProcessor/PersistentHistoryProcessor.swift:65-74 | the watch merges only the phone's transaction, prunes the one at 10 and resets both watermarks |

## Left out

- Processing.RosterError: identifiers are compared as sequences of code points. Swift's `String` equality, and so the `Set` at line 31, identifies canonically equivalent strings. A roster whose identifiers differ only in Unicode normalisation (`"caf\u{E9}"` and `"cafe\u{301}"`) is therefore refused by the source and accepted by the model. Every roster the source accepts, the model accepts too.
- Processing.New: for the same reason, construction succeeds on a roster whose identifiers differ only in Unicode normalisation, where the source throws `identicalIdentifiers`.
- `addStoreDescriptions` (history tracking and remote-change options on the store description): store configuration with no protocol logic.
- `startObserving` and the notification-centre registration: the signal is modelled as a direct call to `Process`.
- `performAndWait`: a threading primitive; cycles are sequential method calls.
- Naming the main context in `setup` (lines 51-52): it stamps the originator's own main-context saves with its identifier as author and context name. The model does not follow individual contexts' saves; it takes the author and context-name stamps of the logged transactions as given.
- `NSManagedObjectContext.mergeChanges(fromRemoteContextSave:into:)` and `objectIDNotification()`: opaque Core Data calls, modelled as appending the transaction to `merged`.
- The reason a fetch result fails to cast, and which Core Data error executing the fetch throws: only the failures themselves are modelled, as `castFails` and as `fetchThrows` reported as `FetchRequestFailed`.
- The logging lines (`print`): observability only.
- Sub-second `Date` precision: timestamps are whole seconds, and `HistoryStore.Record` allows a transaction with the same timestamp as the last one logged. Because a fetch is strictly after the watermark, a transaction logged in the same second as an originator's watermark, after that originator merged, is never fetched by it. With the source's sub-second dates such a tie is unlikely but not excluded.
- The author and context-name filters: assumed to keep a transaction that has no author or no context name, as an in-memory `!=` predicate does. The SQL translation Core Data uses is not modelled.
- `LSCoreDataStack.swift` (container loading, `fatalError` on load, context-to-context merging on save) and `Package.swift`: framework wiring and the build manifest.
- Other processes running their own cycles at the same moment: interleavings are not modelled. The scenario runs two processors one after the other on shared state.
