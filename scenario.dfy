/** A two-originator run (an iOS app and its watchOS extension sharing one store and one
    defaults domain), derived from the contracts alone. */
module Scenario {
  import opened Wrappers
  import opened Originators
  import opened History
  import opened Watermarks
  import opened Processing

  const Phone := Originator("iOS")
  const Watch := Originator("watchOS")
  const T10 := Transaction(Some("watchOS"), Some("watchOS"), 10, Some(["a"]))
  const T20 := Transaction(Some("watchOS"), Some("watchOS"), 20, Some(["b"]))
  const T30 := Transaction(Some("iOS"), Some("iOS"), 30, Some(["c"]))

  /** Core Data behaving normally: the fetch request exists and nothing throws or fails to cast. */
  const Normal := CoreData(true, false, false, false)

  lemma DistinctKeys()
    ensures Phone.identifier != Watch.identifier && Key(Phone) != Key(Watch)
  {
    assert Phone.identifier[0] != Watch.identifier[0];
    KeyInjective(Phone, Watch);
  }

  /** The phone's first fetch returns both watch transactions, and both are applied. */
  lemma PhoneFetchesWatchHistory()
    ensures FetchHistory([T10, T20], MergeRequest(map[], Phone, true)) == [T10, T20]
    ensures WithUserInfo([T10, T20]) == [T10, T20]
    ensures MergedWatermarks(map[], Phone, [T10, T20]) == map[Key(Phone) := 20]
    ensures LastCommonTimestamp(map[Key(Phone) := 20], [Phone, Watch]) == None
  {
    DistinctKeys();
    var request := MergeRequest(map[], Phone, true);
    assert Matches(request, T10) && Matches(request, T20);
    assert [T10, T20][1..] == [T20];
    assert FetchHistory([T20], request) == [T20];
    AllApplied([T10, T20]);
    assert !HasMerged(map[Key(Phone) := 20], [Phone, Watch][1]);
    CommonTimestampIsMinimum(map[Key(Phone) := 20], [Phone, Watch]);
  }

  /** The watch's fetch after the phone saved at 30 returns only the phone's transaction. */
  lemma WatchFetchesPhoneTransaction()
    ensures FetchHistory([T10, T20, T30], MergeRequest(map[Key(Phone) := 20], Watch, true)) == [T30]
    ensures WithUserInfo([T30]) == [T30]
  {
    DistinctKeys();
    var request := MergeRequest(map[Key(Phone) := 20], Watch, true);
    assert request.after == DistantPast;
    assert !Matches(request, T10) && !Matches(request, T20) && Matches(request, T30);
    assert [T10, T20, T30][1..] == [T20, T30] && [T20, T30][1..] == [T30];
    assert FetchHistory([T30], request) == [T30];
    AllApplied([T30]);
  }

  /** With the phone at 20 and the watch at 30 the common timestamp is 20. */
  lemma CommonTimestampIsTwenty()
    ensures MergedWatermarks(map[Key(Phone) := 20], Watch, [T30]) == map[Key(Phone) := 20, Key(Watch) := 30]
    ensures LastCommonTimestamp(map[Key(Phone) := 20, Key(Watch) := 30], [Phone, Watch]) == Some(20)
  {
    DistinctKeys();
    var d := map[Key(Phone) := 20, Key(Watch) := 30];
    assert LastTimestamp(d, Phone) == Some(20) && LastTimestamp(d, Watch) == Some(30);
    assert [Phone, Watch][0] == Phone && [Phone, Watch][1] == Watch;
  }

  /** Pruning at 20 removes the transaction at 10 and resets both watermarks. */
  lemma PruneAtTwenty()
    ensures DeleteHistory([T10, T20, T30], 20) == [T20, T30]
    ensures ResetWatermarks(map[Key(Phone) := 20, Key(Watch) := 30], [Phone, Watch]) == map[]
  {
    assert [T10, T20, T30][1..] == [T20, T30] && [T20, T30][1..] == [T30];
    assert DeleteHistory([T30], 20) == [T30];
    var d := map[Key(Phone) := 20, Key(Watch) := 30];
    RosterKeysExactly([Phone, Watch]);
    assert Key([Phone, Watch][0]) in RosterKeys([Phone, Watch]);
    assert Key([Phone, Watch][1]) in RosterKeys([Phone, Watch]);
    assert ResetWatermarks(d, [Phone, Watch]).Keys == {};
  }

  /** A roster naming the same originator twice is refused. */
  method DuplicateRoster() {
    var defaults := new UserDefaults();
    var store := new HistoryStore();
    var roster := [Phone, Phone];
    assert roster[0].identifier == roster[1].identifier;
    var refused := New(Config(Phone, roster), defaults, store);
    assert refused == Failure(IdenticalIdentifiers);
  }

  /** Before setup, a cycle does nothing. */
  method UnconfiguredCycle() {
    var defaults := new UserDefaults();
    var store := new HistoryStore();
    DistinctKeys();
    var p := new PersistentHistoryProcessor(Config(Phone, [Phone, Watch]), defaults, store);
    store.Record(T10);
    var outcome := p.Process(Normal);
    assert outcome.Pass? && p.merged == [] && store.transactions == [T10] && defaults.entries == map[];
  }

  /** `p` is set up for originator `o` on the shared defaults and store, with the two-member roster. */
  ghost predicate SetUp(p: PersistentHistoryProcessor, o: Originator, defaults: UserDefaults, store: HistoryStore)
    reads p, p.store
  {
    && p.Valid()
    && p.config == Config(o, [Phone, Watch])
    && p.defaults == defaults && p.store == store
    && p.backgroundContext.Some?
  }

  /** The phone merges both watch transactions and moves its watermark to 20; the watch has
      no watermark yet, so nothing is pruned. */
  method PhoneMerges(p: PersistentHistoryProcessor, defaults: UserDefaults, store: HistoryStore)
    requires SetUp(p, Phone, defaults, store)
    requires p.merged == [] && defaults.entries == map[] && store.transactions == [T10, T20]
    modifies p, defaults, store
    ensures SetUp(p, Phone, defaults, store)
    ensures p.merged == [T10, T20] && defaults.entries == map[Key(Phone) := 20] && store.transactions == [T10, T20]
  {
    PhoneFetchesWatchHistory();
    var outcome := p.Process(Normal);
  }

  /** A second cycle on the phone over the unchanged log merges nothing and prunes nothing. */
  method PhoneRemerges(p: PersistentHistoryProcessor, defaults: UserDefaults, store: HistoryStore)
    requires SetUp(p, Phone, defaults, store)
    requires p.merged == [T10, T20] && defaults.entries == map[Key(Phone) := 20] && store.transactions == [T10, T20]
    modifies p, defaults, store
    ensures SetUp(p, Phone, defaults, store)
    ensures p.merged == [T10, T20] && defaults.entries == map[Key(Phone) := 20] && store.transactions == [T10, T20]
  {
    PhoneFetchesWatchHistory();
    RemergeIsNoOp(map[], Phone, [T10, T20], true);
    var outcome := p.Process(Normal);
  }

  /** After the phone saved at 30, the watch merges that transaction (its own are excluded),
      which gives a common timestamp of 20: the transaction at 10 is pruned and both
      watermarks are reset. */
  method WatchPrunes(w: PersistentHistoryProcessor, defaults: UserDefaults, store: HistoryStore)
    requires SetUp(w, Watch, defaults, store)
    requires w.merged == [] && defaults.entries == map[Key(Phone) := 20] && store.transactions == [T10, T20, T30]
    modifies w, defaults, store
    ensures SetUp(w, Watch, defaults, store)
    ensures w.merged == [T30] && defaults.entries == map[] && store.transactions == [T20, T30]
  {
    WatchFetchesPhoneTransaction();
    assert w.config.currentOriginator == Watch && w.config.allOriginators == [Phone, Watch];
    var outcome := w.Process(Normal);
    assert w.merged == [T30];
    CommonTimestampIsTwenty();
    assert defaults.entries == ResetWatermarks(map[Key(Phone) := 20, Key(Watch) := 30], [Phone, Watch]);
    PruneAtTwenty();
  }


  method TwoOriginators() {
    var defaults := new UserDefaults();
    var store := new HistoryStore();
    DistinctKeys();
    var p := new PersistentHistoryProcessor(Config(Phone, [Phone, Watch]), defaults, store);
    var w := new PersistentHistoryProcessor(Config(Watch, [Phone, Watch]), defaults, store);
    p.Setup();
    w.Setup();
    store.Record(T10);
    store.Record(T20);
    PhoneMerges(p, defaults, store);
    PhoneRemerges(p, defaults, store);
    store.Record(T30);
    WatchPrunes(w, defaults, store);
    assert LastTimestamp(defaults.entries, Phone) == None && LastTimestamp(defaults.entries, Watch) == None;
  }
}
