/** The shared persistent history: transactions, the fetch and delete requests run against it,
    and the store object that holds it. */
module History {
  import opened Wrappers

  /** The object identifiers a transaction's change notification names; the protocol never looks inside. */
  type Payload = seq<string>

  /** One persistent-history transaction. Timestamps are whole seconds relative to the
      Foundation reference date. `userInfo` is the user-info dictionary of the transaction's
      object-ID notification, absent when the notification carries none. */
  datatype Transaction = Transaction(
    author: Option<string>,
    contextName: Option<string>,
    timestamp: int,
    userInfo: Option<Payload>)

  /** Transactions are kept in ascending timestamp order. */
  ghost predicate Sorted(log: seq<Transaction>) {
    forall i, j :: 0 <= i < j < |log| ==> log[i].timestamp <= log[j].timestamp
  }

  /** A history fetch request: transactions strictly after `after`, leaving out the given author
      and the given context name when they are set. */
  datatype FetchRequest = FetchRequest(
    after: int,
    excludedAuthor: Option<string>,
    excludedContextName: Option<string>)

  /** The request's compound predicate, plus its date bound. A transaction without an author
      (or context name) is not equal to any author (name), so such a filter keeps it. */
  predicate Matches(request: FetchRequest, t: Transaction) {
    && t.timestamp > request.after
    && (request.excludedAuthor.Some? ==> t.author != request.excludedAuthor)
    && (request.excludedContextName.Some? ==> t.contextName != request.excludedContextName)
  }

  /** The transactions a fetch request returns, in log order. */
  function FetchHistory(log: seq<Transaction>, request: FetchRequest): seq<Transaction> {
    if log == [] then []
    else (if Matches(request, log[0]) then [log[0]] else []) + FetchHistory(log[1..], request)
  }

  /** A transaction is fetched exactly when it is in the log and the request matches it. */
  lemma {:induction false} FetchedExactly(log: seq<Transaction>, request: FetchRequest)
    ensures forall t :: t in FetchHistory(log, request) <==> t in log && Matches(request, t)
  {
    if log != [] {
      FetchedExactly(log[1..], request);
      assert log == [log[0]] + log[1..];
    }
  }

  /** A request that no transaction of the log matches fetches nothing. */
  lemma {:induction false} NothingMatchesNothingFetched(log: seq<Transaction>, request: FetchRequest)
    requires forall t :: t in log ==> !Matches(request, t)
    ensures FetchHistory(log, request) == []
  {
    if log != [] {
      assert log[0] in log;
      assert forall t :: t in log[1..] ==> t in log;
      NothingMatchesNothingFetched(log[1..], request);
    }
  }

  /** Fetching from a sorted log yields a sorted result. */
  lemma {:induction false} FetchPreservesOrder(log: seq<Transaction>, request: FetchRequest)
    requires Sorted(log)
    ensures Sorted(FetchHistory(log, request))
  {
    if log != [] {
      var rest := FetchHistory(log[1..], request);
      FetchPreservesOrder(log[1..], request);
      FetchedExactly(log[1..], request);
      if Matches(request, log[0]) {
        var fetched := [log[0]] + rest;
        forall j | 0 < j < |fetched| ensures log[0].timestamp <= fetched[j].timestamp {
          assert fetched[j] == rest[j - 1] && rest[j - 1] in log[1..];
        }
      }
    }
  }

  /** The last element of a non-empty sorted sequence carries its largest timestamp. */
  lemma LastIsLatest(s: seq<Transaction>)
    requires Sorted(s) && s != []
    ensures forall t :: t in s ==> t.timestamp <= s[|s| - 1].timestamp
  {
  }

  /** Fetching again from the timestamp of the last transaction fetched finds nothing new:
      re-merging an unchanged log is a no-op. */
  lemma RefetchFromLastIsEmpty(log: seq<Transaction>, request: FetchRequest)
    requires Sorted(log)
    requires FetchHistory(log, request) != []
    ensures var fetched := FetchHistory(log, request);
            FetchHistory(log, request.(after := fetched[|fetched| - 1].timestamp)) == []
  {
    var fetched := FetchHistory(log, request);
    var again := FetchHistory(log, request.(after := fetched[|fetched| - 1].timestamp));
    FetchPreservesOrder(log, request);
    FetchedExactly(log, request);
    LastIsLatest(fetched);
    var later := request.(after := fetched[|fetched| - 1].timestamp);
    assert fetched[|fetched| - 1] in fetched;
    assert forall t :: t in log && Matches(later, t) ==> Matches(request, t);
    assert forall t :: t in log && Matches(request, t) ==> t.timestamp <= later.after;
    NothingMatchesNothingFetched(log, later);

  }

  /** The log left by a delete request: every transaction strictly before `before` is removed. */
  function DeleteHistory(log: seq<Transaction>, before: int): seq<Transaction> {
    if log == [] then []
    else (if log[0].timestamp < before then [] else [log[0]]) + DeleteHistory(log[1..], before)
  }

  /** A transaction survives a delete exactly when it is in the log and not before the cut-off. */
  lemma {:induction false} KeptExactly(log: seq<Transaction>, before: int)
    ensures forall t :: t in DeleteHistory(log, before) <==> t in log && t.timestamp >= before
  {
    if log != [] {
      KeptExactly(log[1..], before);
      assert log == [log[0]] + log[1..];
    }
  }

  /** On a sorted log a delete removes exactly a prefix, all of whose transactions are before
      the cut-off, and keeps the rest in place. */
  lemma {:induction false} DeleteRemovesPrefix(log: seq<Transaction>, before: int) returns (k: nat)
    requires Sorted(log)
    ensures k <= |log| && DeleteHistory(log, before) == log[k..]
    ensures forall i :: 0 <= i < k ==> log[i].timestamp < before
  {
    if log == [] {
      k := 0;
    } else {
      var rest := log[1..];
      var k' := DeleteRemovesPrefix(rest, before);
      if log[0].timestamp < before {
        k := k' + 1;
        assert rest[k'..] == log[k..];
      } else {
        assert k' == 0;
        k := 0;
        assert DeleteHistory(log, before) == [log[0]] + rest;
        assert [log[0]] + rest == log;
      }
    }
  }

  /** The transactions of `history` whose notification has a user-info dictionary, in order:
      those that `merge(into:)` hands to the context. */
  function WithUserInfo(history: seq<Transaction>): seq<Transaction> {
    if history == [] then []
    else
      var last := history[|history| - 1];
      WithUserInfo(history[..|history| - 1]) + (if last.userInfo.Some? then [last] else [])
  }

  /** A transaction is applied exactly when it is in the history and carries user info. */
  lemma {:induction false} AppliedExactly(history: seq<Transaction>)
    ensures forall t :: t in WithUserInfo(history) <==> t in history && t.userInfo.Some?
  {
    if history != [] {
      var init := history[..|history| - 1];
      AppliedExactly(init);
      assert history == init + [history[|history| - 1]];
    }
  }

  /** When every transaction carries a user-info dictionary, all of them are applied, in order. */
  lemma {:induction false} AllApplied(history: seq<Transaction>)
    requires forall t :: t in history ==> t.userInfo.Some?
    ensures WithUserInfo(history) == history
  {
    if history != [] {
      var init := history[..|history| - 1];
      AllApplied(init);
      assert init + [history[|history| - 1]] == history;
    }
  }

  /** The persistent store's history, shared by every originator. */
  class HistoryStore {
    var transactions: seq<Transaction>

    ghost predicate Valid()
      reads this
    {
      Sorted(transactions)
    }

    constructor ()
      ensures Valid() && transactions == []
    {
      transactions := [];
    }

    /** A save on any context appends one transaction, stamped no earlier than those already there. */
    method Record(t: Transaction)
      requires Valid()
      requires forall i :: 0 <= i < |transactions| ==> transactions[i].timestamp <= t.timestamp
      modifies this
      ensures Valid() && transactions == old(transactions) + [t]
    {
      transactions := transactions + [t];
    }

    /** Executes a delete-history request: the kept log is a suffix of the old one. */
    method ExecuteDelete(before: int)
      requires Valid()
      modifies this
      ensures Valid()
      ensures transactions == DeleteHistory(old(transactions), before)
    {
      var k := DeleteRemovesPrefix(transactions, before);
      transactions := DeleteHistory(transactions, before);
    }
  }
}
