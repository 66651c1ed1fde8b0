/** What an answer shows, told by the rows alone (league/auditor.py `_scan_outcomes`): the last outcomes, each
    by the latest row of its order or refusal, with the latest submission error any row of that order told. */
module OutcomeLaws {
  import opened Wrappers
  import opened Outcomes

  /** A refusal of the agent's, or an order it has a share of, on the book. */
  predicate Tells(e: Entry, agent: Option<Name>, book: Name) {
    e.book == book &&
    ((e.kind.Refused? && e.agent == agent) ||
     (e.kind.Ordered? && exists j :: 0 <= j < |e.kind.shares| && e.kind.shares[j] == Of(agent)))
  }

  /** An order by its venue's id; a refusal by its intent's, or its own where it names none. */
  predicate IsOf(e: Entry, key: Key) {
    match e.kind
    case Ordered(order, _, _, _) => key == Venue(order)
    case Refused(Some(intent), _) => key == Intent(if intent.text == "" then e.id else intent)
    case Refused(None, _) => key == Intent(e.id)
    case Unrelated => false
  }

  /** Why a submission failed, where the venue's answer to the order was never seen and the row says why. */
  function Failure(e: Entry): Option<Name> {
    match e.kind
    case Ordered(_, Unknown, Some(reason), _) => if reason.text == "" then None else Some(reason)
    case _ => None
  }

  /** Row `n` is the latest of what `key` names. */
  ghost predicate Latest(log: seq<Entry>, n: nat, agent: Option<Name>, book: Name, key: Key) {
    n < |log| && Tells(log[n], agent, book) && IsOf(log[n], key) &&
    forall m :: n < m < |log| && Tells(log[m], agent, book) ==> !IsOf(log[m], key)
  }

  /** The reason of the latest row of `key` that told of a failed submission, None where none did. */
  ghost predicate ErrorIs(error: Option<Name>, log: seq<Entry>, agent: Option<Name>, book: Name, key: Key) {
    match error
    case None =>
      forall m :: 0 <= m < |log| && Tells(log[m], agent, book) && IsOf(log[m], key) ==> Failure(log[m]).None?
    case Some(reason) => exists n :: FailedAt(log, n, agent, book, key, reason)
  }

  ghost predicate FailedAt(log: seq<Entry>, n: int, agent: Option<Name>, book: Name, key: Key, reason: Name) {
    0 <= n < |log| && Tells(log[n], agent, book) && IsOf(log[n], key) && Failure(log[n]) == Some(reason) &&
    forall m :: n < m < |log| && Tells(log[m], agent, book) && IsOf(log[m], key) ==> Failure(log[m]).None?
  }

  /** An item shows row `n`, and its order's latest error. */
  ghost predicate Shows(item: Item, log: seq<Entry>, n: nat, agent: Option<Name>, book: Name)
    requires n < |log|
  {
    item.outcome.at == log[n].at && item.outcome.detail == log[n].detail &&
    match log[n].kind
    case Refused(_, reasons) => item.outcome.Refusal? && item.outcome.reasons == reasons
    case Ordered(_, status, reason, _) =>
      item.outcome.Order? && item.outcome.status == status && item.outcome.reason == reason &&
      ErrorIs(item.outcome.error, log, agent, book, item.key)
    case Unrelated => false
  }

  lemma AboutIs(e: Entry, agent: Option<Name>, book: Name, key: Key)
    ensures About(e, agent, book, key) <==> Tells(e, agent, book) && IsOf(e, key)
    ensures Concerns(e, agent, book) ==> !e.kind.Unrelated? && IsOf(e, KeyOf(e))
    ensures Failure(e) == if Errs(e) then e.kind.reason else None
  {}

  lemma {:induction false} LastMovedIs(log: seq<Entry>, agent: Option<Name>, book: Name, key: Key)
    ensures var n := LastMoved(log, agent, book, key);
            if n > 0 then Latest(log, n - 1, agent, book, key)
            else forall m :: 0 <= m < |log| && Tells(log[m], agent, book) ==> !IsOf(log[m], key)
  {
    hide Tells, IsOf, Concerns;
    if log != [] {
      LastMovedIs(log[..|log| - 1], agent, book, key);
      AboutIs(log[|log| - 1], agent, book, key);
    }
  }

  lemma {:induction false} LastErrorIs(log: seq<Entry>, agent: Option<Name>, book: Name, key: Key)
    ensures ErrorIs(LastError(log, agent, book, key), log, agent, book, key)
  {
    hide Tells, IsOf, Concerns, Failure, Errs;
    if log != [] {
      var front, e := log[..|log| - 1], log[|log| - 1];
      LastErrorIs(front, agent, book, key);
      AboutIs(e, agent, book, key);
      var error := LastError(log, agent, book, key);
      if About(e, agent, book, key) && Errs(e) {
        FailsWhy(e);
        assert FailedAt(log, |log| - 1, agent, book, key, error.value);
      } else if error.Some? {
        var n :| FailedAt(front, n, agent, book, key, error.value);
        assert log[n] == front[n];
        assert FailedAt(log, n, agent, book, key, error.value);
      }
    }
  }

  lemma FailsWhy(e: Entry)
    requires Errs(e)
    ensures e.kind.Ordered? && e.kind.reason.Some? && Failure(e) == e.kind.reason
  {}

  /** Each outcome of the scan is its subject's latest row, in the order of those rows, and every row told is
      some outcome's subject. */
  lemma ScanShows(log: seq<Entry>, agent: Option<Name>, book: Name)
    ensures var all := Scan(log, agent, book);
            (forall i :: 0 <= i < |all| ==>
                           var n := LastMoved(log, agent, book, all[i].key);
                           n > 0 && Latest(log, n - 1, agent, book, all[i].key) &&
                           Shows(all[i], log, n - 1, agent, book)) &&
            (forall i, j :: 0 <= i < j < |all| ==>
                              LastMoved(log, agent, book, all[i].key) < LastMoved(log, agent, book, all[j].key)) &&
            (forall m :: 0 <= m < |log| && Tells(log[m], agent, book) ==>
                           exists i :: 0 <= i < |all| && IsOf(log[m], all[i].key))
  {
    hide Tells, IsOf, Concerns, Failure, Errs, LastMoved, LastError, Scan;
    ScanMeans(log, agent, book);
    var all := Scan(log, agent, book);
    forall i | 0 <= i < |all|
      ensures var n := LastMoved(log, agent, book, all[i].key);
              n > 0 && Latest(log, n - 1, agent, book, all[i].key) && Shows(all[i], log, n - 1, agent, book)
    {
      assert IsLatest(all[i], log, agent, book);
      ItemShows(all[i], log, agent, book);
    }
    forall m | 0 <= m < |log| && Tells(log[m], agent, book)
      ensures exists i :: 0 <= i < |all| && IsOf(log[m], all[i].key)
    {
      ToldIsAbout(log[m], agent, book);
      var key := KeyOf(log[m]);
      LastMovedIs(log, agent, book, key);
      assert Has(all, key);
      var i :| 0 <= i < |all| && all[i].key == key;
      assert IsOf(log[m], all[i].key);
    }
  }

  lemma ToldIsAbout(e: Entry, agent: Option<Name>, book: Name)
    requires Tells(e, agent, book)
    ensures !e.kind.Unrelated? && IsOf(e, KeyOf(e))
  {
    AboutIs(e, agent, book, KeyOf(e));
  }

  lemma ItemShows(item: Item, log: seq<Entry>, agent: Option<Name>, book: Name)
    requires IsLatest(item, log, agent, book)
    ensures var n := LastMoved(log, agent, book, item.key);
            n > 0 && Latest(log, n - 1, agent, book, item.key) && Shows(item, log, n - 1, agent, book)
  {
    hide Tells, IsOf, Concerns, LastMoved, LastError, About;
    var n := LastMoved(log, agent, book, item.key);
    LastMovedIs(log, agent, book, item.key);
    LatestIsVenue(log, agent, book, item.key);
    ErrorIsWithLast(log, agent, book, item.key);
    LastErrorIs(log, agent, book, item.key);
    AboutIs(log[n - 1], agent, book, item.key);
    hide ErrorIs;
  }

  /** An answer is the last `limit` of them, in their order; all of them where there are fewer, none where
      `limit` is nothing. */
  lemma AnswerIsTheLast(orders: Orders, limit: int)
    ensures limit <= 0 ==> Tail(orders, limit) == []
    ensures limit > 0 ==>
              var last := Tail(orders, limit);
              |last| == (if |orders| < limit then |orders| else limit) &&
              forall i :: 0 <= i < |last| ==> last[i] == orders[|orders| - |last| + i]
  {}
}
