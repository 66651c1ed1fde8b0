/** An agent's order outcomes on a book (league/auditor.py `_fold_outcome`, `_scan_outcomes`,
    `_OutcomeIndex`): the whole-ledger scan, what it means, and the index that must equal it. */
module Outcomes {
  import opened Wrappers

  datatype Status = Unknown | Known(status: Name)

  /** A share of an order; one that is no mapping is passed over. */
  datatype Share = Unreadable | Of(agent: Option<Name>)

  datatype Kind =
    | Refused(intent: Option<Name>, reasons: Name)
    | Ordered(order: Option<Name>, status: Status, reason: Option<Name>, shares: seq<Share>)
    | Unrelated

  /** `detail` stands for the instrument, side and quantity that are copied as they are. */
  datatype Entry = Entry(seqNo: int, id: Name, at: int, agent: Option<Name>, book: Name, detail: Name, kind: Kind)

  datatype Key = Intent(intent: Name) | Venue(order: Option<Name>)

  datatype Outcome =
    | Refusal(at: int, detail: Name, reasons: Name)
    | Order(at: int, detail: Name, status: Status, reason: Option<Name>, error: Option<Name>)

  datatype Item = Item(key: Key, outcome: Outcome)

  /** A dict that keeps insertion order. */
  type Orders = seq<Item>

  predicate Truthy(text: Option<Name>) {
    text.Some? && text.value.text != ""
  }

  function KeyOf(e: Entry): Key
    requires !e.kind.Unrelated?
  {
    match e.kind
    case Refused(intent, _) => Intent(if Truthy(intent) then intent.value else e.id)
    case Ordered(order, _, _, _) => Venue(order)
  }

  function Without(orders: Orders, key: Key): Orders {
    if orders == [] then []
    else
      var last := orders[|orders| - 1];
      Without(orders[..|orders| - 1], key) + if last.key == key then [] else [last]
  }

  function Lookup(orders: Orders, key: Key): Option<Outcome> {
    if orders == [] then None
    else if orders[|orders| - 1].key == key then Some(orders[|orders| - 1].outcome)
    else Lookup(orders[..|orders| - 1], key)
  }

  /** A submission error: the venue's answer was never seen, and the order carries why. */
  predicate Errs(e: Entry) {
    e.kind.Ordered? && e.kind.status == Unknown && Truthy(e.kind.reason)
  }

  function Carried(previous: Option<Outcome>): Option<Name> {
    if previous.Some? && previous.value.Order? && Truthy(previous.value.error) then previous.value.error else None
  }

  function OutcomeOf(e: Entry, carried: Option<Name>): Outcome
    requires !e.kind.Unrelated?
  {
    match e.kind
    case Refused(_, reasons) => Refusal(e.at, e.detail, reasons)
    case Ordered(_, status, reason, _) => Order(e.at, e.detail, status, reason, if Errs(e) then reason else carried)
  }

  /** One row into the outcomes: its key moves to the end. */
  function Fold(orders: Orders, e: Entry): Orders
    requires !e.kind.Unrelated?
  {
    Without(orders, KeyOf(e)) + [Item(KeyOf(e), OutcomeOf(e, Carried(Lookup(orders, KeyOf(e)))))]
  }

  /** The rows about an agent on a book: its refusals, and the orders it has any share of. */
  predicate Concerns(e: Entry, agent: Option<Name>, book: Name) {
    e.book == book &&
    match e.kind
    case Refused(_, _) => e.agent == agent
    case Ordered(_, _, _, shares) => Of(agent) in shares
    case Unrelated => false
  }

  function Scan(log: seq<Entry>, agent: Option<Name>, book: Name): Orders {
    if log == [] then []
    else
      var before, e := Scan(log[..|log| - 1], agent, book), log[|log| - 1];
      if Concerns(e, agent, book) then Fold(before, e) else before
  }

  /** `list(...)[-limit:]` behind the guard for a limit of nothing. */
  function Tail(orders: Orders, limit: int): Orders {
    if limit <= 0 then [] else if |orders| <= limit then orders else orders[|orders| - limit..]
  }

  method ScanOutcomes(log: seq<Entry>, agent: Option<Name>, book: Name, limit: int) returns (outcomes: Orders)
    ensures outcomes == Tail(Scan(log, agent, book), limit)
  {
    if limit <= 0 {
      return [];
    }
    var orders: Orders := [];
    for i := 0 to |log|
      invariant orders == Scan(log[..i], agent, book)
    {
      assert log[..i + 1][..i] == log[..i];
      if Concerns(log[i], agent, book) {
        orders := Fold(orders, log[i]);
      }
    }
    assert log[..|log|] == log;
    outcomes := Tail(orders, limit);
  }

  // ------------------------------------------------------------------ what the scan means

  predicate About(e: Entry, agent: Option<Name>, book: Name, key: Key) {
    Concerns(e, agent, book) && KeyOf(e) == key
  }

  /** One past the last row about `key`, 0 when there is none. */
  function LastMoved(log: seq<Entry>, agent: Option<Name>, book: Name, key: Key): (n: nat)
    ensures n <= |log|
  {
    if log == [] then 0
    else if About(log[|log| - 1], agent, book, key) then |log|
    else LastMoved(log[..|log| - 1], agent, book, key)
  }

  /** The latest submission error any row about `key` reported. */
  function LastError(log: seq<Entry>, agent: Option<Name>, book: Name, key: Key): Option<Name> {
    if log == [] then None
    else if About(log[|log| - 1], agent, book, key) && Errs(log[|log| - 1]) then log[|log| - 1].kind.reason
    else LastError(log[..|log| - 1], agent, book, key)
  }

  /** An item is its key's latest row with the key's latest submission error. */
  predicate IsLatest(item: Item, log: seq<Entry>, agent: Option<Name>, book: Name) {
    var n := LastMoved(log, agent, book, item.key);
    n > 0 && Concerns(log[n - 1], agent, book) &&
    item.outcome == OutcomeOf(log[n - 1], LastError(log[..n], agent, book, item.key))
  }

  ghost predicate InMoveOrder(orders: Orders, log: seq<Entry>, agent: Option<Name>, book: Name) {
    forall i, j :: 0 <= i < j < |orders| ==>
                     LastMoved(log, agent, book, orders[i].key) < LastMoved(log, agent, book, orders[j].key)
  }

  predicate Has(orders: Orders, key: Key) {
    exists i :: 0 <= i < |orders| && orders[i].key == key
  }

  ghost predicate Means(orders: Orders, log: seq<Entry>, agent: Option<Name>, book: Name) {
    InMoveOrder(orders, log, agent, book) &&
    (forall i :: 0 <= i < |orders| ==> IsLatest(orders[i], log, agent, book)) &&
    (forall key :: LastMoved(log, agent, book, key) > 0 ==> Has(orders, key))
  }

  lemma {:induction false} WithoutKeeps(orders: Orders, key: Key)
    ensures |Without(orders, key)| <= |orders|
    ensures forall item :: item in Without(orders, key) <==> item in orders && item.key != key
  {
    if orders != [] {
      WithoutKeeps(orders[..|orders| - 1], key);
      var last := orders[|orders| - 1];
      assert orders == orders[..|orders| - 1] + [last];
    }
  }

  lemma {:induction false} LookupFinds(orders: Orders, key: Key)
    ensures match Lookup(orders, key)
            case Some(outcome) => exists i :: 0 <= i < |orders| && orders[i] == Item(key, outcome)
            case None => forall i :: 0 <= i < |orders| ==> orders[i].key != key
  {
    if orders != [] {
      LookupFinds(orders[..|orders| - 1], key);
      var front, last := orders[..|orders| - 1], orders[|orders| - 1];
      if last.key == key {
        assert orders[|orders| - 1] == Item(key, last.outcome);
      } else if Lookup(front, key).Some? {
        var i :| 0 <= i < |front| && front[i] == Item(key, Lookup(front, key).value);
        assert orders[i] == front[i];
      }
    }
  }

  lemma WithoutHas(orders: Orders, key: Key, other: Key)
    requires Has(orders, other) && other != key
    ensures Has(Without(orders, key), other)
  {
    WithoutKeeps(orders, key);
    var i :| 0 <= i < |orders| && orders[i].key == other;
    assert orders[i] in orders;
    var rest := Without(orders, key);
    var j :| 0 <= j < |rest| && rest[j] == orders[i];
  }

  lemma AppendInOrder(rest: Orders, front: Orders, last: Item, log: seq<Entry>, agent: Option<Name>, book: Name)
    requires InMoveOrder(front + [last], log, agent, book) && InMoveOrder(rest, log, agent, book)
    requires forall item :: item in rest ==> item in front
    ensures InMoveOrder(rest + [last], log, agent, book)
  {
    hide LastMoved;
    forall i | 0 <= i < |rest|
      ensures LastMoved(log, agent, book, rest[i].key) < LastMoved(log, agent, book, last.key) {
      assert rest[i] in front;
      var j :| 0 <= j < |front| && front[j] == rest[i];
      assert (front + [last])[j] == front[j] && (front + [last])[|front|] == last;
    }
  }

  lemma FrontInOrder(orders: Orders, log: seq<Entry>, agent: Option<Name>, book: Name)
    requires orders != [] && InMoveOrder(orders, log, agent, book)
    ensures InMoveOrder(orders[..|orders| - 1], log, agent, book)
  {}

  /** Removing a key keeps the others in their order. */
  lemma {:induction false} WithoutInOrder(orders: Orders, key: Key, log: seq<Entry>, agent: Option<Name>, book: Name)
    requires InMoveOrder(orders, log, agent, book)
    ensures InMoveOrder(Without(orders, key), log, agent, book)
  {
    hide InMoveOrder;
    if orders != [] {
      var front, last := orders[..|orders| - 1], orders[|orders| - 1];
      FrontInOrder(orders, log, agent, book);
      WithoutInOrder(front, key, log, agent, book);
      WithoutKeeps(front, key);
      assert orders == front + [last];
      if last.key != key {
        AppendInOrder(Without(front, key), front, last, log, agent, book);
      } else {
        assert Without(front, key) + [] == Without(front, key);
      }
    } else {
      assert Without(orders, key) == orders;
    }
  }

  /** A row that is not about a key changes nothing the history says of it. */
  lemma NotAboutKeeps(log: seq<Entry>, agent: Option<Name>, book: Name, key: Key)
    requires log != [] && !About(log[|log| - 1], agent, book, key)
    ensures LastMoved(log, agent, book, key) == LastMoved(log[..|log| - 1], agent, book, key)
    ensures var n := LastMoved(log, agent, book, key); log[..n] == log[..|log| - 1][..n]
  {}

  /** Nothing after a key's latest row reported an error for it. */
  lemma {:induction false} ErrorIsWithLast(log: seq<Entry>, agent: Option<Name>, book: Name, key: Key)
    ensures LastError(log, agent, book, key) == LastError(log[..LastMoved(log, agent, book, key)], agent, book, key)
    ensures LastError(log, agent, book, key).Some? ==> Truthy(LastError(log, agent, book, key)) && key.Venue?
  {
    if log != [] {
      var front, n := log[..|log| - 1], LastMoved(log, agent, book, key);
      ErrorIsWithLast(front, agent, book, key);
      if About(log[|log| - 1], agent, book, key) {
        assert log[..n] == log;
      } else {
        assert log[..n] == front[..n];
      }
    }
  }

  /** The error a row carries on is the latest one its key has reported. */
  lemma CarriesLastError(orders: Orders, log: seq<Entry>, agent: Option<Name>, book: Name, key: Key)
    requires Means(orders, log, agent, book) && key.Venue?
    ensures Carried(Lookup(orders, key)) == LastError(log, agent, book, key)
  {
    hide InMoveOrder, LastMoved, LastError;
    LookupFinds(orders, key);
    ErrorIsWithLast(log, agent, book, key);
    var n := LastMoved(log, agent, book, key);
    if Lookup(orders, key).Some? {
      var i :| 0 <= i < |orders| && orders[i] == Item(key, Lookup(orders, key).value);
      assert IsLatest(orders[i], log, agent, book);
      LatestIsVenue(log, agent, book, key);
      ErrorIsWithLast(log[..n], agent, book, key);
    } else {
      assert !Has(orders, key);
      NoErrorYet(agent, book, key);
      assert log[..0] == [];
    }
  }

  lemma NoErrorYet(agent: Option<Name>, book: Name, key: Key)
    ensures LastError([], agent, book, key).None?
  {}

  lemma {:induction false} LatestIsVenue(log: seq<Entry>, agent: Option<Name>, book: Name, key: Key)
    requires LastMoved(log, agent, book, key) > 0
    ensures var n := LastMoved(log, agent, book, key);
            About(log[n - 1], agent, book, key) &&
            (Errs(log[n - 1]) ==> LastError(log[..n], agent, book, key) == log[n - 1].kind.reason)
  {
    var n := LastMoved(log, agent, book, key);
    if About(log[|log| - 1], agent, book, key) {
      assert log[..n] == log;
    } else {
      LatestIsVenue(log[..|log| - 1], agent, book, key);
      assert log[..n] == log[..|log| - 1][..n];
    }
  }

  lemma FoldedItem(orders: Orders, log: seq<Entry>, agent: Option<Name>, book: Name)
    requires log != [] && Concerns(log[|log| - 1], agent, book) && Means(orders, log[..|log| - 1], agent, book)
    ensures var after := Fold(orders, log[|log| - 1]);
            IsLatest(after[|after| - 1], log, agent, book) &&
            LastMoved(log, agent, book, after[|after| - 1].key) == |log|
  {
    var front, e := log[..|log| - 1], log[|log| - 1];
    assert log[..|log|] == log;
    if e.kind.Ordered? {
      CarriesLastError(orders, front, agent, book, KeyOf(e));
    }
  }

  lemma OthersStayLatest(item: Item, log: seq<Entry>, agent: Option<Name>, book: Name)
    requires log != [] && IsLatest(item, log[..|log| - 1], agent, book) && !About(log[|log| - 1], agent, book, item.key)
    ensures IsLatest(item, log, agent, book)
  {
    hide LastMoved, LastError;
    NotAboutKeeps(log, agent, book, item.key);
  }

  lemma FoldInOrder(orders: Orders, log: seq<Entry>, agent: Option<Name>, book: Name)
    requires log != [] && Concerns(log[|log| - 1], agent, book) && Means(orders, log[..|log| - 1], agent, book)
    ensures InMoveOrder(Fold(orders, log[|log| - 1]), log, agent, book)
  {
    hide LastMoved, LastError, IsLatest, Without, OutcomeOf, Lookup;
    var front, e := log[..|log| - 1], log[|log| - 1];
    var rest, after := Without(orders, KeyOf(e)), Fold(orders, e);
    WithoutKeeps(orders, KeyOf(e));
    WithoutInOrder(orders, KeyOf(e), front, agent, book);
    FoldedItem(orders, log, agent, book);
    forall i | 0 <= i < |rest|
      ensures LastMoved(log, agent, book, rest[i].key) == LastMoved(front, agent, book, rest[i].key) <= |front|
    {
      assert rest[i] in rest;
      NotAboutKeeps(log, agent, book, rest[i].key);
    }
  }

  lemma FoldMeans(orders: Orders, log: seq<Entry>, agent: Option<Name>, book: Name)
    requires log != [] && Concerns(log[|log| - 1], agent, book) && Means(orders, log[..|log| - 1], agent, book)
    ensures Means(Fold(orders, log[|log| - 1]), log, agent, book)
  {
    hide LastMoved, LastError, IsLatest, Without, OutcomeOf, Lookup, InMoveOrder;
    var front, e := log[..|log| - 1], log[|log| - 1];
    var rest, after := Without(orders, KeyOf(e)), Fold(orders, e);
    FoldInOrder(orders, log, agent, book);
    FoldedItem(orders, log, agent, book);
    WithoutKeeps(orders, KeyOf(e));
    forall i | 0 <= i < |after| ensures IsLatest(after[i], log, agent, book) {
      if i < |rest| {
        assert rest[i] in rest;
        var j :| 0 <= j < |orders| && orders[j] == rest[i];
        OthersStayLatest(rest[i], log, agent, book);
      }
    }
    forall k | LastMoved(log, agent, book, k) > 0 ensures Has(after, k) {
      if k == KeyOf(e) {
        assert after[|rest|].key == k;
      } else {
        NotAboutKeeps(log, agent, book, k);
        WithoutHas(orders, KeyOf(e), k);
        var i :| 0 <= i < |rest| && rest[i].key == k;
        assert after[i].key == k;
      }
    }
  }

  lemma OtherRowMeans(orders: Orders, log: seq<Entry>, agent: Option<Name>, book: Name)
    requires log != [] && !Concerns(log[|log| - 1], agent, book) && Means(orders, log[..|log| - 1], agent, book)
    ensures Means(orders, log, agent, book)
  {
    hide LastMoved, LastError, IsLatest;
    forall k ensures LastMoved(log, agent, book, k) == LastMoved(log[..|log| - 1], agent, book, k) {
      NotAboutKeeps(log, agent, book, k);
    }
    forall i | 0 <= i < |orders| ensures IsLatest(orders[i], log, agent, book) {
      OthersStayLatest(orders[i], log, agent, book);
    }
  }

  /** What the scan answers: one outcome for every order and refusal that concerns the agent on the book,
      its latest row carrying the latest submission error, oldest-moved first. */
  lemma {:induction false} ScanMeans(log: seq<Entry>, agent: Option<Name>, book: Name)
    ensures Means(Scan(log, agent, book), log, agent, book)
  {
    if log == [] {
      assert forall key :: LastMoved(log, agent, book, key) == 0;
    } else {
      hide Means;
      var front := log[..|log| - 1];
      ScanMeans(front, agent, book);
      if Concerns(log[|log| - 1], agent, book) {
        FoldMeans(Scan(front, agent, book), log, agent, book);
      } else {
        OtherRowMeans(Scan(front, agent, book), log, agent, book);
      }
    }
  }
}
