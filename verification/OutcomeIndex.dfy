/** The index of order outcomes (league/auditor.py `_OutcomeIndex`, `order_outcomes`): every agent's on
    every book, folded once from a growing ledger and afterwards only from the rows appended since. */
module OutcomeIndexes {
  import opened Wrappers
  import opened Outcomes

  datatype Place = Place(agent: Option<Name>, book: Name)

  function Get(books: map<Place, Orders>, place: Place): Orders {
    if place in books then books[place] else []
  }

  ghost predicate Increasing(log: seq<Entry>) {
    (forall i :: 0 <= i < |log| ==> log[i].seqNo > 0) &&
    forall i, j :: 0 <= i < j < |log| ==> log[i].seqNo < log[j].seqNo
  }

  /** Every place stands where a scan of the rows so far would put it. */
  ghost predicate Indexes(books: map<Place, Orders>, log: seq<Entry>) {
    forall place :: Get(books, place) == Scan(log, place.agent, place.book)
  }

  /** The cursor is at the last row of its kinds, so nothing before it is left and nothing after it read. */
  ghost predicate CursorAt(cursor: int, log: seq<Entry>) {
    (forall i :: 0 <= i < |log| && !log[i].kind.Unrelated? ==> log[i].seqNo <= cursor) &&
    (cursor == 0 || exists i :: 0 <= i < |log| && log[i].seqNo == cursor)
  }

  /** One more row folded into the places it concerns indexes one more row of the log. */
  lemma IndexNext(before: map<Place, Orders>, after: map<Place, Orders>, log: seq<Entry>, n: nat)
    requires n < |log| && Indexes(before, log[..n])
    requires forall place :: Get(after, place) == Folded(before, place, log[n])
    ensures Indexes(after, log[..n + 1])
  {
    hide Get;
    assert log[..n + 1][..n] == log[..n];
    forall place: Place ensures Get(after, place) == Scan(log[..n + 1], place.agent, place.book) {
      assert Get(before, place) == Scan(log[..n], place.agent, place.book);
    }
  }

  function Folded(books: map<Place, Orders>, place: Place, e: Entry): Orders {
    if Concerns(e, place.agent, place.book) then Fold(Get(books, place), e) else Get(books, place)
  }

  lemma CursorMoves(cursor: int, log: seq<Entry>, n: nat)
    requires Increasing(log) && n < |log| && CursorAt(cursor, log[..n])
    ensures CursorAt(if log[n].kind.Unrelated? then cursor else log[n].seqNo, log[..n + 1])
    ensures cursor < log[n].seqNo
  {}

  class OutcomeIndex {
    var cursor: int
    var books: map<Place, Orders>
    /** The ledger as the last query left it. */
    ghost var seen: seq<Entry>

    ghost predicate Valid()
      reads this
    {
      Indexes(books, seen) && CursorAt(cursor, seen)
    }

    constructor ()
      ensures Valid() && seen == []
    {
      cursor, books, seen := 0, map[], [];
    }

    /** One row into the outcomes of every agent it concerns, each once (`_fold`). */
    method FoldRow(e: Entry)
      requires !e.kind.Unrelated?
      modifies this`books
      ensures forall place :: Get(books, place) == Folded(old(books), place, e)
    {
      if e.kind.Refused? {
        var place := Place(e.agent, e.book);
        books := books[place := Fold(Get(books, place), e)];
        return;
      }
      var shares, done := e.kind.shares, {};
      for j := 0 to |shares|
        invariant forall agent :: agent in done <==> Of(agent) in shares[..j]
        invariant forall place :: Get(books, place)
                                  == if place.book == e.book && place.agent in done
                                     then Fold(Get(old(books), place), e) else Get(old(books), place)
      {
        if shares[j].Of? && shares[j].agent !in done {
          var place := Place(shares[j].agent, e.book);
          books := books[place := Fold(Get(books, place), e)];
          done := done + {shares[j].agent};
        }
      }
      assert shares[..|shares|] == shares;
    }

    /** Fold the rows past the cursor. */
    method Refresh(log: seq<Entry>)
      requires Valid() && Increasing(log) && seen <= log
      modifies this
      ensures Valid() && seen == log
    {
      hide Concerns, Scan, CursorAt, Folded, Indexes, Increasing;
      var after := cursor;
      ghost var known := |seen|;
      assert seen == log[..known];
      for i := 0 to |log|
        invariant i <= known ==> cursor == after && Indexes(books, log[..known]) && CursorAt(cursor, log[..known])
        invariant CursorAt(after, log[..known])
        invariant known < i ==> Indexes(books, log[..i]) && CursorAt(cursor, log[..i])
      {
        ghost var before := books;
        if i < known {
          NothingLeft(after, log, known, i);
        } else {
          CursorMoves(cursor, log, i);
          CursorIsBehind(after, log, known, i);
        }
        if log[i].seqNo > after && !log[i].kind.Unrelated? {
          FoldRow(log[i]);
          cursor := log[i].seqNo;
          IndexNext(before, books, log, i);
        } else if i >= known {
          UnrelatedChangesNothing(books, log[i]);
          IndexNext(before, books, log, i);
        }
      }
      assert log[..|log|] == log;
      seen := log;
    }

    /** The agent's last `limit` outcomes on the book: whatever was appended between whichever queries,
        exactly what a scan of the whole ledger answers. */
    method Query(log: seq<Entry>, agent: Option<Name>, book: Name, limit: int) returns (outcomes: Orders)
      requires Valid() && Increasing(log) && seen <= log
      modifies this
      ensures Valid() && seen == if limit <= 0 then old(seen) else log
      ensures outcomes == Tail(Scan(log, agent, book), limit)
    {
      if limit <= 0 {
        return [];
      }
      Refresh(log);
      outcomes := Tail(Get(books, Place(agent, book)), limit);
    }
  }

  lemma UnrelatedChangesNothing(books: map<Place, Orders>, e: Entry)
    requires e.kind.Unrelated?
    ensures forall place :: Get(books, place) == Folded(books, place, e)
  {}

  lemma CursorIsBehind(cursor: int, log: seq<Entry>, known: nat, i: nat)
    requires Increasing(log) && known <= i < |log| && CursorAt(cursor, log[..known])
    ensures cursor < log[i].seqNo
  {}

  lemma NothingLeft(cursor: int, log: seq<Entry>, known: nat, i: nat)
    requires i < known <= |log| && CursorAt(cursor, log[..known])
    ensures log[i].seqNo > cursor ==> log[i].kind.Unrelated?
  {}
}
