/** Which rows an answer rests on: no row of another agent or book moves it, a row is taken exactly where its own
    fields agree with the net units the earlier rows moved, and it starts past the latest repair. */
module EpisodeRows {
  import opened Wrappers
  import opened Episodes
  import opened EpisodeLaws

  // ------------------------------------------------------------------ other agents' rows

  /** A row of another book; or a repair that does not name the agent; or another agent's row. */
  predicate Foreign(e: Entry, agent: string, book: string) {
    e.book != book || if e.row.Baseline? then agent !in e.row.repaired else e.agent != agent
  }

  lemma FoldsFront(log: seq<Entry>, e: Entry, agent: string, book: string, since: int)
    ensures Fold(log + [e], agent, book, since) ==
            if Mine(e, agent, book) then Step(Fold(log, agent, book, since), e, since)
            else Fold(log, agent, book, since)
    ensures Cutoff(log + [e], agent, book) ==
            if Restarts(e, agent, book) then e.seqNo else Cutoff(log, agent, book)
  {
    assert (log + [e])[..|log|] == log;
  }

  lemma SeesFront(log: seq<Entry>, e: Entry, until: Option<int>)
    ensures Visible(log + [e], until) == Visible(log, until) + if Upto(until, e.seqNo) then [e] else []
  {
    assert (log + [e])[..|log|] == log;
  }

  lemma {:induction false} ForeignFolds(a: seq<Entry>, e: Entry, b: seq<Entry>, agent: string, book: string,
                                        since: int)
    requires Foreign(e, agent, book)
    ensures Fold(a + [e] + b, agent, book, since) == Fold(a + b, agent, book, since)
    ensures Cutoff(a + [e] + b, agent, book) == Cutoff(a + b, agent, book)
  {
    hide Fold, Cutoff, AfterTrade, AfterStake, AfterCorrection;
    if b == [] {
      assert a + [e] + b == a + [e] && a + b == a;
      FoldsFront(a, e, agent, book, since);
    } else {
      var front, last := b[..|b| - 1], b[|b| - 1];
      assert a + [e] + b == (a + [e] + front) + [last] && a + b == (a + front) + [last];
      ForeignFolds(a, e, front, agent, book, since);
      FoldsFront(a + [e] + front, last, agent, book, since);
      FoldsFront(a + front, last, agent, book, since);
    }
  }

  lemma {:induction false} SeesJoined(a: seq<Entry>, b: seq<Entry>, until: Option<int>)
    ensures Visible(a + b, until) == Visible(a, until) + Visible(b, until)
  {
    if b == [] {
      assert a + b == a;
    } else {
      var front, last := b[..|b| - 1], b[|b| - 1];
      assert a + b == (a + front) + [last] && b == front + [last];
      SeesJoined(a, front, until);
      SeesFront(a + front, last, until);
    }
  }

  /** Nobody else's rows count: wherever in the ledger one stands, the answer is what it is without it. */
  lemma OthersDoNotCount(a: seq<Entry>, e: Entry, b: seq<Entry>, agent: string, book: string, base: int,
                         until: Option<int>)
    requires Foreign(e, agent, book)
    ensures Answer(a + [e] + b, agent, book, base, until) == Answer(a + b, agent, book, base, until)
  {
    var floor := Later(base, Cutoff(a + b, agent, book));
    ForeignFolds(a, e, b, agent, book, floor);
    SeesJoined(a, b, until);
    SeesJoined(a + [e], b, until);
    SeesFront(a, e, until);
    if Upto(until, e.seqNo) {
      ForeignFolds(Visible(a, until), e, Visible(b, until), agent, book, floor);
    }
    hide Fold, Cutoff, Visible;
  }

  // ------------------------------------------------------------------ the agent's own rows

  /** What a row must say to be taken, beside the net units the rows before it moved: a settlement or a flat
      fill that buys nothing closes exactly what is held; any other fill goes the way of its side and never
      below nothing. */
  predicate Lawful(before: seq<Entry>, e: Entry) {
    match e.row
    case Stake(usd) => usd.Some?
    case Traded(t) =>
      var held := Net(before, e.agent, e.book, t.key);
      t.named && t.cash.Some? &&
      (t.settle ==> held > 0.0 && t.quantity == Some(held)) &&
      (!t.settle && t.flat ==> held > 0.0 && t.side != Buy && t.delta == Some(-held)) &&
      (!t.settle && !t.flat ==>
         t.delta.Some? && held + t.delta.value >= 0.0 &&
         (t.side == Buy ==> t.delta.value > 0.0) && (t.side == Sell ==> t.delta.value <= 0.0))
    case _ => true
  }

  lemma LawfulIsAccepted(before: seq<Entry>, e: Entry, since: int)
    requires Fold(before, e.agent, e.book, since).known
    ensures Lawful(before, e) <==> WellFormed(Fold(before, e.agent, e.book, since), e.row)
  {
    HeldIsNet(before, e.agent, e.book, since);
    if e.row.Traded? {
      assert HeldIn(Fold(before, e.agent, e.book, since).positions, e.row.trade.key) ==
             Net(before, e.agent, e.book, e.row.trade.key);
    }
    hide Fold, Net;
  }

  /** The account is known exactly while every row of the agent on the book agreed with what the rows before it
      left; from the first that does not, no exposure is an episode. */
  lemma {:induction false} KnownIsLawful(log: seq<Entry>, agent: string, book: string, since: int)
    ensures Fold(log, agent, book, since).known <==>
            forall i :: 0 <= i < |log| && log[i].agent == agent && log[i].book == book ==> Lawful(log[..i], log[i])
  {
    if log != [] {
      var front, e := Front(log), Last(log);
      assert front + [e] == log && log[..|front|] == front;
      KnownIsLawful(front, agent, book, since);
      forall i | 0 <= i < |front| ensures front[..i] == log[..i] && front[i] == log[i] {}
      FoldsFront(front, e, agent, book, since);
      KnownIsWellFormed(front, agent, book, since);
      StepKnows(Fold(front, agent, book, since), e, since);
      if Fold(front, agent, book, since).known && e.agent == agent && e.book == book {
        LawfulIsAccepted(front, e, since);
      }
      hide Lawful, Fold, WellFormed, Step;
    }
  }

  lemma {:induction false} BadRowEnds(log: seq<Entry>, agent: string, book: string, since: int, i: nat)
    requires i < |log| && log[i].agent == agent && log[i].book == book && !Lawful(log[..i], log[i])
    ensures Fold(log, agent, book, since).episodes == Fold(log[..i], agent, book, since).episodes
  {
    hide Lawful, Fold;
    var j := FirstBad(log, agent, book, i);
    KnownIsLawful(log[..j], agent, book, since);
    forall k | 0 <= k < j ensures log[..j][..k] == log[..k] && log[..j][k] == log[k] {}
    LawfulIsAccepted(log[..j], log[j], since);
    BadRowPoisons(log, agent, book, since, j);
    if j < i {
      assert log[..i][..j] == log[..j] && log[..i][j] == log[j];
      BadRowPoisons(log[..i], agent, book, since, j);
    }
  }

  lemma {:induction false} FirstBad(log: seq<Entry>, agent: string, book: string, i: nat) returns (j: nat)
    requires i < |log| && log[i].agent == agent && log[i].book == book && !Lawful(log[..i], log[i])
    ensures j <= i && log[j].agent == agent && log[j].book == book && !Lawful(log[..j], log[j])
    ensures forall k :: 0 <= k < j && log[k].agent == agent && log[k].book == book ==> Lawful(log[..k], log[k])
  {
    hide Lawful;
    if k :| 0 <= k < i && log[k].agent == agent && log[k].book == book && !Lawful(log[..k], log[k]) {
      j := FirstBad(log, agent, book, k);
    } else {
      j := i;
    }
  }

  /** A row that is not taken is not made into favourable evidence: one that closes leaves nothing held, a purchase
      leaves one unit, a fill that goes below nothing leaves that, and any other what was held. */
  lemma BadRowLeaves(positions: map<Key, real>, t: Trade, key: Key)
    requires !Accepts(positions, t)
    ensures HeldIn(Held(positions, t), key) ==
            if key != t.key then HeldIn(positions, key)
            else if t.settle || t.flat then 0.0
            else if t.side == Buy then 1.0
            else if t.named && t.cash.Some? && t.delta.Some? && (t.side == Sell ==> t.delta.value <= 0.0)
            then HeldIn(positions, key) + t.delta.value
            else HeldIn(positions, key)
  {}

  // ------------------------------------------------------------------ where scoring starts

  /** A repair of the agent's account on the book: its own correction, or a baseline that names it. */
  predicate Repairs(e: Entry, agent: string, book: string) {
    e.book == book && ((e.row.Correction? && e.agent == agent) || (e.row.Baseline? && agent in e.row.repaired))
  }

  /** The cutoff is the latest repair's place, and the ledger's start without one. */
  lemma {:induction false} CutoffIsLatest(log: seq<Entry>, agent: string, book: string)
    requires Increasing(log)
    ensures forall i :: 0 <= i < |log| && Repairs(log[i], agent, book) ==> log[i].seqNo <= Cutoff(log, agent, book)
    ensures (exists i :: 0 <= i < |log| && Repairs(log[i], agent, book) && log[i].seqNo == Cutoff(log, agent, book)) ||
            (Cutoff(log, agent, book) == 0 && forall i :: 0 <= i < |log| ==> !Repairs(log[i], agent, book))
  {
    if log != [] {
      CutoffIsLatest(Front(log), agent, book);
      forall i | 0 <= i < |log| ensures i == |log| - 1 || log[i] == Front(log)[i] {}
      if Repairs(Last(log), agent, book) {
        assert log[|log| - 1].seqNo == Cutoff(log, agent, book);
      } else if i :| 0 <= i < |Front(log)| && Repairs(Front(log)[i], agent, book) &&
                     Front(log)[i].seqNo == Cutoff(Front(log), agent, book) {
        assert log[i].seqNo == Cutoff(log, agent, book);
      }
    }
  }
}
