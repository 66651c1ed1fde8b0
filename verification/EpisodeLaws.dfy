/** What the episodes of `Episodes` mean, over every ledger: they never overlap, never look ahead, are
    poisoned for good by a malformed row, and each one's return is what the account's balance did. */
module EpisodeLaws {
  import opened Wrappers
  import opened Episodes

  /** The rows before the last. */
  function Front(log: seq<Entry>): seq<Entry>
    requires log != []
  {
    log[..|log| - 1]
  }

  function Last(log: seq<Entry>): Entry
    requires log != []
  {
    log[|log| - 1]
  }

  // ------------------------------------------------------------------ disjoint and ordered

  predicate Sound(ep: Episode, since: int) {
    since < ep.first < ep.last && ep.openedAt < ep.closedAt && ep.trades > 0
  }

  ghost predicate InOrder(episodes: seq<Episode>) {
    forall i, j :: 0 <= i < j < |episodes| ==> episodes[i].last < episodes[j].first
  }

  ghost predicate OrderKept(s: State, log: seq<Entry>, since: int) {
    InOrder(s.episodes) &&
    (forall i :: 0 <= i < |s.episodes| ==> Sound(s.episodes[i], since) && log != [] &&
                                           s.episodes[i].last <= Last(log).seqNo) &&
    (s.cycle.Some? ==>
       s.positions != map[] && log != [] && s.cycle.value.start <= Last(log).seqNo &&
       (forall i :: 0 <= i < |s.episodes| ==> s.episodes[i].last < s.cycle.value.start))
  }

  /** An exposure that closes, or stays open, after a row. */
  lemma CycleAfterIs(s: State, e: Entry, t: Trade)
    requires s.cycle.Some? ==> s.positions != map[] && s.cycle.value.start < e.seqNo
    ensures var cycle := match Opened(s, e, t) case Some(c) => Some(Counted(c, s.positions, t)) case None => None;
            cycle.Some? ==>
              cycle.value.start <= e.seqNo && (s.cycle.Some? ==> cycle.value.start == s.cycle.value.start) &&
              (s.cycle.None? ==> cycle.value.start == e.seqNo) &&
              (cycle.value.valid && Held(s.positions, t) == map[] ==> s.cycle.Some?)
  {
    if Buys(t) && s.positions == map[] && Accepts(s.positions, t) {
      assert t.key in Held(s.positions, t);
    }
  }

  lemma TradeKeepsOrder(s: State, log: seq<Entry>, e: Entry, t: Trade, since: int)
    requires OrderKept(s, log, since) && (log != [] ==> Last(log).seqNo < e.seqNo)
    ensures OrderKept(AfterTrade(s, e, t, since), log + [e], since)
  {
    assert Last(log + [e]) == e;
    CycleAfterIs(s, e, t);
    hide Held, Accepts, Opened, Counted;
  }

  lemma StepKeepsOrder(s: State, log: seq<Entry>, e: Entry, since: int)
    requires OrderKept(s, log, since) && (log != [] ==> Last(log).seqNo < e.seqNo)
    ensures OrderKept(Step(s, e, since), log + [e], since)
    ensures OrderKept(s, log + [e], since)
  {
    hide AfterTrade;
    assert Last(log + [e]) == e;
    if e.row.Traded? {
      TradeKeepsOrder(s, log, e, e.row.trade, since);
    }
  }

  lemma {:induction false} FoldKeepsOrder(log: seq<Entry>, agent: string, book: string, since: int)
    requires Increasing(log)
    ensures OrderKept(Fold(log, agent, book, since), log, since)
  {
    if log != [] {
      FoldKeepsOrder(Front(log), agent, book, since);
      hide OrderKept, Step;
      StepKeepsOrder(Fold(Front(log), agent, book, since), Front(log), Last(log), since);
      assert log == Front(log) + [Last(log)];
    }
  }

  /** Exposures never overlap: each ends before the next begins, every one begins after `since_seq` and
      after the agent's latest correction, and closes later than it opened, with a trade completed. */
  lemma ExposuresNeverOverlap(log: seq<Entry>, agent: string, book: string, since: int, until: Option<int>)
    requires Increasing(log)
    ensures var answer := Answer(log, agent, book, since, until);
            InOrder(answer) &&
            forall i :: 0 <= i < |answer| ==>
                          Sound(answer[i], since) && Sound(answer[i], Cutoff(log, agent, book)) &&
                          Upto(until, answer[i].last)
  {
    VisibleIncreases(log, until);
    FoldKeepsOrder(Visible(log, until), agent, book, Later(since, Cutoff(log, agent, book)));
  }

  lemma {:induction false} VisibleIncreases(log: seq<Entry>, until: Option<int>)
    requires Increasing(log)
    ensures Increasing(Visible(log, until))
    ensures forall i :: 0 <= i < |Visible(log, until)| ==>
                          Upto(until, Visible(log, until)[i].seqNo) && Visible(log, until)[i] in log
  {
    if log != [] {
      VisibleIncreases(Front(log), until);
    }
  }

  // ------------------------------------------------------------------ no look-ahead

  function EndedBy(episodes: seq<Episode>, until: Option<int>): seq<Episode> {
    if episodes == [] then []
    else
      var ep := episodes[|episodes| - 1];
      EndedBy(episodes[..|episodes| - 1], until) + if Upto(until, ep.last) then [ep] else []
  }

  function StartedAfter(episodes: seq<Episode>, since: int): seq<Episode> {
    if episodes == [] then []
    else
      var ep := episodes[|episodes| - 1];
      StartedAfter(episodes[..|episodes| - 1], since) + if ep.first > since then [ep] else []
  }

  lemma {:induction false} AllEnded(episodes: seq<Episode>, until: Option<int>)
    requires forall i :: 0 <= i < |episodes| ==> Upto(until, episodes[i].last)
    ensures EndedBy(episodes, until) == episodes
  {
    if episodes != [] {
      AllEnded(episodes[..|episodes| - 1], until);
    }
  }

  lemma AddsAtMostOne(s: State, e: Entry, since: int)
    ensures var after := Step(s, e, since).episodes;
            after == s.episodes || (|after| == |s.episodes| + 1 && after[..|s.episodes|] == s.episodes &&
                                    after[|s.episodes|].last == e.seqNo)
  {}

  /** The loop's break is a filter: the answer as of `until` is the full answer's episodes that ended by then. */
  lemma {:induction false} BreakIsFilter(log: seq<Entry>, agent: string, book: string, since: int, until: Option<int>)
    requires Increasing(log)
    ensures Fold(Visible(log, until), agent, book, since).episodes ==
            EndedBy(Fold(log, agent, book, since).episodes, until)
  {
    if log != [] {
      var e := Last(log);
      if Upto(until, e.seqNo) {
        AllVisible(log, until);
        FoldKeepsOrder(log, agent, book, since);
        AllEnded(Fold(log, agent, book, since).episodes, until);
      } else {
        BreakIsFilter(Front(log), agent, book, since, until);
        AddsAtMostOne(Fold(Front(log), agent, book, since), e, since);
      }
    }
  }

  lemma StartedAppend(episodes: seq<Episode>, ep: Episode, since: int)
    ensures StartedAfter(episodes + [ep], since) == StartedAfter(episodes, since) +
                                                    if ep.first > since then [ep] else []
  {}

  /** The episode a row completes is the same whatever `since` is; `since` decides whether it is kept. */
  lemma TradeIgnoresSince(s: State, s': State, e: Entry, t: Trade, base: int, since: int)
    requires base <= since && s'.episodes == StartedAfter(s.episodes, since) && s' == s.(episodes := s'.episodes)
    ensures var after, after' := AfterTrade(s, e, t, base), AfterTrade(s', e, t, since);
            after'.episodes == StartedAfter(after.episodes, since) && after' == after.(episodes := after'.episodes)
  {
    hide Held, Accepts, StartedAfter;
    var cycle := match Opened(s, e, t) case Some(c) => Some(Counted(c, s.positions, t)) case None => None;
    if cycle.Some? && cycle.value.capital > 0.0 {
      StartedAppend(s.episodes, EpisodeOf(cycle.value, e), since);
    }
    assert s.episodes + [] == s.episodes && s'.episodes + [] == s'.episodes;
  }

  lemma StepIgnoresSince(s: State, s': State, e: Entry, base: int, since: int)
    requires base <= since && s'.episodes == StartedAfter(s.episodes, since) && s' == s.(episodes := s'.episodes)
    ensures var after, after' := Step(s, e, base), Step(s', e, since);
            after'.episodes == StartedAfter(after.episodes, since) && after' == after.(episodes := after'.episodes)
  {
    hide AfterTrade, StartedAfter;
    if e.row.Traded? {
      TradeIgnoresSince(s, s', e, e.row.trade, base, since);
    }
  }

  /** `since_seq` is a filter too: nothing else the fold does depends on it. */
  lemma {:induction false} SinceIsFilter(log: seq<Entry>, agent: string, book: string, base: int, since: int)
    requires base <= since
    ensures var all, some := Fold(log, agent, book, base), Fold(log, agent, book, since);
            some.episodes == StartedAfter(all.episodes, since) && some == all.(episodes := some.episodes)
  {
    if log != [] {
      SinceIsFilter(Front(log), agent, book, base, since);
      StepIgnoresSince(Fold(Front(log), agent, book, base), Fold(Front(log), agent, book, since), Last(log), base,
                       since);
    }
  }

  /** Every answer is read off one history: the episodes that began after `since_seq` and the agent's
      latest correction, and had ended by `until`. */
  lemma AnswersAreOneHistory(log: seq<Entry>, agent: string, book: string, base: int, since: int, until: Option<int>)
    requires Increasing(log) && base <= since
    ensures Answer(log, agent, book, since, until)
         == StartedAfter(EndedBy(Fold(log, agent, book, base).episodes, until), Later(since, Cutoff(log, agent, book)))
  {
    BreakIsFilter(log, agent, book, base, until);
    SinceIsFilter(Visible(log, until), agent, book, base, Later(since, Cutoff(log, agent, book)));
  }

  lemma {:induction false} FiltersCompose(episodes: seq<Episode>, a: int, b: int)
    ensures StartedAfter(StartedAfter(episodes, a), b) == StartedAfter(episodes, Later(a, b))
  {
    if episodes != [] {
      var front, ep := episodes[..|episodes| - 1], episodes[|episodes| - 1];
      FiltersCompose(front, a, b);
      StartedAppend(StartedAfter(front, a), ep, b);
      assert StartedAfter(front, a) + [] == StartedAfter(front, a);
    }
  }

  lemma {:induction false} KeptNoMore(episodes: seq<Episode>, since: int)
    ensures |StartedAfter(episodes, since)| <= |episodes|
    ensures (exists i :: 0 <= i < |episodes| && episodes[i].first <= since) ==>
              |StartedAfter(episodes, since)| < |episodes|
  {
    if episodes != [] {
      KeptNoMore(episodes[..|episodes| - 1], since);
    }
  }

  lemma {:induction false} KeptAll(episodes: seq<Episode>, since: int)
    requires forall i :: 0 <= i < |episodes| ==> episodes[i].first > since
    ensures StartedAfter(episodes, since) == episodes
  {
    if episodes != [] {
      KeptAll(episodes[..|episodes| - 1], since);
    }
  }

  lemma {:induction false} CutoffInLog(log: seq<Entry>, agent: string, book: string)
    requires Increasing(log) && (log != [] ==> log[0].seqNo > 0)
    ensures 0 <= Cutoff(log, agent, book)
    ensures log != [] ==> Cutoff(log, agent, book) <= Last(log).seqNo
  {
    if log != [] {
      CutoffInLog(Front(log), agent, book);
    }
  }

  lemma {:induction false} CutoffGrows(log: seq<Entry>, agent: string, book: string, until: Option<int>)
    requires Increasing(log) && (log != [] ==> log[0].seqNo > 0)
    ensures Cutoff(Visible(log, until), agent, book) <= Cutoff(log, agent, book)
  {
    if log != [] {
      if Upto(until, Last(log).seqNo) {
        AllVisible(log, until);
      } else {
        CutoffGrows(Front(log), agent, book, until);
        CutoffInLog(Front(log), agent, book);
      }
    }
  }

  /** `until_seq` looks ahead through corrections and repairs alone: what is answered for a past point is what the
      ledger as of that point would answer, less the exposures that began at or before a correction made
      since; the two are the same exactly when there is none. */
  lemma LooksAheadOnlyToCorrections(log: seq<Entry>, agent: string, book: string, since: int, k: int)
    requires Increasing(log) && (log != [] ==> log[0].seqNo > 0)
    ensures var earlier, now := Answer(Visible(log, Some(k)), agent, book, since, None),
                                Answer(log, agent, book, since, Some(k));
            now == StartedAfter(earlier, Cutoff(log, agent, book)) &&
            (now == earlier <==> forall i :: 0 <= i < |earlier| ==> earlier[i].first > Cutoff(log, agent, book))
  {
    hide Fold, Cutoff, StartedAfter, Increasing;
    var seen := Visible(log, Some(k));
    VisibleIncreases(log, Some(k));
    AllVisible(seen, None);
    var priorFloor, nextFloor := Later(since, Cutoff(seen, agent, book)), Later(since, Cutoff(log, agent, book));
    CutoffGrows(log, agent, book, Some(k));
    SinceIsFilter(seen, agent, book, since, priorFloor);
    SinceIsFilter(seen, agent, book, since, nextFloor);
    FiltersCompose(Fold(seen, agent, book, since).episodes, priorFloor, Cutoff(log, agent, book));
    var earlier := Fold(seen, agent, book, priorFloor).episodes;
    KeptNoMore(earlier, Cutoff(log, agent, book));
    if forall i :: 0 <= i < |earlier| ==> earlier[i].first > Cutoff(log, agent, book) {
      KeptAll(earlier, Cutoff(log, agent, book));
    }
  }

  const AGENT := "an agent"
  const BOOK := "a book"
  const BUYING := Trade(false, Buy, false, false, "a contract", true, Some(-10.0), Some(1.0), None)
  const SELLING := Trade(false, Sell, false, true, "a contract", true, Some(12.0), Some(-1.0), None)
  const STAKE := Entry(1, 1, AGENT, BOOK, Stake(Some(100.0)))
  const BOUGHT := Entry(2, 2, AGENT, BOOK, Traded(BUYING))
  const SOLD := Entry(3, 3, AGENT, BOOK, Traded(SELLING))
  const CORRECTED := Entry(4, 4, AGENT, BOOK, Correction(1.0))
  const AS_OF_THREE := [STAKE] + [BOUGHT] + [SOLD]
  const AS_OF_FOUR := AS_OF_THREE + [CORRECTED]

  lemma FoldAppend(log: seq<Entry>, e: Entry, agent: string, book: string, since: int)
    ensures Fold(log + [e], agent, book, since)
         == if Mine(e, agent, book) then Step(Fold(log, agent, book, since), e, since)
            else Fold(log, agent, book, since)
    ensures Cutoff(log + [e], agent, book) == if Restarts(e, agent, book) then e.seqNo else Cutoff(log, agent, book)
  {
    assert (log + [e])[..|log|] == log;
  }

  lemma FoldOfThree(since: int)
    ensures Fold(AS_OF_THREE, AGENT, BOOK, since).episodes ==
            if since < 2 then [Episode(2, 3, 2, 3, 1, 0.02, 0.1)] else []
    ensures Cutoff(AS_OF_THREE, AGENT, BOOK) == 0
  {
    FoldAppend([], STAKE, AGENT, BOOK, since);
    FoldAppend([STAKE], BOUGHT, AGENT, BOOK, since);
    FoldAppend([STAKE] + [BOUGHT], SOLD, AGENT, BOOK, since);
    assert [] + [STAKE] == [STAKE];
    hide Fold, Cutoff;
    var staked := Fold([STAKE], AGENT, BOOK, since);
    assert staked == State(map[], 100.0, true, None, []);
    var held := Fold([STAKE] + [BOUGHT], AGENT, BOOK, since);
    assert held == State(map["a contract" := 1.0], 90.0, true,
                         Some(Cycle(2, 2, -10.0, 100.0, 100.0, 0.0, 10.0, true, 0)), []);
  }

  /** An exposure opened and closed by the third row is an episode as of then, and none as of then once a
      fourth row corrects the account. */
  lemma LaterCorrectionHides()
    ensures Increasing(AS_OF_FOUR) && Visible(AS_OF_FOUR, Some(3)) == AS_OF_THREE
    ensures Answer(AS_OF_THREE, AGENT, BOOK, 0, None) == [Episode(2, 3, 2, 3, 1, 0.02, 0.1)]
    ensures Answer(AS_OF_FOUR, AGENT, BOOK, 0, Some(3)) == []
  {
    FoldOfThree(0);
    FoldOfThree(4);
    FoldAppend(AS_OF_THREE, CORRECTED, AGENT, BOOK, 0);
    AllVisible(AS_OF_THREE, None);
    AllVisible(AS_OF_THREE, Some(3));
    assert AS_OF_FOUR[..3] == AS_OF_THREE;
    hide Fold, Cutoff;
  }

  // ------------------------------------------------------------------ a malformed row poisons

  predicate WellFormed(s: State, row: Row) {
    match row
    case Stake(usd) => usd.Some?
    case Correction(_) => true
    case Traded(t) => Accepts(s.positions, t)
    case Baseline(_) => true
  }

  predicate Poisoned(s: State) {
    !s.known && (s.cycle.Some? ==> !s.cycle.value.valid)
  }

  lemma StepKnows(s: State, e: Entry, since: int)
    requires s.known || Poisoned(s)
    ensures var after := Step(s, e, since);
            (after.known <==> s.known && WellFormed(s, e.row)) &&
            (!after.known ==> Poisoned(after) && after.episodes == s.episodes)
  {}

  /** The balance is known exactly while every row of the agent on the book has been well formed. */
  lemma {:induction false} KnownIsWellFormed(log: seq<Entry>, agent: string, book: string, since: int)
    ensures var s := Fold(log, agent, book, since);
            (s.known || Poisoned(s)) &&
            (s.known <==> forall i :: 0 <= i < |log| && Mine(log[i], agent, book) ==>
                                        WellFormed(Fold(log[..i], agent, book, since), log[i].row))
  {
    if log != [] {
      var front := Front(log);
      KnownIsWellFormed(front, agent, book, since);
      forall i | 0 <= i < |front| ensures front[..i] == log[..i] {}
      StepKnows(Fold(front, agent, book, since), Last(log), since);
      assert log[..|front|] == front;
    }
  }

  /** A bad row poisons: from the first malformed row on, no open or later exposure is ever an episode. */
  lemma {:induction false} BadRowPoisons(log: seq<Entry>, agent: string, book: string, since: int, i: nat)
    requires i < |log| && Mine(log[i], agent, book) && !WellFormed(Fold(log[..i], agent, book, since), log[i].row)
    ensures Fold(log, agent, book, since).episodes == Fold(log[..i], agent, book, since).episodes
    ensures Poisoned(Fold(log, agent, book, since))
    decreases |log|
  {
    var front, e := Front(log), Last(log);
    KnownIsWellFormed(front, agent, book, since);
    StepKnows(Fold(front, agent, book, since), e, since);
    if i < |front| {
      assert front[..i] == log[..i];
      BadRowPoisons(front, agent, book, since, i);
    } else {
      assert log[..i] == front;
    }
  }

  // ------------------------------------------------------------------ what is held

  /** What a well-formed row moves: a settlement takes out what it settles. */
  function Moved(t: Trade): real {
    if t.settle then -(match t.quantity case Some(q) => q case None => 0.0)
    else match t.delta case Some(d) => d case None => 0.0
  }

  /** The net units of `key` the agent's rows on the book have moved. */
  function Net(log: seq<Entry>, agent: string, book: string, key: Key): real {
    if log == [] then 0.0
    else
      var e := log[|log| - 1];
      Net(log[..|log| - 1], agent, book, key) +
      if e.agent == agent && e.book == book && e.row.Traded? && e.row.trade.key == key then Moved(e.row.trade) else 0.0
  }

  lemma TradeHolds(s: State, t: Trade)
    requires Accepts(s.positions, t) && forall k :: k in s.positions ==> s.positions[k] > 0.0
    ensures var after := Held(s.positions, t);
            (forall k :: k in after ==> after[k] > 0.0) &&
            forall k :: HeldIn(after, k) == HeldIn(s.positions, k) + if k == t.key then Moved(t) else 0.0
  {}

  /** While every row is well formed the positions are the net units of the rows, none of them negative,
      so an exposure is open just while something is held. */
  lemma {:induction false} HeldIsNet(log: seq<Entry>, agent: string, book: string, since: int)
    requires Fold(log, agent, book, since).known
    ensures var s := Fold(log, agent, book, since);
            (forall k :: k in s.positions ==> s.positions[k] > 0.0) &&
            (forall k :: HeldIn(s.positions, k) == Net(log, agent, book, k))
  {
    if log != [] {
      var front, e := Front(log), Last(log);
      KnownIsWellFormed(front, agent, book, since);
      StepKnows(Fold(front, agent, book, since), e, since);
      HeldIsNet(front, agent, book, since);
      if Mine(e, agent, book) && e.row.Traded? {
        TradeHolds(Fold(front, agent, book, since), e.row.trade);
      }
    }
  }

  // ------------------------------------------------------------------ cash

  function Staked(row: Row): real {
    if row.Stake? && row.usd.Some? then row.usd.value else 0.0
  }

  function CashOf(row: Row): real {
    if row.Traded? && Readable(row.trade) then row.trade.cash.value else 0.0
  }

  function CorrectedBy(row: Row): real {
    if row.Correction? then row.cash else 0.0
  }

  /** An exposure that closed, whether or not it became an episode. */
  datatype Exposure = Exposure(cycle: Cycle, last: Entry)

  /** Where the agent's recorded cash went: stakes, corrections, the exposures that closed, and what moved
      outside any exposure. */
  datatype Purse = Purse(stakes: real, corrections: real, outside: real, closed: seq<Exposure>)

  function CycleAfter(s: State, e: Entry, t: Trade): Option<Cycle> {
    match Opened(s, e, t)
    case Some(c) => Some(Counted(c, s.positions, t))
    case None => None
  }

  function PurseAfter(p: Purse, s: State, e: Entry): Purse {
    var booked := p.(stakes := p.stakes + Staked(e.row), corrections := p.corrections + CorrectedBy(e.row));
    if !e.row.Traded? then booked
    else
      match CycleAfter(s, e, e.row.trade)
      case None => booked.(outside := p.outside + CashOf(e.row))
      case Some(c) => if Held(s.positions, e.row.trade) == map[] then booked.(closed := p.closed + [Exposure(c, e)])
      else booked
  }

  function PurseOf(log: seq<Entry>, agent: string, book: string, since: int): Purse {
    if log == [] then Purse(0.0, 0.0, 0.0, [])
    else
      var front := log[..|log| - 1];
      var p, e := PurseOf(front, agent, book, since), log[|log| - 1];
      if Mine(e, agent, book) then PurseAfter(p, Fold(front, agent, book, since), e) else p
  }

  function ClosedCash(closed: seq<Exposure>): real {
    if closed == [] then 0.0 else ClosedCash(closed[..|closed| - 1]) + closed[|closed| - 1].cycle.cash
  }

  function Emitted(closed: seq<Exposure>, since: int): seq<Episode> {
    if closed == [] then []
    else
      var x := closed[|closed| - 1];
      Emitted(closed[..|closed| - 1], since) +
      if Passes(x.cycle, since, x.last.at) then [EpisodeOf(x.cycle, x.last)] else []
  }

  function OpenCash(s: State): real {
    match s.cycle case Some(c) => c.cash case None => 0.0
  }

  lemma StepKeepsCash(p: Purse, s: State, e: Entry, since: int)
    requires s.known && WellFormed(s, e.row) && (s.cycle.Some? ==> s.positions != map[])
    requires s.balance == p.stakes + p.corrections + p.outside + ClosedCash(p.closed) + OpenCash(s)
    requires s.episodes == Emitted(p.closed, since)
    ensures var after, p' := Step(s, e, since), PurseAfter(p, s, e);
            after.balance == p'.stakes + p'.corrections + p'.outside + ClosedCash(p'.closed) + OpenCash(after)
  {}

  lemma EmittedAppend(closed: seq<Exposure>, x: Exposure, since: int)
    ensures Emitted(closed + [x], since)
         == Emitted(closed, since) + if Passes(x.cycle, since, x.last.at) then [EpisodeOf(x.cycle, x.last)] else []
  {}

  lemma StepKeepsEmitted(p: Purse, s: State, e: Entry, since: int)
    requires s.episodes == Emitted(p.closed, since)
    ensures Step(s, e, since).episodes == Emitted(PurseAfter(p, s, e).closed, since)
  {
    hide Held, Accepts, Counted, Opened, Emitted, Passes;
    if e.row.Traded? {
      var cycle := CycleAfter(s, e, e.row.trade);
      if cycle.Some? {
        EmittedAppend(p.closed, Exposure(cycle.value, e), since);
      }
      assert s.episodes + [] == s.episodes;
    }
  }

  /** Every episode is a closed exposure that passed, in order. */
  lemma {:induction false} EpisodesAreExposures(log: seq<Entry>, agent: string, book: string, since: int)
    ensures Fold(log, agent, book, since).episodes == Emitted(PurseOf(log, agent, book, since).closed, since)
  {
    if log != [] {
      EpisodesAreExposures(Front(log), agent, book, since);
      StepKeepsEmitted(PurseOf(Front(log), agent, book, since), Fold(Front(log), agent, book, since), Last(log), since);
    }
  }

  lemma {:induction false} CycleHolds(log: seq<Entry>, agent: string, book: string, since: int)
    ensures var s := Fold(log, agent, book, since); s.cycle.Some? ==> s.positions != map[]
  {
    if log != [] {
      CycleHolds(Front(log), agent, book, since);
    }
  }

  /** Cash is conserved: while every row is well formed the running balance is the net stakes, the
      corrections, the cash of every exposure that closed (emitted or rejected) or is open, and the cash
      that moved outside any. */
  lemma {:induction false} CashIsConserved(log: seq<Entry>, agent: string, book: string, since: int)
    requires Fold(log, agent, book, since).known
    ensures var s, p := Fold(log, agent, book, since), PurseOf(log, agent, book, since);
            s.balance == p.stakes + p.corrections + p.outside + ClosedCash(p.closed) + OpenCash(s)
  {
    if log != [] {
      var front, e := Front(log), Last(log);
      KnownIsWellFormed(front, agent, book, since);
      StepKnows(Fold(front, agent, book, since), e, since);
      CashIsConserved(front, agent, book, since);
      CycleHolds(front, agent, book, since);
      EpisodesAreExposures(front, agent, book, since);
      if Mine(e, agent, book) {
        StepKeepsCash(PurseOf(front, agent, book, since), Fold(front, agent, book, since), e, since);
      }
    }
  }

  // ------------------------------------------------------------------ a return is what the balance did

  /** Everything the agent's rows on the book say moved its balance. */
  function Balance(log: seq<Entry>, agent: string, book: string): real {
    if log == [] then 0.0
    else
      var e := log[|log| - 1];
      Balance(log[..|log| - 1], agent, book) +
      if e.agent == agent && e.book == book then Staked(e.row) + CorrectedBy(e.row) + CashOf(e.row) else 0.0
  }

  /** The agent's net stakes on the book. */
  function Flows(log: seq<Entry>, agent: string, book: string): real {
    if log == [] then 0.0
    else Flows(log[..|log| - 1], agent, book) +
         if Mine(log[|log| - 1], agent, book) then Staked(log[|log| - 1].row) else 0.0
  }

  function BalanceAt(log: seq<Entry>, agent: string, book: string, k: int): real {
    Balance(Visible(log, Some(k)), agent, book)
  }

  function FlowsAt(log: seq<Entry>, agent: string, book: string, k: int): real {
    Flows(Visible(log, Some(k)), agent, book)
  }

  lemma {:induction false} BalanceIsEverything(log: seq<Entry>, agent: string, book: string, since: int)
    ensures Fold(log, agent, book, since).balance == Balance(log, agent, book)
  {
    if log != [] {
      BalanceIsEverything(Front(log), agent, book, since);
    }
  }

  /** What the account brought to an exposure by a ledger position: the balance it opened on, and the net
      stakes since. */
  function BroughtBy(log: seq<Entry>, agent: string, book: string, first: int, k: int): real {
    BalanceAt(log, agent, book, first - 1) + FlowsAt(log, agent, book, k) - FlowsAt(log, agent, book, first - 1)
  }

  /** The most the account brought to an exposure at any of its rows. */
  ghost predicate IsCapital(log: seq<Entry>, agent: string, book: string, first: int, last: int, capital: real) {
    (forall k :: first <= k <= last ==> BroughtBy(log, agent, book, first, k) <= capital) &&
    exists k :: first <= k <= last && BroughtBy(log, agent, book, first, k) == capital
  }

  /** On the most the account brought to it, an episode returned what the balance gained, less stakes. */
  ghost predicate Justified(log: seq<Entry>, agent: string, book: string, ep: Episode) {
    exists capital: real :: Earns(log, agent, book, ep, capital)
  }

  ghost predicate Earns(log: seq<Entry>, agent: string, book: string, ep: Episode, capital: real) {
    IsCapital(log, agent, book, ep.first, ep.last, capital) &&
    capital >= BalanceAt(log, agent, book, ep.first - 1) > 0.0 &&
    ep.returned * capital ==
    BalanceAt(log, agent, book, ep.last) - BalanceAt(log, agent, book, ep.first - 1)
    - (FlowsAt(log, agent, book, ep.last) - FlowsAt(log, agent, book, ep.first - 1))
  }

  /** A valid exposure's capital, flows and cash against everything the rows say. */
  ghost predicate CountsAs(log: seq<Entry>, agent: string, book: string, c: Cycle, balance: real) {
    log != [] && IsCapital(log, agent, book, c.start, Last(log).seqNo, c.capital) &&
    c.opening == BalanceAt(log, agent, book, c.start - 1) > 0.0 && c.capital >= c.opening &&
    c.flows == Flows(log, agent, book) - FlowsAt(log, agent, book, c.start - 1) &&
    balance == c.opening + c.flows + c.cash
  }

  /** What an open, still valid exposure knows. */
  ghost predicate CycleCounts(log: seq<Entry>, agent: string, book: string, s: State) {
    s.cycle.Some? && s.cycle.value.valid ==> CountsAs(log, agent, book, s.cycle.value, s.balance)
  }

  lemma AppendHides(log: seq<Entry>, e: Entry, k: int)
    requires e.seqNo > k
    ensures Visible(log + [e], Some(k)) == Visible(log, Some(k))
  {}

  lemma SeesAll(log: seq<Entry>, k: int)
    requires Increasing(log) && (log != [] ==> Last(log).seqNo <= k)
    ensures Visible(log, Some(k)) == log
  {}

  lemma PastStays(log: seq<Entry>, e: Entry, agent: string, book: string, k: int)
    requires k < e.seqNo
    ensures BalanceAt(log + [e], agent, book, k) == BalanceAt(log, agent, book, k)
    ensures FlowsAt(log + [e], agent, book, k) == FlowsAt(log, agent, book, k)
  {}

  lemma CapitalStays(log: seq<Entry>, e: Entry, agent: string, book: string, first: int, last: int, capital: real)
    requires first <= last < e.seqNo && IsCapital(log, agent, book, first, last, capital)
    ensures IsCapital(log + [e], agent, book, first, last, capital)
  {
    hide BalanceAt, FlowsAt;
    PastStays(log, e, agent, book, first - 1);
    forall k | first <= k <= last
      ensures BroughtBy(log + [e], agent, book, first, k) == BroughtBy(log, agent, book, first, k) {
      PastStays(log, e, agent, book, k);
    }
    var k :| first <= k <= last && BroughtBy(log, agent, book, first, k) == capital;
    assert BroughtBy(log + [e], agent, book, first, k) == capital;
  }

  /** One more row of an open exposure: its capital is the larger of what it was and what was brought by now. */
  lemma CapitalGrows(log: seq<Entry>, e: Entry, agent: string, book: string, first: int, capital: real)
    requires log != [] && Increasing(log) && Increasing(log + [e]) && first <= Last(log).seqNo < e.seqNo
    requires IsCapital(log, agent, book, first, Last(log).seqNo, capital)
    ensures IsCapital(log + [e], agent, book, first, e.seqNo,
                      Max(capital, BroughtBy(log + [e], agent, book, first, e.seqNo)))
  {
    hide Balance, Flows, Net;
    var both, last := log + [e], Last(log).seqNo;
    CapitalStays(log, e, agent, book, first, last, capital);
    forall k | last <= k < e.seqNo
      ensures BroughtBy(both, agent, book, first, k) == BroughtBy(both, agent, book, first, last) {
      PastStays(log, e, agent, book, k);
      PastStays(log, e, agent, book, last);
      SeesAll(log, k);
      SeesAll(log, last);
    }
    hide BroughtBy;
    var most := Max(capital, BroughtBy(both, agent, book, first, e.seqNo));
    forall k | first <= k <= e.seqNo ensures BroughtBy(both, agent, book, first, k) <= most {
      if last <= k < e.seqNo {
        assert BroughtBy(both, agent, book, first, k) == BroughtBy(both, agent, book, first, last);
      }
    }
    var k :| first <= k <= last && BroughtBy(both, agent, book, first, k) == capital;
    assert first <= k <= e.seqNo && first <= e.seqNo <= e.seqNo;
  }

  /** What is true of a past episode stays true as the ledger grows. */
  lemma EarnsStays(log: seq<Entry>, e: Entry, agent: string, book: string, ep: Episode, capital: real)
    requires ep.first <= ep.last < e.seqNo && Earns(log, agent, book, ep, capital)
    ensures Earns(log + [e], agent, book, ep, capital)
  {
    PastStays(log, e, agent, book, ep.last);
    PastStays(log, e, agent, book, ep.first - 1);
    CapitalStays(log, e, agent, book, ep.first, ep.last, capital);
    hide IsCapital, BalanceAt, FlowsAt;
  }

  lemma JustifiedStays(log: seq<Entry>, e: Entry, agent: string, book: string, ep: Episode)
    requires ep.first <= ep.last < e.seqNo && Justified(log, agent, book, ep)
    ensures Justified(log + [e], agent, book, ep)
  {
    hide Earns;
    var capital :| Earns(log, agent, book, ep, capital);
    EarnsStays(log, e, agent, book, ep, capital);
  }

  lemma FlowsAppend(log: seq<Entry>, e: Entry, agent: string, book: string)
    ensures Flows(log + [e], agent, book) == Flows(log, agent, book) +
                                             if Mine(e, agent, book) then Staked(e.row) else 0.0
    ensures Balance(log + [e], agent, book)
         == Balance(log, agent, book) + if e.agent == agent && e.book == book
            then Staked(e.row) + CorrectedBy(e.row) + CashOf(e.row)
            else 0.0
  {
    assert (log + [e])[..|log|] == log;
  }

  /** One more row on an open exposure: it counts the row's flow, and cash where the row is its own. */
  lemma OpenStaysCounted(log: seq<Entry>, e: Entry, agent: string, book: string, c: Cycle, balance: real, next: Cycle,
                         cash: real)
    requires Increasing(log) && Increasing(log + [e]) && log != [] && c.start <= Last(log).seqNo < e.seqNo
    requires CountsAs(log, agent, book, c, balance)
    requires next.start == c.start && next.opening == c.opening && next.cash == c.cash + cash
    requires next.flows == c.flows + if Mine(e, agent, book) then Staked(e.row) else 0.0
    requires next.capital == Max(c.capital, c.opening + next.flows)
    ensures CountsAs(log + [e], agent, book, next, balance + cash + if Mine(e, agent, book) then Staked(e.row) else 0.0)
  {
    hide Flows, BalanceAt, FlowsAt, Mine, Staked, IsCapital, Visible, Increasing, BroughtBy;
    FlowsAppend(log, e, agent, book);
    PastStays(log, e, agent, book, c.start - 1);
    CapitalGrows(log, e, agent, book, c.start, c.capital);
    BroughtByNow(log + [e], agent, book, c.start);
  }

  /** By the last row all net stakes are in. */
  lemma BroughtByNow(log: seq<Entry>, agent: string, book: string, first: int)
    requires Increasing(log) && log != []
    ensures BroughtBy(log, agent, book, first, Last(log).seqNo) ==
            BalanceAt(log, agent, book, first - 1) + Flows(log, agent, book) - FlowsAt(log, agent, book, first - 1)
  {
    SeesAll(log, Last(log).seqNo);
  }

  /** No row has yet brought more than the capital counts. */
  lemma CapitalHoldsFlows(log: seq<Entry>, agent: string, book: string, c: Cycle, balance: real)
    requires CountsAs(log, agent, book, c, balance) && Increasing(log) && c.start <= Last(log).seqNo
    ensures c.opening + c.flows <= c.capital
  {
    hide Visible, Increasing, BroughtBy, BalanceAt, FlowsAt, Flows;
    BroughtByNow(log, agent, book, c.start);
    assert BroughtBy(log, agent, book, c.start, Last(log).seqNo) <= c.capital;
  }

  /** What `CycleAfter` counts: an exposure the row opened, or the one open before it. */
  lemma TradeCounts(log: seq<Entry>, s: State, e: Entry, agent: string, book: string, since: int)
    requires Increasing(log) && OrderKept(s, log, since) && (log != [] ==> Last(log).seqNo < e.seqNo)
    requires s.balance == Balance(log, agent, book) && CycleCounts(log, agent, book, s)
    requires Mine(e, agent, book) && e.row.Traded? && CycleAfter(s, e, e.row.trade).Some?
    ensures var c := CycleAfter(s, e, e.row.trade).value;
            c.valid ==> CountsAs(log + [e], agent, book, c, s.balance + CashOf(e.row))
  {
    hide Held, OrderKept, CountsAs, Moves;
    var t := e.row.trade;
    var c := Opened(s, e, t).value;
    if Counted(c, s.positions, t).valid {
      if Opened(s, e, t) == s.cycle {
        StartIsPast(s, log, since);
        CapitalHoldsFlows(log, agent, book, c, s.balance);
        OpenStaysCounted(log, e, agent, book, c, s.balance, Counted(c, s.positions, t), CashOf(e.row));
      } else {
        NewCounts(log, e, agent, book, c, s.balance, Counted(c, s.positions, t), CashOf(e.row));
      }
    }
  }

  lemma NewCounts(log: seq<Entry>, e: Entry, agent: string, book: string, c: Cycle, balance: real, next: Cycle,
                  cash: real)
    requires Increasing(log) && (log != [] ==> Last(log).seqNo < e.seqNo) && Mine(e, agent, book) && e.row.Traded?
    requires Increasing(log + [e])
    requires balance == Balance(log, agent, book) > 0.0 && next.start == e.seqNo &&
             next.opening == next.capital == balance
    requires next.flows == 0.0 && next.cash == cash
    ensures CountsAs(log + [e], agent, book, next, balance + cash)
  {
    hide Flows, FlowsAt, BalanceAt, Balance, Visible, BroughtBy, Increasing;
    FlowsAppend(log, e, agent, book);
    NowIsAt(log, e, agent, book);
    BroughtByNow(log + [e], agent, book, e.seqNo);
    assert BroughtBy(log + [e], agent, book, e.seqNo, e.seqNo) == balance;
  }

  lemma StepKeepsCount(log: seq<Entry>, s: State, e: Entry, agent: string, book: string, since: int)
    requires Increasing(log) && OrderKept(s, log, since) && (log != [] ==> Last(log).seqNo < e.seqNo)
    requires s.balance == Balance(log, agent, book) && CycleCounts(log, agent, book, s)
    ensures var after := if Mine(e, agent, book) then Step(s, e, since) else s;
            CycleCounts(log + [e], agent, book, after)
  {
    hide Held, Accepts, OrderKept, CountsAs, Counted, Opened, Passes;
    if e.row.Traded? && Mine(e, agent, book) {
      if CycleAfter(s, e, e.row.trade).Some? {
        TradeCounts(log, s, e, agent, book, since);
      }
    } else if s.cycle.Some? && s.cycle.value.valid {
      var c, after := s.cycle.value, if Mine(e, agent, book) then Step(s, e, since) else s;
      StartIsPast(s, log, since);
      CapitalHoldsFlows(log, agent, book, c, s.balance);
      if after.cycle.value.valid {
        OpenStaysCounted(log, e, agent, book, c, s.balance, after.cycle.value, 0.0);
      }
    }
  }

  lemma StartIsPast(s: State, log: seq<Entry>, since: int)
    requires OrderKept(s, log, since) && s.cycle.Some?
    ensures s.positions != map[] && log != [] && s.cycle.value.start <= Last(log).seqNo
  {}

  lemma NowIsAt(log: seq<Entry>, e: Entry, agent: string, book: string)
    requires Increasing(log) && (log != [] ==> Last(log).seqNo < e.seqNo)
    ensures BalanceAt(log + [e], agent, book, e.seqNo - 1) == Balance(log, agent, book)
    ensures FlowsAt(log + [e], agent, book, e.seqNo - 1) == Flows(log, agent, book)
  {
    AppendHides(log, e, e.seqNo - 1);
    SeesAll(log, e.seqNo - 1);
  }

  /** The balance at a closing row, and what its exposure counted. */
  lemma ClosingCounts(log: seq<Entry>, s: State, e: Entry, agent: string, book: string, since: int)
    requires Increasing(log + [e]) && Increasing(log) && OrderKept(s, log, since) &&
             (log != [] ==> Last(log).seqNo < e.seqNo)
    requires s.balance == Balance(log, agent, book) && CycleCounts(log, agent, book, s)
    requires Mine(e, agent, book) && e.row.Traded? && CycleAfter(s, e, e.row.trade).Some?
    ensures var c, both := CycleAfter(s, e, e.row.trade).value, log + [e];
            c.valid ==>
              IsCapital(both, agent, book, c.start, e.seqNo, c.capital) &&
              c.opening == BalanceAt(both, agent, book, c.start - 1) > 0.0 && c.capital >= c.opening &&
              c.flows == FlowsAt(both, agent, book, e.seqNo) - FlowsAt(both, agent, book, c.start - 1) &&
              BalanceAt(both, agent, book, e.seqNo) == c.opening + c.flows + c.cash
  {
    TradeCounts(log, s, e, agent, book, since);
    FlowsAppend(log, e, agent, book);
    SeesAll(log + [e], e.seqNo);
    hide Visible, OrderKept, CycleAfter, CycleCounts, Increasing, Flows, Balance, IsCapital;
  }

  lemma CountedIsEarned(log: seq<Entry>, c: Cycle, e: Entry, agent: string, book: string)
    requires IsCapital(log, agent, book, c.start, e.seqNo, c.capital)
    requires c.opening == BalanceAt(log, agent, book, c.start - 1) > 0.0 && c.capital >= c.opening
    requires c.flows == FlowsAt(log, agent, book, e.seqNo) - FlowsAt(log, agent, book, c.start - 1)
    requires BalanceAt(log, agent, book, e.seqNo) == c.opening + c.flows + c.cash
    ensures Earns(log, agent, book, EpisodeOf(c, e), c.capital)
  {
    hide BalanceAt, FlowsAt, IsCapital;
    var returned := c.cash / c.capital;
    assert returned * c.capital == c.cash;
  }

  lemma EmittedIsJustified(log: seq<Entry>, s: State, e: Entry, agent: string, book: string, since: int)
    requires Increasing(log + [e]) && Increasing(log) && OrderKept(s, log, since) &&
             (log != [] ==> Last(log).seqNo < e.seqNo)
    requires s.balance == Balance(log, agent, book) && CycleCounts(log, agent, book, s)
    requires Mine(e, agent, book) && e.row.Traded? && CycleAfter(s, e, e.row.trade).Some?
    requires Passes(CycleAfter(s, e, e.row.trade).value, since, e.at)
    ensures var c := CycleAfter(s, e, e.row.trade).value;
            Earns(log + [e], agent, book, EpisodeOf(c, e), c.capital)
  {
    hide CycleCounts, OrderKept, IsCapital, BalanceAt, FlowsAt, Balance, Earns, Increasing, Mine;
    ClosingCounts(log, s, e, agent, book, since);
    CountedIsEarned(log + [e], CycleAfter(s, e, e.row.trade).value, e, agent, book);
  }

  lemma StepEmits(s: State, e: Entry, since: int)
    ensures var after := Step(s, e, since).episodes;
            after == s.episodes ||
            (e.row.Traded? && CycleAfter(s, e, e.row.trade).Some? &&
             Passes(CycleAfter(s, e, e.row.trade).value, since, e.at) &&
             after == s.episodes + [EpisodeOf(CycleAfter(s, e, e.row.trade).value, e)])
  {}

  /** Every episode's return is what the balance did: over the rows from its first to its last, the gain
      of the account's recorded balance less net stakes, on the largest, over those rows, of the balance it
      opened on and the net stakes so far. */
  lemma {:induction false} ReturnsAreBalanceChanges(log: seq<Entry>, agent: string, book: string, since: int)
    requires Increasing(log)
    ensures forall ep :: ep in Fold(log, agent, book, since).episodes ==> Justified(log, agent, book, ep)
    ensures CycleCounts(log, agent, book, Fold(log, agent, book, since))
  {
    if log != [] {
      var front, e := Front(log), Last(log);
      var s := Fold(front, agent, book, since);
      assert front + [e] == log;
      ReturnsAreBalanceChanges(front, agent, book, since);
      FoldKeepsOrder(front, agent, book, since);
      BalanceIsEverything(front, agent, book, since);
      assert front != [] ==> Last(front).seqNo < e.seqNo;
      StepKeepsCount(front, s, e, agent, book, since);
      PastIsJustified(front, s, e, agent, book, since);
      hide OrderKept, CycleCounts, Step, Justified, Passes, CycleAfter;
      if Mine(e, agent, book) {
        StepEmits(s, e, since);
        if e.row.Traded? && CycleAfter(s, e, e.row.trade).Some? &&
           Passes(CycleAfter(s, e, e.row.trade).value, since, e.at) {
          EmittedIsJustified(front, s, e, agent, book, since);
        }
      }
    }
  }

  lemma PastIsJustified(log: seq<Entry>, s: State, e: Entry, agent: string, book: string, since: int)
    requires OrderKept(s, log, since) && (log != [] ==> Last(log).seqNo < e.seqNo)
    requires forall ep :: ep in s.episodes ==> Justified(log, agent, book, ep)
    ensures forall ep :: ep in s.episodes ==> Justified(log + [e], agent, book, ep)
  {
    forall ep | ep in s.episodes ensures Justified(log + [e], agent, book, ep) {
      JustifiedStays(log, e, agent, book, ep);
    }
  }
}
