/** What an episode says of its rows besides its return: it spans exactly the time something was held, its risk
    is the most it had drawn, its trades are the rows that emptied a holding, and it is dated by its rows. */
module EpisodeRisks {
  import opened Wrappers
  import opened Episodes
  import opened EpisodeLaws

  // ------------------------------------------------------------------ what the rows say

  function NetAt(log: seq<Entry>, agent: string, book: string, key: Key, k: int): real {
    Net(Visible(log, Some(k)), agent, book, key)
  }

  /** What the account had drawn on an exposure by a ledger position: net stakes since it opened, less what
      its recorded balance gained. */
  function Drawn(log: seq<Entry>, agent: string, book: string, first: int): int -> real {
    (k: int) => FlowsAt(log, agent, book, k) - FlowsAt(log, agent, book, first - 1) -
      (BalanceAt(log, agent, book, k) - BalanceAt(log, agent, book, first - 1))
  }

  /** The largest value at a position, and never below nothing. */
  ghost predicate Largest(f: int -> real, first: int, last: int, peak: real) {
    peak >= 0.0 && (forall k :: first <= k <= last ==> f(k) <= peak) &&
    (peak == 0.0 || exists k :: first <= k <= last && f(k) == peak)
  }

  /** A row that leaves nothing of a holding. */
  ghost predicate Empties(before: seq<Entry>, e: Entry, agent: string, book: string) {
    Mine(e, agent, book) && e.row.Traded? && Net(before, agent, book, e.row.trade.key) > 0.0 &&
    Net(before, agent, book, e.row.trade.key) + Moved(e.row.trade) == 0.0
  }

  /** How many rows from `first` on emptied a holding. */
  ghost function Emptied(log: seq<Entry>, agent: string, book: string, first: int): nat {
    if log == [] then 0
    else
      var front, e := log[..|log| - 1], log[|log| - 1];
      Emptied(front, agent, book, first) + if first <= e.seqNo && Empties(front, e, agent, book) then 1 else 0
  }

  ghost predicate HoldsNothing(log: seq<Entry>, agent: string, book: string, k: int) {
    forall key :: NetAt(log, agent, book, key, k) == 0.0
  }

  ghost predicate HoldsSomething(log: seq<Entry>, agent: string, book: string, k: int) {
    exists key :: NetAt(log, agent, book, key, k) > 0.0
  }

  /** The agent's own purchase at that position and time. */
  predicate Began(log: seq<Entry>, agent: string, book: string, seqNo: int, at: int) {
    exists i :: 0 <= i < |log| && log[i].seqNo == seqNo && log[i].at == at && Mine(log[i], agent, book) &&
                log[i].row.Traded? && log[i].row.trade.side == Buy && !log[i].row.trade.settle && !log[i].row.trade.dust
  }

  predicate RowAt(log: seq<Entry>, agent: string, book: string, seqNo: int, at: int) {
    exists i :: 0 <= i < |log| && log[i].seqNo == seqNo && log[i].at == at && Mine(log[i], agent, book) &&
                log[i].row.Traded?
  }

  /** An exposure up to a position: it began with a purchase from nothing held, and something was held since. */
  ghost predicate Runs(log: seq<Entry>, agent: string, book: string, first: int, last: int, openedAt: int) {
    Began(log, agent, book, first, openedAt) && HoldsNothing(log, agent, book, first - 1) &&
    forall k :: first <= k < last ==> HoldsSomething(log, agent, book, k)
  }

  /** What an episode says of its rows. */
  ghost predicate Told(log: seq<Entry>, agent: string, book: string, ep: Episode) {
    Runs(log, agent, book, ep.first, ep.last, ep.openedAt) && HoldsNothing(log, agent, book, ep.last) &&
    RowAt(log, agent, book, ep.last, ep.closedAt) &&
    ep.trades == Emptied(Visible(log, Some(ep.last)), agent, book, ep.first) &&
    exists capital: real :: Risked(log, agent, book, ep, capital)
  }

  /** The risk is the most drawn, on the very capital the return is on. */
  ghost predicate Risked(log: seq<Entry>, agent: string, book: string, ep: Episode, capital: real) {
    Earns(log, agent, book, ep, capital) &&
    Largest(Drawn(log, agent, book, ep.first), ep.first, ep.last, ep.risk * capital)
  }

  // ------------------------------------------------------------------ an open exposure

  ghost predicate Follows(log: seq<Entry>, agent: string, book: string, c: Cycle) {
    log != [] && c.start <= Last(log).seqNo &&
    Runs(log, agent, book, c.start, Last(log).seqNo, c.openedAt) &&
    Largest(Drawn(log, agent, book, c.start), c.start, Last(log).seqNo, c.peak) &&
    c.trades == Emptied(log, agent, book, c.start)
  }

  ghost predicate CycleFollows(log: seq<Entry>, agent: string, book: string, s: State) {
    s.cycle.Some? && s.cycle.value.valid ==>
      s.known && Follows(log, agent, book, s.cycle.value) &&
      HoldsSomething(log, agent, book, Last(log).seqNo)
  }

  lemma LargestGrows(f: int -> real, g: int -> real, first: int, last: int, next: int, peak: real)
    requires first <= last < next && Largest(f, first, last, peak)
    requires forall k :: first <= k <= last ==> g(k) == f(k)
    requires forall k :: last < k < next ==> g(k) == f(last)
    ensures Largest(g, first, next, Max(peak, g(next)))
  {
    var most := Max(peak, g(next));
    forall k | first <= k <= next ensures g(k) <= most {
      if last < k < next {
        assert g(k) == f(last) <= peak;
      }
    }
    if most == peak && peak != 0.0 {
      var k :| first <= k <= last && f(k) == peak;
      assert g(k) == most;
    } else if most == g(next) {
      assert first <= next <= next;
    }
  }

  lemma NetStays(log: seq<Entry>, e: Entry, agent: string, book: string, k: int)
    requires k < e.seqNo
    ensures forall key :: NetAt(log + [e], agent, book, key, k) == NetAt(log, agent, book, key, k)
  {
    AppendHides(log, e, k);
    hide Net, Visible;
  }

  lemma NetNow(log: seq<Entry>, agent: string, book: string, k: int)
    requires Increasing(log) && (log != [] ==> Last(log).seqNo <= k)
    ensures forall key :: NetAt(log, agent, book, key, k) == Net(log, agent, book, key)
  {
    SeesAll(log, k);
    hide Net, Visible;
  }

  lemma NetAppend(log: seq<Entry>, e: Entry, agent: string, book: string, key: Key)
    ensures Net(log + [e], agent, book, key) ==
            Net(log, agent, book, key) +
            if Mine(e, agent, book) && e.row.Traded? && e.row.trade.key == key then Moved(e.row.trade) else 0.0
  {
    assert (log + [e])[..|log|] == log;
  }

  lemma EmptiedAppend(log: seq<Entry>, e: Entry, agent: string, book: string, first: int)
    ensures Emptied(log + [e], agent, book, first) ==
            Emptied(log, agent, book, first) + if first <= e.seqNo && Empties(log, e, agent, book) then 1 else 0
  {
    assert (log + [e])[..|log|] == log;
  }

  /** Nothing emptied a holding at or after a position the ledger has not come to. */
  lemma {:induction false} NoneEmptied(log: seq<Entry>, agent: string, book: string, first: int)
    requires Increasing(log) && (log != [] ==> Last(log).seqNo < first)
    ensures Emptied(log, agent, book, first) == 0
  {
    if log != [] {
      NoneEmptied(Front(log), agent, book, first);
    }
  }

  lemma RunsOn(log: seq<Entry>, e: Entry, agent: string, book: string, first: int, openedAt: int)
    requires log != [] && Increasing(log) && first <= Last(log).seqNo < e.seqNo
    requires Runs(log, agent, book, first, Last(log).seqNo, openedAt)
    requires HoldsSomething(log, agent, book, Last(log).seqNo)
    ensures Runs(log + [e], agent, book, first, e.seqNo, openedAt)
  {
    hide NetAt;
    var i :| 0 <= i < |log| && log[i].seqNo == first && log[i].at == openedAt && Mine(log[i], agent, book) &&
             log[i].row.Traded? && log[i].row.trade.side == Buy && !log[i].row.trade.settle && !log[i].row.trade.dust;
    assert (log + [e])[i] == log[i];
    NetStays(log, e, agent, book, first - 1);
    forall k | first <= k < e.seqNo ensures HoldsSomething(log + [e], agent, book, k) {
      NetStays(log, e, agent, book, k);
      if k >= Last(log).seqNo {
        NetNow(log, agent, book, k);
        NetNow(log, agent, book, Last(log).seqNo);
      }
      assert HoldsSomething(log, agent, book, k);
      var key :| NetAt(log, agent, book, key, k) > 0.0;
      assert NetAt(log + [e], agent, book, key, k) > 0.0;
    }
  }

  lemma DrawnStays(log: seq<Entry>, e: Entry, agent: string, book: string, first: int, k: int)
    requires first - 1 <= k < e.seqNo
    ensures Drawn(log + [e], agent, book, first)(k) == Drawn(log, agent, book, first)(k)
  {
    PastStays(log, e, agent, book, k);
    PastStays(log, e, agent, book, first - 1);
    hide BalanceAt, FlowsAt;
  }

  /** Between rows nothing is drawn. */
  lemma DrawnBetween(log: seq<Entry>, agent: string, book: string, first: int, k: int)
    requires log != [] && Increasing(log) && Last(log).seqNo <= k
    ensures Drawn(log, agent, book, first)(k) == Drawn(log, agent, book, first)(Last(log).seqNo)
  {
    SeesAll(log, k);
    SeesAll(log, Last(log).seqNo);
    hide Visible, Balance, Flows;
  }

  lemma DrawnGrows(log: seq<Entry>, e: Entry, agent: string, book: string, first: int, peak: real)
    requires log != [] && Increasing(log) && first <= Last(log).seqNo < e.seqNo
    requires Largest(Drawn(log, agent, book, first), first, Last(log).seqNo, peak)
    ensures Largest(Drawn(log + [e], agent, book, first), first, e.seqNo,
                    Max(peak, Drawn(log + [e], agent, book, first)(e.seqNo)))
  {
    var f, g := Drawn(log, agent, book, first), Drawn(log + [e], agent, book, first);
    forall k | first <= k < e.seqNo ensures g(k) == f(k) {
      DrawnStays(log, e, agent, book, first, k);
    }
    forall k | Last(log).seqNo < k < e.seqNo ensures g(k) == f(Last(log).seqNo) {
      DrawnBetween(log, agent, book, first, k);
      assert g(k) == f(k);
    }
    hide Largest, Drawn;
    LargestGrows(f, g, first, Last(log).seqNo, e.seqNo, peak);
  }

  /** What is drawn now is the exposure's cash, the other way round. */
  lemma DrawnIsCash(log: seq<Entry>, agent: string, book: string, c: Cycle)
    requires Increasing(log) && CountsAs(log, agent, book, c, Balance(log, agent, book))
    ensures log != [] && Drawn(log, agent, book, c.start)(Last(log).seqNo) == -c.cash
  {
    SeesAll(log, Last(log).seqNo);
    hide Visible, IsCapital, Balance, Flows;
  }

  // ------------------------------------------------------------------ one row more

  /** A row that is no trade of the exposure's draws nothing and moves nothing. */
  lemma OtherRowFollows(log: seq<Entry>, e: Entry, agent: string, book: string, c: Cycle, next: Cycle)
    requires Increasing(log) && Increasing(log + [e]) && log != [] && Last(log).seqNo < e.seqNo
    requires Follows(log, agent, book, c) && HoldsSomething(log, agent, book, Last(log).seqNo)
    requires !(Mine(e, agent, book) && e.row.Traded?)
    requires next == c.(flows := next.flows, capital := next.capital)
    requires CountsAs(log, agent, book, c, Balance(log, agent, book))
    requires CountsAs(log + [e], agent, book, next, Balance(log + [e], agent, book))
    ensures Follows(log + [e], agent, book, next) && HoldsSomething(log + [e], agent, book, e.seqNo)
  {
    hide Runs, CountsAs, NetAt, Drawn, Net, Balance, Increasing, Emptied, Empties;
    RunsOn(log, e, agent, book, c.start, c.openedAt);
    DrawnGrows(log, e, agent, book, c.start, c.peak);
    DrawnIsCash(log, agent, book, c);
    DrawnIsCash(log + [e], agent, book, next);
    EmptiedAppend(log, e, agent, book, c.start);
    NotEmptied(log, e, agent, book);
    SameHeld(log, e, agent, book);
  }

  lemma NotEmptied(log: seq<Entry>, e: Entry, agent: string, book: string)
    requires !(Mine(e, agent, book) && e.row.Traded?)
    ensures !Empties(log, e, agent, book)
  {}

  lemma SameHeld(log: seq<Entry>, e: Entry, agent: string, book: string)
    requires Increasing(log) && Increasing(log + [e]) && log != [] && Last(log).seqNo < e.seqNo
    requires !(Mine(e, agent, book) && e.row.Traded?) && HoldsSomething(log, agent, book, Last(log).seqNo)
    ensures HoldsSomething(log + [e], agent, book, e.seqNo)
  {
    NetNow(log, agent, book, Last(log).seqNo);
    NetNow(log + [e], agent, book, e.seqNo);
    hide NetAt, Net;
    var key :| NetAt(log, agent, book, key, Last(log).seqNo) > 0.0;
    NetAppend(log, e, agent, book, key);
    assert NetAt(log + [e], agent, book, key, e.seqNo) > 0.0;
  }

  /** A trade of an open exposure. */
  lemma OwnRowFollows(log: seq<Entry>, e: Entry, agent: string, book: string, c: Cycle, next: Cycle)
    requires Increasing(log) && Increasing(log + [e]) && log != [] && Last(log).seqNo < e.seqNo
    requires Follows(log, agent, book, c) && HoldsSomething(log, agent, book, Last(log).seqNo)
    requires next == c.(cash := next.cash, peak := Max(c.peak, -next.cash),
                     trades := c.trades + if Empties(log, e, agent, book) then 1 else 0)
    requires CountsAs(log + [e], agent, book, next, Balance(log + [e], agent, book))
    ensures Follows(log + [e], agent, book, next)
  {
    hide Runs, CountsAs, Drawn, Balance, Increasing, Emptied, Empties, HoldsSomething;
    RunsOn(log, e, agent, book, c.start, c.openedAt);
    DrawnGrows(log, e, agent, book, c.start, c.peak);
    DrawnIsCash(log + [e], agent, book, next);
    EmptiedAppend(log, e, agent, book, c.start);
  }

  /** A trade that opens an exposure. */
  lemma FirstRowFollows(log: seq<Entry>, e: Entry, agent: string, book: string, next: Cycle)
    requires Increasing(log) && Increasing(log + [e]) && (log != [] ==> Last(log).seqNo < e.seqNo)
    requires Mine(e, agent, book) && e.row.Traded? && Buys(e.row.trade) && !e.row.trade.dust
    requires forall key :: Net(log, agent, book, key) == 0.0
    requires next.start == e.seqNo && next.openedAt == e.at && next.trades == 0 && next.peak == Max(0.0, -next.cash)
    requires CountsAs(log + [e], agent, book, next, Balance(log + [e], agent, book))
    ensures Follows(log + [e], agent, book, next)
  {
    hide NetAt, Net, Drawn, Balance, CountsAs, Emptied, Empties, Increasing, Began, HoldsNothing, HoldsSomething, Mine;
    var both := log + [e];
    BeginsHere(log, e, agent, book);
    NoneEmptied(log, agent, book, e.seqNo);
    EmptiedAppend(log, e, agent, book, e.seqNo);
    NothingToEmpty(log, e, agent, book);
    DrawnIsCash(both, agent, book, next);
    assert Last(both) == e;
    LargestOfOne(Drawn(both, agent, book, e.seqNo), e.seqNo);
  }

  lemma BeginsHere(log: seq<Entry>, e: Entry, agent: string, book: string)
    requires Increasing(log) && (log != [] ==> Last(log).seqNo < e.seqNo)
    requires Mine(e, agent, book) && e.row.Traded? && Buys(e.row.trade) && !e.row.trade.dust
    requires forall key :: Net(log, agent, book, key) == 0.0
    ensures Began(log + [e], agent, book, e.seqNo, e.at) && HoldsNothing(log + [e], agent, book, e.seqNo - 1)
  {
    hide NetAt, Net;
    NetNow(log, agent, book, e.seqNo - 1);
    NetStays(log, e, agent, book, e.seqNo - 1);
    assert (log + [e])[|log|] == e;
  }

  lemma NothingToEmpty(log: seq<Entry>, e: Entry, agent: string, book: string)
    requires forall key :: Net(log, agent, book, key) == 0.0
    ensures !Empties(log, e, agent, book)
  {
    hide Net;
  }

  lemma LargestOfOne(f: int -> real, k: int)
    ensures Largest(f, k, k, Max(0.0, f(k)))
  {
    assert k <= k <= k;
  }

  // ------------------------------------------------------------------ the fold

  /** What `CycleAfter` follows of an accepted row. */
  lemma TradeFollows(log: seq<Entry>, s: State, e: Entry, agent: string, book: string, since: int)
    requires Increasing(log) && Increasing(log + [e]) && OrderKept(s, log, since)
    requires log != [] ==> Last(log).seqNo < e.seqNo
    requires s == Fold(log, agent, book, since) && CycleFollows(log, agent, book, s)
    requires Mine(e, agent, book) && e.row.Traded? && CycleAfter(s, e, e.row.trade).Some?
    requires CycleAfter(s, e, e.row.trade).value.valid
    ensures s.known && Accepts(s.positions, e.row.trade)
    ensures Follows(log + [e], agent, book, CycleAfter(s, e, e.row.trade).value)
  {
    hide Fold, OrderKept, CountsAs, Follows, HoldsSomething, Net, Balance, Increasing;
    var t, next := e.row.trade, CycleAfter(s, e, e.row.trade).value;
    NextCounts(log, s, e, agent, book, since);
    HeldIsNet(log, agent, book, since);
    CompletesIsEmpties(log, s, e, agent, book);
    if Opened(s, e, t) == s.cycle {
      StartIsPast(s, log, since);
      OwnRowFollows(log, e, agent, book, s.cycle.value, next);
    } else {
      forall key ensures Net(log, agent, book, key) == 0.0 {
        assert HeldIn(s.positions, key) == 0.0;
      }
      FirstRowFollows(log, e, agent, book, next);
    }
  }

  lemma NextCounts(log: seq<Entry>, s: State, e: Entry, agent: string, book: string, since: int)
    requires Increasing(log) && OrderKept(s, log, since) && (log != [] ==> Last(log).seqNo < e.seqNo)
    requires s == Fold(log, agent, book, since)
    requires Mine(e, agent, book) && e.row.Traded? && CycleAfter(s, e, e.row.trade).Some?
    requires CycleAfter(s, e, e.row.trade).value.valid
    ensures CountsAs(log + [e], agent, book, CycleAfter(s, e, e.row.trade).value, Balance(log + [e], agent, book))
  {
    hide Fold, OrderKept, CountsAs, CycleAfter, Balance, Earns, Justified, Increasing, CycleCounts;
    ReturnsAreBalanceChanges(log, agent, book, since);
    BalanceIsEverything(log, agent, book, since);
    TradeCounts(log, s, e, agent, book, since);
    FlowsAppend(log, e, agent, book);
  }

  /** A row completes a trade just where it empties the holding. */
  lemma CompletesIsEmpties(log: seq<Entry>, s: State, e: Entry, agent: string, book: string)
    requires Mine(e, agent, book) && e.row.Traded? && Accepts(s.positions, e.row.trade)
    requires forall k :: HeldIn(s.positions, k) == Net(log, agent, book, k)
    ensures Completes(s.positions, e.row.trade) <==> Empties(log, e, agent, book)
  {
    hide Net;
    assert HeldIn(s.positions, e.row.trade.key) == Net(log, agent, book, e.row.trade.key);
  }

  /** While the fold knows its positions, what it holds is what the rows hold. */
  lemma HeldIsHeld(log: seq<Entry>, agent: string, book: string, since: int)
    requires Increasing(log) && log != [] && Fold(log, agent, book, since).known
    ensures var s := Fold(log, agent, book, since);
            (s.positions == map[] <==> HoldsNothing(log, agent, book, Last(log).seqNo)) &&
            (s.positions != map[] <==> HoldsSomething(log, agent, book, Last(log).seqNo))
  {
    hide Fold, Net, NetAt;
    var s := Fold(log, agent, book, since);
    HeldIsNet(log, agent, book, since);
    NetNow(log, agent, book, Last(log).seqNo);
    if s.positions != map[] {
      var key :| key in s.positions;
      assert HeldIn(s.positions, key) > 0.0;
      assert NetAt(log, agent, book, key, Last(log).seqNo) > 0.0;
    } else {
      forall key ensures NetAt(log, agent, book, key, Last(log).seqNo) == 0.0 {
        assert HeldIn(s.positions, key) == 0.0;
      }
    }
  }

  lemma StepFollows(log: seq<Entry>, e: Entry, agent: string, book: string, since: int)
    requires Increasing(log) && Increasing(log + [e]) && (log != [] ==> Last(log).seqNo < e.seqNo)
    requires CycleFollows(log, agent, book, Fold(log, agent, book, since))
    ensures CycleFollows(log + [e], agent, book, Fold(log + [e], agent, book, since))
  {
    hide Fold, OrderKept, CountsAs, Follows, HoldsSomething, HoldsNothing, Net, Balance, Increasing, Held, Accepts,
      Counted, Opened, Passes;
    var s, after := Fold(log, agent, book, since), Fold(log + [e], agent, book, since);
    FoldAppend(log, e, agent, book, since);
    FoldKeepsOrder(log, agent, book, since);
    KnownIsWellFormed(log, agent, book, since);
    StepKnows(s, e, since);
    assert Last(log + [e]) == e;
    if after.cycle.Some? && after.cycle.value.valid {
      if Mine(e, agent, book) && e.row.Traded? {
        TradeFollows(log, s, e, agent, book, since);
      } else {
        StartIsPast(s, log, since);
        OtherCounts(log, e, agent, book, since);
        OtherRowFollows(log, e, agent, book, s.cycle.value, after.cycle.value);
      }
      CycleHolds(log + [e], agent, book, since);
      HeldIsHeld(log + [e], agent, book, since);
    }
  }

  lemma OtherCounts(log: seq<Entry>, e: Entry, agent: string, book: string, since: int)
    requires Increasing(log) && Increasing(log + [e])
    ensures forall rows :: rows == log || rows == log + [e] ==>
                             var s := Fold(rows, agent, book, since);
                             s.cycle.Some? && s.cycle.value.valid ==>
                               CountsAs(rows, agent, book, s.cycle.value, Balance(rows, agent, book))
  {
    hide Fold, CountsAs, Balance, Increasing;
    ReturnsAreBalanceChanges(log, agent, book, since);
    ReturnsAreBalanceChanges(log + [e], agent, book, since);
    BalanceIsEverything(log, agent, book, since);
    BalanceIsEverything(log + [e], agent, book, since);
  }

  // ------------------------------------------------------------------ an episode

  lemma RisksItsPeak(log: seq<Entry>, agent: string, book: string, c: Cycle, e: Entry, ep: Episode)
    requires c.capital > 0.0 && ep == EpisodeOf(c, e) && Earns(log, agent, book, ep, c.capital)
    requires Largest(Drawn(log, agent, book, c.start), c.start, e.seqNo, c.peak)
    ensures Risked(log, agent, book, ep, c.capital)
  {
    hide Drawn;
    RiskIsPeak(c.peak, c.capital);
    assert ep.risk * c.capital == c.peak;
  }

  lemma RiskIsPeak(peak: real, capital: real)
    requires capital > 0.0
    ensures peak / capital * capital == peak
  {}

  lemma EmittedIsTold(log: seq<Entry>, e: Entry, agent: string, book: string, since: int)
    requires Increasing(log) && Increasing(log + [e]) && (log != [] ==> Last(log).seqNo < e.seqNo)
    requires var s := Fold(log, agent, book, since);
             CycleFollows(log, agent, book, s) && Mine(e, agent, book) && e.row.Traded? &&
             CycleAfter(s, e, e.row.trade).Some? && Passes(CycleAfter(s, e, e.row.trade).value, since, e.at) &&
             Held(s.positions, e.row.trade) == map[]
    ensures var c := CycleAfter(Fold(log, agent, book, since), e, e.row.trade).value;
            Told(log + [e], agent, book, EpisodeOf(c, e))
  {
    hide Fold, OrderKept, CountsAs, HoldsSomething, HoldsNothing, Net, Balance, Increasing, Held, Accepts, CycleAfter,
      Earns, Runs, Largest, Emptied, CycleFollows;
    var s, both := Fold(log, agent, book, since), log + [e];
    var c := CycleAfter(s, e, e.row.trade).value;
    FoldKeepsOrder(log, agent, book, since);
    BalanceIsEverything(log, agent, book, since);
    ReturnsAreBalanceChanges(log, agent, book, since);
    TradeFollows(log, s, e, agent, book, since);
    EmittedIsJustified(log, s, e, agent, book, since);
    assert Last(both) == e && both[|log|] == e;
    RisksItsPeak(both, agent, book, c, e, EpisodeOf(c, e));
    SeesAll(both, e.seqNo);
    FoldAppend(log, e, agent, book, since);
    StepKnows(s, e, since);
    ClosesFlat(s, e, since);
    HeldIsHeld(both, agent, book, since);
    assert RowAt(both, agent, book, e.seqNo, e.at);
  }

  lemma ClosesFlat(s: State, e: Entry, since: int)
    requires e.row.Traded? && Held(s.positions, e.row.trade) == map[]
    ensures Step(s, e, since).positions == map[]
  {}

  lemma ToldStays(log: seq<Entry>, e: Entry, agent: string, book: string, ep: Episode)
    requires ep.first <= ep.last < e.seqNo && Told(log, agent, book, ep)
    ensures Told(log + [e], agent, book, ep)
  {
    hide NetAt, Earns, Drawn, Emptied;
    RunsStay(log, e, agent, book, ep);
    AppendHides(log, e, ep.last);
    var capital :| Risked(log, agent, book, ep, capital);
    EarnsStays(log, e, agent, book, ep, capital);
    forall k | ep.first <= k <= ep.last
      ensures Drawn(log + [e], agent, book, ep.first)(k) == Drawn(log, agent, book, ep.first)(k) {
      DrawnStays(log, e, agent, book, ep.first, k);
    }
    LargestSame(Drawn(log, agent, book, ep.first), Drawn(log + [e], agent, book, ep.first), ep.first, ep.last,
                ep.risk * capital);
    assert Risked(log + [e], agent, book, ep, capital);
  }

  lemma LargestSame(f: int -> real, g: int -> real, first: int, last: int, peak: real)
    requires Largest(f, first, last, peak) && forall k :: first <= k <= last ==> g(k) == f(k)
    ensures Largest(g, first, last, peak)
  {
    if peak != 0.0 {
      var k :| first <= k <= last && f(k) == peak;
      assert g(k) == peak;
    }
  }

  lemma RunsStay(log: seq<Entry>, e: Entry, agent: string, book: string, ep: Episode)
    requires ep.first <= ep.last < e.seqNo && Told(log, agent, book, ep)
    ensures Runs(log + [e], agent, book, ep.first, ep.last, ep.openedAt)
    ensures HoldsNothing(log + [e], agent, book, ep.last)
    ensures RowAt(log + [e], agent, book, ep.last, ep.closedAt)
  {
    hide NetAt, Risked, Emptied;
    var i :| 0 <= i < |log| && log[i].seqNo == ep.first && log[i].at == ep.openedAt && Mine(log[i], agent, book) &&
             log[i].row.Traded? && log[i].row.trade.side == Buy && !log[i].row.trade.settle && !log[i].row.trade.dust;
    assert (log + [e])[i] == log[i];
    var j :| 0 <= j < |log| && log[j].seqNo == ep.last && log[j].at == ep.closedAt && Mine(log[j], agent, book) &&
             log[j].row.Traded?;
    assert (log + [e])[j] == log[j];
    NetStays(log, e, agent, book, ep.first - 1);
    NetStays(log, e, agent, book, ep.last);
    forall k | ep.first <= k < ep.last ensures HoldsSomething(log + [e], agent, book, k) {
      NetStays(log, e, agent, book, k);
      assert HoldsSomething(log, agent, book, k);
      var key :| NetAt(log, agent, book, key, k) > 0.0;
      assert NetAt(log + [e], agent, book, key, k) > 0.0;
    }
  }

  lemma PastIsTold(log: seq<Entry>, e: Entry, agent: string, book: string, since: int)
    requires Increasing(log) && (log != [] ==> Last(log).seqNo < e.seqNo)
    requires forall ep :: ep in Fold(log, agent, book, since).episodes ==> Told(log, agent, book, ep)
    ensures forall ep :: ep in Fold(log, agent, book, since).episodes ==> Told(log + [e], agent, book, ep)
  {
    hide Fold, Told;
    FoldKeepsOrder(log, agent, book, since);
    forall ep | ep in Fold(log, agent, book, since).episodes ensures Told(log + [e], agent, book, ep) {
      ToldStays(log, e, agent, book, ep);
    }
  }

  /** Every episode is one exposure, told by the rows alone: it began with a purchase from nothing held, ended
      at the row that left nothing held, and something was held all between; its trades are the rows in
      between that emptied a holding; and its risk, on the same capital its return is on, is the most it had
      drawn: net stakes so far less what the recorded balance had gained. */
  lemma {:induction false} EpisodesAreTold(log: seq<Entry>, agent: string, book: string, since: int)
    requires Increasing(log)
    ensures forall ep :: ep in Fold(log, agent, book, since).episodes ==> Told(log, agent, book, ep)
    ensures CycleFollows(log, agent, book, Fold(log, agent, book, since))
  {
    hide Told, CycleFollows, Passes, CycleAfter, Held, Step;
    if log == [] {
      NothingFollows(agent, book, since);
    } else {
      var front, e := Front(log), Last(log);
      var s := Fold(front, agent, book, since);
      assert front + [e] == log;
      EpisodesAreTold(front, agent, book, since);
      StepFollows(front, e, agent, book, since);
      PastIsTold(front, e, agent, book, since);
      FoldAppend(front, e, agent, book, since);
      if Mine(e, agent, book) {
        EmitsFlat(s, e, since);
        if e.row.Traded? && CycleAfter(s, e, e.row.trade).Some? && Held(s.positions, e.row.trade) == map[] &&
           Passes(CycleAfter(s, e, e.row.trade).value, since, e.at) {
          EmittedIsTold(front, e, agent, book, since);
        }
      }
    }
  }

  lemma NothingFollows(agent: string, book: string, since: int)
    ensures CycleFollows([], agent, book, Fold([], agent, book, since)) && Fold([], agent, book, since).episodes == []
  {}

  lemma EmitsFlat(s: State, e: Entry, since: int)
    ensures var after := Step(s, e, since).episodes;
            after == s.episodes ||
            (e.row.Traded? && CycleAfter(s, e, e.row.trade).Some? && Held(s.positions, e.row.trade) == map[] &&
             Passes(CycleAfter(s, e, e.row.trade).value, since, e.at) &&
             after == s.episodes + [EpisodeOf(CycleAfter(s, e, e.row.trade).value, e)])
  {}
}
