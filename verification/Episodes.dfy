/** Completed exposures of one agent on one book (league/episodes.py `completed`): the fold the loop
    computes, and what its episodes mean. Amounts are exact reals; a field that is missing, unreadable or
    not finite is None. */
module Episodes {
  import opened Wrappers

  type Key = string

  datatype Side = Buy | Sell | NoSide

  /** A fill or a settlement; `named` says some part of its instrument's key is there. */
  datatype Trade = Trade(settle: bool, side: Side, dust: bool, flat: bool, key: Key, named: bool,
                         cash: Option<real>, delta: Option<real>, quantity: Option<real>)

  /** A `book.baseline` row names the agents it repaired; the fold reads only the other three. */
  datatype Row = Stake(usd: Option<real>) | Correction(cash: real) | Traded(trade: Trade) |
                 Baseline(repaired: seq<string>)

  datatype Entry = Entry(seqNo: int, at: int, agent: string, book: string, row: Row)

  datatype Cycle = Cycle(start: int, openedAt: int, cash: real, opening: real, capital: real, flows: real,
                         peak: real, valid: bool, trades: nat)

  /** `returned` and `risk` are the cash and the peak risk over the capital. */
  datatype Episode = Episode(first: int, last: int, openedAt: int, closedAt: int, trades: nat, returned: real,
                             risk: real)

  datatype State = State(positions: map<Key, real>, balance: real, known: bool, cycle: Option<Cycle>,
                         episodes: seq<Episode>)

  const START := State(map[], 0.0, true, None, [])

  function Max(a: real, b: real): real {
    if a < b then b else a
  }

  // ------------------------------------------------------------------ one row

  predicate Buys(t: Trade) {
    !t.settle && t.side == Buy
  }

  predicate Closes(t: Trade) {
    t.settle || t.flat
  }

  function Closing(t: Trade): Option<real> {
    if t.settle then t.quantity
    else match t.delta case Some(d) => Some(-d) case None => None
  }

  function HeldIn(positions: map<Key, real>, key: Key): real {
    if key in positions then positions[key] else 0.0
  }

  predicate Readable(t: Trade) {
    t.named && t.cash.Some?
  }

  /** A position change the row states and its side does not contradict. */
  predicate Moves(t: Trade) {
    t.delta.Some? && !(Buys(t) && t.delta.value <= 0.0) && !(t.side == Sell && t.delta.value > 0.0)
  }

  /** The rows that raise nothing. */
  predicate Accepts(positions: map<Key, real>, t: Trade) {
    var held := HeldIn(positions, t.key);
    Readable(t) &&
    if Closes(t) then held > 0.0 && !Buys(t) && Closing(t) == Some(held)
    else Moves(t) && held + t.delta.value >= 0.0
  }

  function Held(positions: map<Key, real>, t: Trade): map<Key, real> {
    var held := HeldIn(positions, t.key);
    if Accepts(positions, t) then
      if Closes(t) || held + t.delta.value <= 0.0 then positions - {t.key} else positions[t.key := held + t.delta.value]
    else if Closes(t) then positions - {t.key}
    else if Buys(t) then positions[t.key := 1.0]
    else if Readable(t) && Moves(t) then positions[t.key := held + t.delta.value]
    else positions
  }

  /** A row that completes a trade: it leaves nothing of what was held. */
  predicate Completes(positions: map<Key, real>, t: Trade) {
    var held := HeldIn(positions, t.key);
    Accepts(positions, t) && held > 0.0 && (Closes(t) || held + t.delta.value <= 0.0)
  }

  function Opened(s: State, e: Entry, t: Trade): Option<Cycle> {
    if Buys(t) && s.positions == map[] && !t.dust
    then Some(Cycle(e.seqNo, e.at, 0.0, s.balance, s.balance, 0.0, 0.0, s.known && s.balance > 0.0, 0))
    else s.cycle
  }

  function Counted(c: Cycle, positions: map<Key, real>, t: Trade): Cycle {
    if !Accepts(positions, t) then c.(valid := false)
    else c.(cash := c.cash + t.cash.value, peak := Max(c.peak, -(c.cash + t.cash.value)),
         trades := c.trades + if Completes(positions, t) then 1 else 0)
  }

  predicate Passes(c: Cycle, since: int, at: int) {
    c.valid && c.start > since && c.trades > 0 && c.capital > 0.0 && at > c.openedAt
  }

  function EpisodeOf(c: Cycle, e: Entry): Episode
    requires c.capital > 0.0
  {
    Episode(c.start, e.seqNo, c.openedAt, e.at, c.trades, c.cash / c.capital, c.peak / c.capital)
  }

  function AfterTrade(s: State, e: Entry, t: Trade, since: int): State {
    var positions := Held(s.positions, t);
    var cycle := match Opened(s, e, t) case Some(c) => Some(Counted(c, s.positions, t)) case None => None;
    var balance := s.balance + if Readable(t) then t.cash.value else 0.0;
    var known := s.known && Accepts(s.positions, t);
    if cycle.Some? && positions == map[] then
      State(positions, balance, known, None,
            s.episodes + if Passes(cycle.value, since, e.at) then [EpisodeOf(cycle.value, e)] else [])
    else State(positions, balance, known, cycle, s.episodes)
  }

  function AfterStake(s: State, usd: Option<real>): State {
    match usd
    case None => s.(known := false, cycle := match s.cycle case Some(c) => Some(c.(valid := false)) case None => None)
    case Some(flow) =>
      s.(balance := s.balance + flow,
      cycle := match s.cycle
      case Some(c) => Some(c.(flows := c.flows + flow, capital := Max(c.capital, c.opening + c.flows + flow)))
      case None => None)
  }

  function AfterCorrection(s: State, cash: real): State {
    s.(balance := s.balance + cash, cycle := match s.cycle case Some(c) => Some(c.(valid := false)) case None => None)
  }

  function Step(s: State, e: Entry, since: int): State {
    match e.row
    case Stake(usd) => AfterStake(s, usd)
    case Correction(cash) => AfterCorrection(s, cash)
    case Traded(t) => AfterTrade(s, e, t, since)
    case Baseline(_) => s
  }

  predicate Mine(e: Entry, agent: string, book: string) {
    e.agent == agent && e.book == book
  }

  function Fold(log: seq<Entry>, agent: string, book: string, since: int): State {
    if log == [] then START
    else
      var before := Fold(log[..|log| - 1], agent, book, since);
      var e := log[|log| - 1];
      if Mine(e, agent, book) then Step(before, e, since) else before
  }

  predicate Restarts(e: Entry, agent: string, book: string) {
    e.book == book && match e.row
                      case Correction(_) => e.agent == agent
                      case Baseline(repaired) => agent in repaired
                      case _ => false
  }

  /** Old derived outcomes stay outside subsequent scoring: the agent's latest correction on the book, or
      the latest repair that named it (`evidence_cutoffs`). */
  function Cutoff(log: seq<Entry>, agent: string, book: string): int {
    if log == [] then 0
    else
      var e := log[|log| - 1];
      if Restarts(e, agent, book) then e.seqNo else Cutoff(log[..|log| - 1], agent, book)
  }

  ghost predicate Increasing(log: seq<Entry>) {
    forall i, j :: 0 <= i < j < |log| ==> log[i].seqNo < log[j].seqNo
  }

  predicate Upto(until: Option<int>, n: int) {
    until.Some? ==> n <= until.value
  }

  /** The rows up to `until`: what the loop reads before it breaks. */
  function Visible(log: seq<Entry>, until: Option<int>): seq<Entry> {
    if log == [] then []
    else if Upto(until, log[|log| - 1].seqNo) then Visible(log[..|log| - 1], until) + [log[|log| - 1]]
    else Visible(log[..|log| - 1], until)
  }

  function Later(a: int, b: int): int {
    if a < b then b else a
  }

  /** What `completed` answers. */
  function Answer(log: seq<Entry>, agent: string, book: string, since: int, until: Option<int>): seq<Episode> {
    Fold(Visible(log, until), agent, book, Later(since, Cutoff(log, agent, book))).episodes
  }

  // ------------------------------------------------------------------ the loop

  method CutoffOf(log: seq<Entry>, agent: string, book: string) returns (cutoff: int)
    ensures cutoff == Cutoff(log, agent, book)
  {
    cutoff := 0;
    for i := 0 to |log|
      invariant cutoff == Cutoff(log[..i], agent, book)
    {
      assert log[..i + 1][..i] == log[..i];
      if Restarts(log[i], agent, book) {
        cutoff := log[i].seqNo;
      }
    }
    assert log[..|log|] == log;
  }

  lemma {:induction false} AllVisible(log: seq<Entry>, until: Option<int>)
    requires forall j :: 0 <= j < |log| ==> Upto(until, log[j].seqNo)
    ensures Visible(log, until) == log
  {
    if log != [] {
      AllVisible(log[..|log| - 1], until);
    }
  }

  lemma {:induction false} NoneVisibleAfter(log: seq<Entry>, until: Option<int>, i: nat)
    requires Increasing(log) && i < |log| && !Upto(until, log[i].seqNo)
    ensures Visible(log, until) == Visible(log[..i], until)
  {
    var shorter := log[..|log| - 1];
    if i < |log| - 1 {
      NoneVisibleAfter(shorter, until, i);
      assert shorter[..i] == log[..i];
    }
  }

  /** One recorded fill or settlement, as the loop's body takes it. */
  method Take(s: State, e: Entry, t: Trade, since: int) returns (after: State)
    ensures after == AfterTrade(s, e, t, since)
  {
    var positions, balance, known, cycle, episodes := s.positions, s.balance, s.known, s.cycle, s.episodes;
    if Buys(t) && positions == map[] && !t.dust {
      cycle := Some(Cycle(e.seqNo, e.at, 0.0, balance, balance, 0.0, 0.0, known && balance > 0.0, 0));
    }
    var raised := !Readable(t);
    if !raised {
      balance := balance + t.cash.value;
      var held := HeldIn(positions, t.key);
      if Closes(t) {
        raised := held <= 0.0 || Buys(t) || Closing(t) != Some(held);
        if !raised {
          positions := positions - {t.key};
          if cycle.Some? {
            cycle := Some(cycle.value.(trades := cycle.value.trades + 1));
          }
        }
      } else if !Moves(t) {
        raised := true;
      } else {
        positions := positions[t.key := held + t.delta.value];
        if positions[t.key] < 0.0 {
          raised := true;
        } else if positions[t.key] <= 0.0 {
          positions := positions - {t.key};
          if cycle.Some? && held > 0.0 {
            cycle := Some(cycle.value.(trades := cycle.value.trades + 1));
          }
        }
      }
      if !raised && cycle.Some? {
        var cash := cycle.value.cash + t.cash.value;
        cycle := Some(cycle.value.(cash := cash, peak := Max(cycle.value.peak, -cash)));
      }
    }
    if raised {
      known := false;
      if cycle.Some? {
        cycle := Some(cycle.value.(valid := false));
      }
      if Closes(t) {
        positions := positions - {t.key};
      } else if Buys(t) {
        positions := positions[t.key := 1.0];
      }
    }
    assert positions == Held(s.positions, t);
    if cycle.Some? && positions == map[] {
      if Passes(cycle.value, since, e.at) {
        episodes := episodes + [EpisodeOf(cycle.value, e)];
      }
      cycle := None;
    }
    after := State(positions, balance, known, cycle, episodes);
  }

  method Completed(log: seq<Entry>, agent: string, book: string, since: int, until: Option<int>)
    returns (episodes: seq<Episode>)
    requires Increasing(log)
    ensures episodes == Answer(log, agent, book, since, until)
  {
    var cutoff := CutoffOf(log, agent, book);
    var floor := Later(since, cutoff);
    var s, i := START, 0;
    while i < |log|
      invariant 0 <= i <= |log|
      invariant forall j :: 0 <= j < i ==> Upto(until, log[j].seqNo)
      invariant s == Fold(log[..i], agent, book, floor)
    {
      var e := log[i];
      if !Upto(until, e.seqNo) {
        break;
      }
      assert log[..i + 1][..i] == log[..i];
      if Mine(e, agent, book) {
        match e.row
        case Stake(usd) => s := AfterStake(s, usd);
        case Correction(cash) => s := AfterCorrection(s, cash);
        case Traded(t) => s := Take(s, e, t, floor);
        case Baseline(_) =>
      }
      i := i + 1;
    }
    AllVisible(log[..i], until);
    if i < |log| {
      NoneVisibleAfter(log, until, i);
    } else {
      assert log[..i] == log;
    }
    episodes := s.episodes;
  }
}
