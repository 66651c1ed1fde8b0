/** Receipt repair (league/accounting.py `_correction`, `repair_legacy_kalshi_fills`): a correction row is
    the difference two replays make, and appending it must be the same as having written the true fill in
    the first place, whatever was corrected before it and whatever comes after. */
module Repairs {
  import opened Wrappers
  import opened Accounts

  predicate SameUnits(a: State, b: State) {
    a.staked == b.staked && a.holdings.Keys == b.holdings.Keys &&
    forall k :: k in a.holdings ==> a.holdings[k].quantity == b.holdings[k].quantity
  }

  /** A replacement changes a fill's price, cash and fee, never what it moved. */
  predicate Replaces(f: Fill, r: Fill) {
    f.key == r.key && f.position == r.position
  }

  predicate SameMoves(x: Row, y: Row) {
    x == y || (x.Corrected? && y.Corrected?) || (x.Filled? && y.Filled? && Replaces(x.fill, y.fill))
  }

  function DifferenceOf(after: State, before: State): Correction {
    Correction(after.cash - before.cash, after.fees - before.fees, after.realized - before.realized,
               map k | k in after.holdings && k in before.holdings && after.holdings[k].cost != before.holdings[k].cost
                 :: after.holdings[k].cost - before.holdings[k].cost)
  }

  // ------------------------------------------------------------------ the repair

  /** What `_correction` appends for the fill at `i` of a log: the true fill's replay less the log's own. */
  function CorrectionOf(rows: seq<Row>, i: nat, replacement: Fill): Correction
    requires i < |rows|
  {
    DifferenceOf(Replay(rows[i := Filled(replacement)]), Replay(rows))
  }

  // ------------------------------------------------------------------ quantities depend on quantities

  lemma ApplyKeepsUnits(a: State, b: State, x: Row, y: Row)
    requires SameUnits(a, b) && SameMoves(x, y)
    ensures SameUnits(Apply(a, x), Apply(b, y))
  {}

  /** Replays of logs that move the same units hold the same quantities, whatever their prices. */
  lemma {:induction false} ReplayKeepsUnits(xs: seq<Row>, ys: seq<Row>)
    requires |xs| == |ys| && forall k :: 0 <= k < |xs| ==> SameMoves(xs[k], ys[k])
    ensures SameUnits(Replay(xs), Replay(ys))
  {
    var n := |xs| - 1;
    if xs != [] {
      ReplayKeepsUnits(xs[..n], ys[..n]);
      ApplyKeepsUnits(Replay(xs[..n]), Replay(ys[..n]), xs[n], ys[n]);
    }
  }

  /** One agent's log and account, and the repair that runs on them. */
  class Desk {
    var rows: seq<Row>
    const account: Account

    ghost predicate Valid()
      reads this, account
    {
      account.Now() == Replay(rows) && forall k :: 0 <= k < |rows| ==> Names(Replay(rows[..k]), rows[k])
    }

    constructor ()
      ensures Valid() && rows == [] && fresh(account)
    {
      rows := [];
      account := new Account();
    }

    method Append(row: Row) returns (ok: bool)
      requires Valid()
      modifies this, account
      ensures ok <==> Names(old(account.Now()), row)
      ensures ok ==> Valid() && rows == old(rows) + [row]
      ensures !ok ==> rows == old(rows)
    {
      hide Apply, Names, Replay;
      ghost var was := rows;
      ok := account.ApplyRow(row);
      if ok {
        rows := rows + [row];
        ReplayAppend(was, row);
        forall k | 0 <= k < |rows| ensures Names(Replay(rows[..k]), rows[k]) {
          assert rows[..k] == was[..k];
        }
      }
    }

    /** Replay the log as it is and as it should have been. The source raises where a replay fails, the log
        does not reproduce the account, or the positions would change (None here): none of that happens. */
    method Correct(i: nat, replacement: Fill) returns (correction: Option<Correction>)
      requires Valid() && i < |rows| && rows[i].Filled? && Replaces(rows[i].fill, replacement)
      ensures correction == Some(CorrectionOf(rows, i, replacement))
    {
      hide Replay, Apply, DifferenceOf;
      var before := new Account();
      var after := new Account();
      ghost var fixed := rows[i := Filled(replacement)];
      NothingReplayed(rows, fixed);
      for k := 0 to |rows|
        invariant fresh(before) && fresh(after) && before != after && Valid()
        invariant before.Now() == Replay(rows[..k]) && after.Now() == Replay(fixed[..k])
      {
        ReplayKeepsUnits(rows[..k], fixed[..k]);
        NextRow(rows, k);
        NextRow(fixed, k);
        var ok := before.ApplyRow(rows[k]);
        var ok' := after.ApplyRow(if k == i then Filled(replacement) else rows[k]);
        if !ok || !ok' {
          return None;
        }
      }
      assert rows[..|rows|] == rows && fixed[..|rows|] == fixed;
      ReplayKeepsUnits(rows, fixed);
      hide Names;
      if before.Now() != account.Now() {
        return None;
      }
      if before.holdings.Keys != after.holdings.Keys || exists k ::
           k in before.holdings && before.holdings[k].quantity != after.holdings[k].quantity {
        return None;
      }
      correction := Some(DifferenceOf(after.Now(), before.Now()));
    }

    method Repair(i: nat, replacement: Fill) returns (ok: bool)
      requires Valid() && i < |rows| && rows[i].Filled? && Replaces(rows[i].fill, replacement)
      modifies this, account
      ensures Valid() && ok
      ensures rows == old(rows) + [Corrected(CorrectionOf(old(rows), i, replacement))]
    {
      var correction := Correct(i, replacement);
      ReplayKeepsUnits(rows, rows[i := Filled(replacement)]);
      ok := Append(Corrected(correction.value));
    }
  }

  lemma NextRow(rows: seq<Row>, k: nat)
    requires k < |rows|
    ensures Replay(rows[..k + 1]) == Apply(Replay(rows[..k]), rows[k])
  {
    assert rows[..k + 1][..k] == rows[..k];
  }

  lemma NothingReplayed(xs: seq<Row>, ys: seq<Row>)
    ensures Replay(xs[..0]) == Replay(ys[..0]) == OPENED
  {}

  // ------------------------------------------------------------------ the fold is affine in prices

  predicate HoldingsParallel(a': Holding, a: Holding, b': Holding, b: Holding) {
    a'.quantity == a.quantity == b'.quantity == b.quantity && a'.cost - a.cost == b'.cost - b.cost
  }

  predicate MapsParallel(a': map<Key, Holding>, a: map<Key, Holding>, b': map<Key, Holding>, b: map<Key, Holding>) {
    a'.Keys == a.Keys == b'.Keys == b.Keys && forall k :: k in a ==> HoldingsParallel(a'[k], a[k], b'[k], b[k])
  }

  /** `a'` is to `a` as `b'` is to `b`: the same units in all four, and the same difference in money. */
  predicate Parallel(a': State, a: State, b': State, b: State) {
    a'.staked == a.staked == b'.staked == b.staked &&
    a'.cash - a.cash == b'.cash - b.cash && a'.fees - a.fees == b'.fees - b.fees &&
    a'.realized - a.realized == b'.realized - b.realized &&
    MapsParallel(a'.holdings, a.holdings, b'.holdings, b.holdings)
  }

  lemma KeepStaysParallel(a': map<Key, Holding>, a: map<Key, Holding>, b': map<Key, Holding>, b: map<Key, Holding>,
                          key: Key, h': Holding, h: Holding, g': Holding, g: Holding)
    requires MapsParallel(a', a, b', b) && HoldingsParallel(h', h, g', g)
    ensures MapsParallel(Keep(a', key, h'), Keep(a, key, h), Keep(b', key, g'), Keep(b, key, g))
  {}

  lemma ProRata(a': real, a: real, b': real, b: real, sold: real, quantity: real)
    requires quantity > 0.0 && a' - a == b' - b
    ensures a' * sold / quantity - a * sold / quantity == b' * sold / quantity - b * sold / quantity
  {
    assert (a' - a) * sold == a' * sold - a * sold;
    assert (b' - b) * sold == b' * sold - b * sold;
    assert a' * sold / quantity - a * sold / quantity == (a' * sold - a * sold) / quantity;
    assert b' * sold / quantity - b * sold / quantity == (b' * sold - b * sold) / quantity;
  }

  lemma BasisKeepsParallel(a': Holding, a: Holding, b': Holding, b: Holding, sold: real)
    requires HoldingsParallel(a', a, b', b)
    ensures Basis(a', sold) - Basis(a, sold) == Basis(b', sold) - Basis(b, sold)
  {
    if a.quantity > 0.0 {
      ProRata(a'.cost, a.cost, b'.cost, b.cost, sold, a.quantity);
    }
  }

  lemma FillsKeepParallel(a': State, a: State, b': State, b: State, f: Fill, g: Fill)
    requires Parallel(a', a, b', b) && Replaces(f, g)
    ensures Parallel(AfterFill(a', f), AfterFill(a, f), AfterFill(b', g), AfterFill(b, g))
  {
    hide Basis, Keep, MapsParallel;
    var h', h, k', k := HeldIn(a', f.key), HeldIn(a, f.key), HeldIn(b', f.key), HeldIn(b, f.key);
    HeldParallel(a', a, b', b, f.key);
    if f.position > 0.0 {
      KeepStaysParallel(a'.holdings, a.holdings, b'.holdings, b.holdings, f.key,
                        Bought(h', f), Bought(h, f), Bought(k', g), Bought(k, g));
    } else if f.position < 0.0 {
      BasisKeepsParallel(h', h, k', k, -f.position);
      KeepStaysParallel(a'.holdings, a.holdings, b'.holdings, b.holdings, f.key,
                        Sold(h', f), Sold(h, f), Sold(k', g), Sold(k, g));
    }
  }

  lemma HeldParallel(a': State, a: State, b': State, b: State, key: Key)
    requires Parallel(a', a, b', b)
    ensures HoldingsParallel(HeldIn(a', key), HeldIn(a, key), HeldIn(b', key), HeldIn(b, key))
  {}

  lemma SettlesKeepParallel(a': State, a: State, b': State, b: State, key: Key, payout: real)
    requires Parallel(a', a, b', b)
    ensures Parallel(AfterSettle(a', key, payout), AfterSettle(a, key, payout), AfterSettle(b', key, payout),
                     AfterSettle(b, key, payout))
  {}

  lemma CorrectionsKeepParallel(a': State, a: State, b': State, b: State, c: Correction, d: Correction)
    requires Parallel(a', a, b', b)
    ensures Parallel(AfterCorrection(a', c), AfterCorrection(a, c), AfterCorrection(b', d), AfterCorrection(b, d))
  {}

  /** Rows that move the same units carry a difference along unchanged between two accounts. */
  lemma ApplyKeepsParallel(a': State, a: State, b': State, b: State, x: Row, y: Row)
    requires Parallel(a', a, b', b) && SameMoves(x, y)
    ensures Parallel(Apply(a', x), Apply(a, x), Apply(b', y), Apply(b, y))
  {
    match x {
      case Stake(usd) =>
      case Filled(f) =>
        hide Parallel, AfterFill;
          FillsKeepParallel(a', a, b', b, f, y.fill);
      case Settled(key, payout) =>
        hide Parallel, AfterSettle;
          SettlesKeepParallel(a', a, b', b, key, payout);
      case Corrected(c) =>
        hide Parallel, AfterCorrection;
          CorrectionsKeepParallel(a', a, b', b, c, y.correction);
    }
  }

  /** Replacing the same fill by the same fill shifts any two accounts of the same units alike. */
  lemma ReplacingIsParallel(a: State, b: State, f: Fill, r: Fill)
    requires SameUnits(a, b) && Replaces(f, r)
    ensures Parallel(AfterFill(a, r), AfterFill(a, f), AfterFill(b, r), AfterFill(b, f))
  {
    hide Basis, Keep;
    var h, k := HeldIn(a, f.key), HeldIn(b, f.key);
    assert MapsParallel(a.holdings, a.holdings, b.holdings, b.holdings);
    hide MapsParallel;
    if f.position > 0.0 {
      KeepStaysParallel(a.holdings, a.holdings, b.holdings, b.holdings, f.key, Bought(h, r), Bought(h, f),
                        Bought(k, r), Bought(k, f));
    } else if f.position < 0.0 {
      KeepStaysParallel(a.holdings, a.holdings, b.holdings, b.holdings, f.key, Sold(h, r), Sold(h, f), Sold(k, r),
                        Sold(k, f));
    }
  }

  lemma {:induction false} ReplacedReplaysAreParallel(xs: seq<Row>, ys: seq<Row>, i: nat, r: Fill)
    requires |xs| == |ys| && i < |xs| && xs[i] == ys[i] && xs[i].Filled? && Replaces(xs[i].fill, r)
    requires forall k :: 0 <= k < |xs| ==> SameMoves(xs[k], ys[k])
    ensures Parallel(Replay(xs[i := Filled(r)]), Replay(xs), Replay(ys[i := Filled(r)]), Replay(ys))
  {
    hide Parallel, SameUnits, AfterFill, AfterSettle, AfterCorrection;
    var n := |xs| - 1;
    var xs', ys' := xs[i := Filled(r)], ys[i := Filled(r)];
    if i == n {
      ReplayKeepsUnits(xs[..n], ys[..n]);
      assert xs'[..n] == xs[..n] && ys'[..n] == ys[..n];
      ReplacingIsParallel(Replay(xs[..n]), Replay(ys[..n]), xs[i].fill, r);
    } else {
      ReplacedReplaysAreParallel(xs[..n], ys[..n], i, r);
      assert xs'[..n] == xs[..n][i := Filled(r)] && ys'[..n] == ys[..n][i := Filled(r)];
      ApplyKeepsParallel(Replay(xs'[..n]), Replay(xs[..n]), Replay(ys'[..n]), Replay(ys[..n]), xs[n], ys[n]);
    }
  }

  // ------------------------------------------------------------------ repairs rewrite history

  datatype Event = Wrote(row: Row) | Repaired(i: nat, replacement: Fill)

  /** The log a book keeps, and beside it the log with each repaired fill written as it truly was and each
      correction row left empty. */
  datatype History = History(rows: seq<Row>, rewritten: seq<Row>, repaired: set<nat>)

  const EMPTY := History([], [], {})
  const NOTHING := Corrected(Correction(0.0, 0.0, 0.0, map[]))

  /** Only a fill, and each fill once: `repair_legacy_kalshi_fills` names its row after the fill. */
  predicate Possible(h: History, e: Event) {
    match e
    case Wrote(row) => !row.Corrected?
    case Repaired(i, r) => i < |h.rows| && h.rows[i].Filled? && Replaces(h.rows[i].fill, r) && i !in h.repaired
  }

  function After(h: History, e: Event): History {
    match e
    case Wrote(row) => History(h.rows + [row], h.rewritten + [row], h.repaired)
    case Repaired(i, r) =>
      if i < |h.rows| && i < |h.rewritten|
      then History(h.rows + [Corrected(CorrectionOf(h.rows, i, r))], h.rewritten[i := Filled(r)] + [NOTHING],
                   h.repaired + {i})
      else h
  }

  ghost predicate AllPossible(h: History, events: seq<Event>)
    decreases |events|
  {
    events != [] ==> Possible(h, events[0]) && AllPossible(After(h, events[0]), events[1..])
  }

  function Ran(h: History, events: seq<Event>): History
    decreases |events|
  {
    if events == [] then h else Ran(After(h, events[0]), events[1..])
  }

  /** The rewritten log moves the same units row by row, leaves unrepaired fills as they are, and replays
      to the same account. */
  ghost predicate Agrees(h: History) {
    |h.rows| == |h.rewritten| && Replay(h.rows) == Replay(h.rewritten) &&
    forall k :: 0 <= k < |h.rows| ==>
                  SameMoves(h.rows[k], h.rewritten[k]) && (h.rows[k].Corrected? ==> h.rewritten[k] == NOTHING) &&
                  (h.rows[k].Filled? && k !in h.repaired ==> h.rewritten[k] == h.rows[k])
  }

  lemma ReplayAppend(rows: seq<Row>, row: Row)
    ensures Replay(rows + [row]) == Apply(Replay(rows), row)
  {}

  lemma NothingChangesNothing(a: State)
    ensures Apply(a, NOTHING) == a
  {}

  /** Adding the difference of two parallel replays brings the one to the other. */
  lemma CorrectionCloses(before': State, before: State, after': State)
    requires Parallel(before', before, after', before)
    ensures AfterCorrection(before, DifferenceOf(before', before)) == after'
    ensures DifferenceOf(before', before).costs.Keys <= before.holdings.Keys
  {}

  /** The account a repair leaves is the rewritten log's. */
  lemma RepairReachesRewritten(rows: seq<Row>, rewritten: seq<Row>, i: nat, r: Fill)
    requires |rows| == |rewritten| && i < |rows| && rows[i] == rewritten[i] && rows[i].Filled? &&
             Replaces(rows[i].fill, r)
    requires forall k :: 0 <= k < |rows| ==> SameMoves(rows[k], rewritten[k])
    requires Replay(rows) == Replay(rewritten)
    ensures var c := Corrected(CorrectionOf(rows, i, r));
            Replay(rows + [c]) == Replay(rewritten[i := Filled(r)] + [NOTHING]) && Names(Replay(rows), c)
  {
    hide Replay, SameMoves, Parallel, AfterCorrection, DifferenceOf;
    ReplacedReplaysAreParallel(rows, rewritten, i, r);
    CorrectionCloses(Replay(rows[i := Filled(r)]), Replay(rows), Replay(rewritten[i := Filled(r)]));
    ReplayAppend(rows, Corrected(CorrectionOf(rows, i, r)));
    ReplayAppend(rewritten[i := Filled(r)], NOTHING);
    NothingChangesNothing(Replay(rewritten[i := Filled(r)]));
  }

  lemma EventKeepsAgreement(h: History, e: Event)
    requires Agrees(h) && Possible(h, e)
    ensures Agrees(After(h, e))
    ensures e.Repaired? ==> Names(Replay(h.rows), Corrected(CorrectionOf(h.rows, e.i, e.replacement)))
  {
    hide Replay, CorrectionOf;
    match e
    case Wrote(row) =>
      ReplayAppend(h.rows, row);
      ReplayAppend(h.rewritten, row);
    case Repaired(i, r) => RepairReachesRewritten(h.rows, h.rewritten, i, r);
  }

  lemma {:induction false} RunKeepsAgreement(h: History, events: seq<Event>)
    requires Agrees(h) && AllPossible(h, events)
    ensures Agrees(Ran(h, events))
    decreases |events|
  {
    if events != [] {
      EventKeepsAgreement(h, events[0]);
      RunKeepsAgreement(After(h, events[0]), events[1..]);
    }
  }

  function WithoutCorrections(rows: seq<Row>): seq<Row> {
    if rows == [] then []
    else
      var rest := WithoutCorrections(rows[..|rows| - 1]);
      if rows[|rows| - 1].Corrected? then rest else rest + [rows[|rows| - 1]]
  }

  lemma {:induction false} EmptyCorrectionsDrop(rows: seq<Row>)
    requires forall k :: 0 <= k < |rows| && rows[k].Corrected? ==> rows[k] == NOTHING
    ensures Replay(WithoutCorrections(rows)) == Replay(rows)
  {
    if rows != [] {
      var n := |rows| - 1;
      EmptyCorrectionsDrop(rows[..n]);
      NothingChangesNothing(Replay(rows[..n]));
      ReplayAppend(WithoutCorrections(rows[..n]), rows[n]);
    }
  }

  /** Repairs rewrite history. Over any mix of rows and repairs, each fill repaired at most once, the log
      with its correction rows replays to exactly the account (cash, fees, realized, staked and each
      holding's quantity and cost) of the log that never had them and whose repaired fills were written as
      the receipts say. */
  lemma RepairsRewriteHistory(events: seq<Event>)
    requires AllPossible(EMPTY, events)
    ensures Replay(Ran(EMPTY, events).rows) == Replay(WithoutCorrections(Ran(EMPTY, events).rewritten))
  {
    RunKeepsAgreement(EMPTY, events);
    EmptyCorrectionsDrop(Ran(EMPTY, events).rewritten);
  }

  // ------------------------------------------------------------------ a sale the ledger never recorded

  /** An agent's account beside the book's baseline (`repair_paper_phantoms`). */
  datatype Pool = Pool(agent: State, cash: real, units: map<Key, real>)

  function BaselineUnits(p: Pool, key: Key): real {
    if key in p.units then p.units[key] else 0.0
  }

  /** The venue filled a sale of exactly what the agent still holds and the baseline is short of. */
  predicate IsPhantom(p: Pool, sale: Fill) {
    sale.key in p.agent.holdings && sale.key in p.units && p.agent.holdings[sale.key].quantity > 0.0 &&
    sale.position == -p.agent.holdings[sale.key].quantity == p.units[sale.key]
  }

  function AfterPhantomRepair(p: Pool, sale: Fill): Pool {
    Pool(AfterFill(p.agent, sale), p.cash - sale.cash, p.units - {sale.key})
  }

  /** The recovered sale moves cash and units between the agent and the baseline and changes neither in
      total; the agent no longer holds the position and has realized the sale over its whole cost. */
  lemma PhantomRepairConserves(p: Pool, sale: Fill)
    requires IsPhantom(p, sale)
    ensures var after := AfterPhantomRepair(p, sale);
            after.agent.cash + after.cash == p.agent.cash + p.cash &&
            (forall k :: HeldIn(after.agent, k).quantity + BaselineUnits(after, k) ==
                         HeldIn(p.agent, k).quantity + BaselineUnits(p, k)) &&
            sale.key !in after.agent.holdings && sale.key !in after.units &&
            after.agent.realized == p.agent.realized + sale.cash - p.agent.holdings[sale.key].cost
  {
    var h := p.agent.holdings[sale.key];
    assert h.cost * h.quantity / h.quantity == h.cost;
    assert Basis(h, -sale.position) == h.cost;
  }
}
