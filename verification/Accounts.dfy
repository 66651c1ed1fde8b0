/** One agent's account as a fold over its ledger rows (league/book.py `_apply_account_fill`,
    league/accounting.py `_replay`, `apply_correction`). Decimal amounts are reals. */
module Accounts {
  type Key = string

  datatype Holding = Holding(quantity: real, cost: real)

  /** A fill's effect: the cash it moved, the units it moved and the fee inside the cash. */
  datatype Fill = Fill(key: Key, cash: real, position: real, fee: real)

  datatype Correction = Correction(cash: real, fees: real, realized: real, costs: map<Key, real>)

  datatype Row =
    | Stake(usd: real)
    | Filled(fill: Fill)
    | Settled(key: Key, payout: real)
    | Corrected(correction: Correction)

  datatype State = State(cash: real, fees: real, realized: real, staked: real, holdings: map<Key, Holding>)

  const OPENED := State(0.0, 0.0, 0.0, 0.0, map[])

  function HeldIn(a: State, key: Key): Holding {
    if key in a.holdings then a.holdings[key] else Holding(0.0, 0.0)
  }

  /** The cost a sale of `sold` units takes out: its share of the holding's. */
  function Basis(h: Holding, sold: real): real {
    if h.quantity > 0.0 then h.cost * sold / h.quantity else 0.0
  }

  function Keep(holdings: map<Key, Holding>, key: Key, h: Holding): map<Key, Holding> {
    if h.quantity <= 0.0 then holdings - {key} else holdings[key := h]
  }

  function Bought(h: Holding, f: Fill): Holding {
    Holding(h.quantity + f.position, h.cost - f.cash)
  }

  function Sold(h: Holding, f: Fill): Holding {
    Holding(h.quantity + f.position, h.cost - Basis(h, -f.position))
  }

  function AfterFill(a: State, f: Fill): State {
    var paid := a.(cash := a.cash + f.cash, fees := a.fees + f.fee);
    var h := HeldIn(a, f.key);
    if f.position == 0.0 then paid
    else if f.position > 0.0 then paid.(holdings := Keep(a.holdings, f.key, Bought(h, f)))
    else paid.(realized := a.realized + f.cash - Basis(h, -f.position), holdings := Keep(a.holdings, f.key, Sold(h, f)))
  }

  function AfterSettle(a: State, key: Key, payout: real): State {
    a.(cash := a.cash + payout,
    realized := if key in a.holdings then a.realized + payout - a.holdings[key].cost else a.realized,
    holdings := a.holdings - {key})
  }

  function CostDelta(c: Correction, key: Key): real {
    if key in c.costs then c.costs[key] else 0.0
  }

  function Recosted(holdings: map<Key, Holding>, c: Correction): map<Key, Holding> {
    map k | k in holdings :: holdings[k].(cost := holdings[k].cost + CostDelta(c, k))
  }

  function AfterCorrection(a: State, c: Correction): State {
    a.(cash := a.cash + c.cash, fees := a.fees + c.fees, realized := a.realized + c.realized,
    holdings := Recosted(a.holdings, c))
  }

  function Apply(a: State, row: Row): State {
    match row
    case Stake(usd) => a.(staked := a.staked + usd, cash := a.cash + usd)
    case Filled(fill) => AfterFill(a, fill)
    case Settled(key, payout) => AfterSettle(a, key, payout)
    case Corrected(correction) => AfterCorrection(a, correction)
  }

  function Replay(rows: seq<Row>): State {
    if rows == [] then OPENED else Apply(Replay(rows[..|rows| - 1]), rows[|rows| - 1])
  }

  /** A correction names only holdings the account has; the source raises `KeyError` on any other. */
  predicate Names(a: State, row: Row) {
    row.Corrected? ==> row.correction.costs.Keys <= a.holdings.Keys
  }

  /** The account itself, updated in place row by row. */
  class Account {
    var cash: real
    var fees: real
    var realized: real
    var staked: real
    var holdings: map<Key, Holding>

    function Now(): State
      reads this
    {
      State(cash, fees, realized, staked, holdings)
    }

    constructor ()
      ensures Now() == OPENED
    {
      cash, fees, realized, staked, holdings := 0.0, 0.0, 0.0, 0.0, map[];
    }

    method ApplyFill(f: Fill)
      modifies this
      ensures Now() == AfterFill(old(Now()), f)
    {
      cash := cash + f.cash;
      fees := fees + f.fee;
      if f.position == 0.0 {
        return;
      }
      var holding := HeldIn(Now(), f.key);
      if f.position > 0.0 {
        holding := Holding(holding.quantity + f.position, holding.cost - f.cash);
      } else {
        var basis := Basis(holding, -f.position);
        realized := realized + f.cash - basis;
        holding := Holding(holding.quantity + f.position, holding.cost - basis);
      }
      holdings := if holding.quantity <= 0.0 then holdings - {f.key} else holdings[f.key := holding];
    }

    method Settle(key: Key, payout: real)
      modifies this
      ensures Now() == AfterSettle(old(Now()), key, payout)
    {
      cash := cash + payout;
      if key in holdings {
        realized := realized + payout - holdings[key].cost;
      }
      holdings := holdings - {key};
    }

    method Recost(c: Correction) returns (ok: bool)
      modifies this`holdings
      ensures ok <==> c.costs.Keys <= old(holdings).Keys
      ensures ok ==> holdings == Recosted(old(holdings), c)
    {
      var left := c.costs.Keys;
      while left != {}
        invariant left <= c.costs.Keys && c.costs.Keys - left <= holdings.Keys
        invariant holdings.Keys == old(holdings).Keys
        invariant forall k :: k in holdings ==>
                                holdings[k] == if k in c.costs && k !in left
                                then old(holdings)[k].(cost := old(holdings)[k].cost + c.costs[k]) else old(holdings)[k]
        decreases |left|
      {
        var key :| key in left;
        if key !in holdings {
          return false;
        }
        holdings := holdings[key := holdings[key].(cost := holdings[key].cost + c.costs[key])];
        left := left - {key};
      }
      assert forall k :: k in holdings ==> holdings[k] == Recosted(old(holdings), c)[k];
      ok := true;
    }

    method ApplyCorrection(c: Correction) returns (ok: bool)
      modifies this
      ensures ok <==> c.costs.Keys <= old(holdings).Keys
      ensures ok ==> Now() == AfterCorrection(old(Now()), c)
    {
      cash, fees, realized := cash + c.cash, fees + c.fees, realized + c.realized;
      ok := Recost(c);
    }

    method ApplyRow(row: Row) returns (ok: bool)
      modifies this
      ensures ok <==> Names(old(Now()), row)
      ensures ok ==> Now() == Apply(old(Now()), row)
    {
      ok := true;
      match row
      case Stake(usd) => staked, cash := staked + usd, cash + usd;
      case Filled(fill) => ApplyFill(fill);
      case Settled(key, payout) => Settle(key, payout);
      case Corrected(correction) => ok := ApplyCorrection(correction);
    }
  }
}
