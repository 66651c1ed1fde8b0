/** The gateway's frontier month as a small state machine (gateway/lib/gate.mjs `frontierMonth`,
    `frontierPrevious`, `frontierReserve`, `frontierSettle`), beside the history of calls its two stored
    rows must agree with. */
module Gateway {
  import opened Wrappers
  import opened Sums
  import opened CampaignStore

  /** One call: held at its worst case until it settles; `ident` names the House's commitment. */
  datatype Call = Call(ident: Option<Ident>, month: nat, worst: nat, cost: Option<nat>, at: int)

  datatype MonthRow = MonthRow(month: nat, spent: nat, inflight: nat)

  datatype Gate = Gate(row: Option<MonthRow>, previous: Option<MonthRow>, calls: seq<Call>)

  const CLOSED := Gate(None, None, [])

  function Charge(c: Call): nat {
    match c.cost
    case Some(cost) => cost
    case None => c.worst
  }

  function InMonths(lo: int, hi: int): Call -> int {
    (c: Call) => if lo <= c.month <= hi then Charge(c) else 0
  }

  function FromMonth(lo: int): Call -> int {
    (c: Call) => if lo <= c.month then Charge(c) else 0
  }

  // ------------------------------------------------------------------ what the gateway answers

  function FrontierMonth(g: Gate, month: nat): MonthRow {
    if g.row.Some? && g.row.value.month == month then g.row.value else MonthRow(month, 0, 0)
  }

  function FrontierPrevious(g: Gate, month: nat): Option<Final> {
    var last := if g.row.Some? && g.row.value.month < month then g.row else g.previous;
    if last.None? || last.value.month >= month then None
    else Some(Final(last.value.month, last.value.spent, Some(Max(last.value.spent - last.value.inflight, 0))))
  }

  function Reserve(g: Gate, month: nat, call: Call): Gate {
    var row := FrontierMonth(g, month);
    Gate(Some(MonthRow(month, row.spent + call.worst, row.inflight + call.worst)),
         if g.row.Some? && g.row.value.month != month then g.row else g.previous,
         g.calls + [call])
  }

  /** A call settles on its own month only: once the month has ended its worst case stays for good. */
  function Settle(g: Gate, month: nat, i: nat, cost: nat): Gate
    requires i < |g.calls|
  {
    var row := FrontierMonth(g, month);
    if g.calls[i].month != month || g.calls[i].cost.Some? || g.row.None? then g
    else
      Gate(Some(MonthRow(month, Max(row.spent - g.calls[i].worst + cost, 0), Max(row.inflight - g.calls[i].worst, 0))),
           g.previous,
           g.calls[i := g.calls[i].(cost := Some(cost))])
  }

  // ------------------------------------------------------------------ the rows are the history

  ghost predicate NoCallsIn(calls: seq<Call>, after: int, before: int) {
    forall i :: 0 <= i < |calls| ==> !(after < calls[i].month < before)
  }

  /** `row` is the latest month with calls and `previous` the one before it, each at what it was charged. */
  ghost predicate RowsAgree(g: Gate) {
    match g.row
    case None => g.calls == [] && g.previous.None?
    case Some(row) =>
      (forall i :: 0 <= i < |g.calls| ==> g.calls[i].month <= row.month) &&
      row.spent == Sum(g.calls, InMonths(row.month, row.month)) &&
      match g.previous
      case None => NoCallsIn(g.calls, -1, row.month)
      case Some(before) =>
        before.month < row.month && NoCallsIn(g.calls, before.month, row.month) &&
        before.spent == Sum(g.calls, InMonths(before.month, before.month))
  }

  ghost predicate UpTo(g: Gate, month: nat) {
    RowsAgree(g) && (g.row.Some? ==> g.row.value.month <= month)
  }

  lemma NothingOutside(calls: seq<Call>, lo: int, hi: int)
    requires NoCallsIn(calls, lo - 1, hi + 1)
    ensures Sum(calls, InMonths(lo, hi)) == 0
  {
    SumZero(calls, InMonths(lo, hi));
  }

  lemma ReserveKeepsRows(g: Gate, month: nat, call: Call)
    requires UpTo(g, month) && call.month == month && call.cost.None?
    ensures UpTo(Reserve(g, month, call), month)
  {
    SumAppend(g.calls, call, InMonths(month, month));
    if g.row.Some? {
      var row := g.row.value;
      if row.month < month {
        NothingOutside(g.calls, month, month);
        SumAppend(g.calls, call, InMonths(row.month, row.month));
      } else if g.previous.Some? {
        SumAppend(g.calls, call, InMonths(g.previous.value.month, g.previous.value.month));
      }
    } else {
      SumEmpty(InMonths(month, month));
    }
  }

  lemma SettleKeepsRows(g: Gate, month: nat, i: nat, cost: nat)
    requires UpTo(g, month) && i < |g.calls|
    ensures UpTo(Settle(g, month, i, cost), month)
    ensures Settle(g, month, i, cost).calls ==
            if g.calls[i].month == month && g.calls[i].cost.None? then g.calls[i := g.calls[i].(cost := Some(cost))]
            else g.calls
  {
    var call := g.calls[i];
    var settled := call.(cost := Some(cost));
    if call.month == month && call.cost.None? {
      SumUpdate(g.calls, i, settled, InMonths(month, month));
      var rest := g.calls[i := settled.(cost := Some(0))];
      SumUpdate(g.calls, i, settled.(cost := Some(0)), InMonths(month, month));
      SumNonNegative(rest, InMonths(month, month));
      if g.previous.Some? {
        SumUpdate(g.calls, i, settled, InMonths(g.previous.value.month, g.previous.value.month));
      }
    }
  }

  /** What the gateway reports is true: the month's spend is every charge made in it, and `previous` is
      the final of the latest earlier month that had any call. */
  lemma ReportsAreTrue(g: Gate, month: nat)
    requires UpTo(g, month)
    ensures FrontierMonth(g, month).spent == Sum(g.calls, InMonths(month, month))
    ensures forall i :: 0 <= i < |g.calls| ==> g.calls[i].month <= month
    ensures match FrontierPrevious(g, month)
            case None => NoCallsIn(g.calls, -1, month)
            case Some(final) =>
              final.month < month && NoCallsIn(g.calls, final.month, month) &&
              final.spent == Sum(g.calls, InMonths(final.month, final.month))
  {
    if g.row.None? {
      SumEmpty(InMonths(month, month));
    } else if g.row.value.month < month {
      NothingOutside(g.calls, month, month);
    }
  }

  // ------------------------------------------------------------------ what is still in flight

  /** What a month's unsettled calls hold. */
  function HeldIn(month: int): Call -> int {
    (c: Call) => if c.month == month && c.cost.None? then c.worst else 0
  }

  /** What a month's settled calls cost. */
  function SettledIn(month: int): Call -> int {
    (c: Call) => if c.month == month && c.cost.Some? then c.cost.value else 0
  }

  ghost predicate InFlightAgrees(g: Gate) {
    (g.row.Some? ==> g.row.value.inflight == Sum(g.calls, HeldIn(g.row.value.month))) &&
    (g.previous.Some? ==> g.previous.value.inflight == Sum(g.calls, HeldIn(g.previous.value.month)))
  }

  lemma NothingHeld(calls: seq<Call>, month: int)
    requires forall i :: 0 <= i < |calls| ==> calls[i].month != month
    ensures Sum(calls, HeldIn(month)) == 0
  {
    SumZero(calls, HeldIn(month));
  }

  lemma ReserveKeepsInFlight(g: Gate, month: nat, call: Call)
    requires UpTo(g, month) && InFlightAgrees(g) && call.month == month && call.cost.None?
    ensures InFlightAgrees(Reserve(g, month, call))
  {
    SumAppend(g.calls, call, HeldIn(month));
    if g.row.Some? {
      SumAppend(g.calls, call, HeldIn(g.row.value.month));
      if g.row.value.month < month {
        NothingHeld(g.calls, month);
      } else if g.previous.Some? {
        SumAppend(g.calls, call, HeldIn(g.previous.value.month));
      }
    } else {
      SumEmpty(HeldIn(month));
    }
  }

  lemma SettleKeepsInFlight(g: Gate, month: nat, i: nat, cost: nat)
    requires UpTo(g, month) && InFlightAgrees(g) && i < |g.calls|
    ensures InFlightAgrees(Settle(g, month, i, cost))
  {
    var call := g.calls[i];
    if call.month == month && call.cost.None? {
      var settled := call.(cost := Some(cost));
      SumUpdate(g.calls, i, settled, HeldIn(month));
      SumNonNegative(g.calls[i := settled], HeldIn(month));
      if g.previous.Some? {
        SumUpdate(g.calls, i, settled, HeldIn(g.previous.value.month));
      }
    }
  }

  lemma SpentIsSettledAndHeld(calls: seq<Call>, month: int)
    ensures Sum(calls, InMonths(month, month)) == Sum(calls, SettledIn(month)) + Sum(calls, HeldIn(month))
    ensures 0 <= Sum(calls, SettledIn(month))
  {
    SumPlus(calls, SettledIn(month), HeldIn(month), InMonths(month, month));
    SumNonNegative(calls, SettledIn(month));
  }

  /** The settled figure a reading is told is exactly what the month's settled calls cost, of the running month and of
      the last one: a call cut off before it settled stays held for good. */
  lemma SettledIsTrue(g: Gate, month: nat)
    requires UpTo(g, month) && InFlightAgrees(g)
    ensures var row := FrontierMonth(g, month); row.spent - row.inflight == Sum(g.calls, SettledIn(month))
    ensures FrontierPrevious(g, month).Some? ==>
              FrontierPrevious(g, month).value.settled ==
              Some(Sum(g.calls, SettledIn(FrontierPrevious(g, month).value.month)))
  {
    ReportsAreTrue(g, month);
    SpentIsSettledAndHeld(g.calls, month);
    if g.row.None? || g.row.value.month < month {
      NothingHeld(g.calls, month);
    }
    if FrontierPrevious(g, month).Some? {
      SpentIsSettledAndHeld(g.calls, FrontierPrevious(g, month).value.month);
    }
  }
}
