/** The reconciliation as it runs (league/account_activity.py `classify`): one loop that routes every
    activity, and the passes after it, each held to its figure in `Reconcile`. */
module Classifier {
  import opened Wrappers
  import opened Totals
  import opened Reconcile

  /** `sum(... for row in rows)` */
  method Added<T>(rows: seq<T>, weight: T -> real) returns (total: real)
    ensures total == Total(rows, weight)
  {
    total := 0.0;
    for i := 0 to |rows|
      invariant total == TotalTo(rows, weight, i)
    {
      total := total + weight(rows[i]);
    }
  }

  method NonfillOf(b: Book, p: Position) returns (nonfill: real)
    ensures nonfill == Nonfill(b, p)
  {
    var net := Added(b.fills, NetOfPosition(b, p.pid));
    nonfill := p.cash - net;
  }

  /** What one pass over the activities gathers. */
  datatype Tally = Tally(fees: real, crypto: real, interest: real, misc: real, stray: real, external: real,
                         shares: real,
                         events: real, filled: map<int, real>, charged: map<int, real>, blocks: bool)

  ghost predicate Sums(t: Tally, acts: seq<Activity>, b: Book, now: int, n: nat)
    requires n <= |acts|
  {
    t.fees == TotalTo(acts, InLane(b, now, ToFees), n) && t.crypto == TotalTo(acts, InLane(b, now, ToCrypto), n) &&
    t.interest == TotalTo(acts, InLane(b, now, ToInterest), n) && t.misc == TotalTo(acts, InLane(b, now, ToMisc), n) &&
    t.stray == TotalTo(acts, InLane(b, now, Stray), n) &&
    t.external == TotalTo(acts, InLane(b, now, ExternalCharge), n) &&
    t.shares == TotalTo(acts, InLane(b, now, Shares), n) && t.events == TotalTo(acts, InLane(b, now, Assigned), n)
  }

  ghost predicate PerOrder(t: Tally, acts: seq<Activity>, b: Book, now: int, n: nat)
    requires n <= |acts|
  {
    forall oid ::
      AmountAt(t.filled, oid) == TotalTo(acts, InLane(b, now, Own(oid)), n) &&
      AmountAt(t.charged, oid) == TotalTo(acts, InLane(b, now, Charged(oid)), n)
  }

  predicate AnyBlocks(acts: seq<Activity>, b: Book, now: int, n: nat)
    requires n <= |acts|
  {
    exists i :: 0 <= i < n && LaneOf(acts[i], b, now) == Blocks
  }

  /** Where one activity's cash goes; None where it cannot be read. */
  function Routed(t: Tally, lane: Lane, cash: real): Option<Tally> {
    match lane
    case Left => Some(t)
    case Unreadable => None
    case Blocks => Some(t.(blocks := true))
    case Own(oid) => Some(t.(filled := t.filled[oid := AmountAt(t.filled, oid) + cash]))
    case Charged(oid) => Some(t.(charged := t.charged[oid := AmountAt(t.charged, oid) + cash]))
    case ExternalCharge => Some(t.(external := t.external + cash))
    case Shares => Some(t.(shares := t.shares + cash))
    case Assigned => Some(t.(events := t.events + cash))
    case Posted => Some(t)
    case ToFees => Some(t.(fees := t.fees + cash))
    case ToCrypto => Some(t.(crypto := t.crypto + cash))
    case ToInterest => Some(t.(interest := t.interest + cash))
    case ToMisc => Some(t.(misc := t.misc + cash))
    case Stray => Some(t.(stray := t.stray + cash))
  }

  lemma NextInLane(acts: seq<Activity>, b: Book, now: int, n: nat, lane: Lane)
    requires n < |acts|
    ensures TotalTo(acts, InLane(b, now, lane), n + 1)
         == TotalTo(acts, InLane(b, now, lane), n) + if LaneOf(acts[n], b, now) == lane then CashOf(acts[n]) else 0.0
  {}

  lemma RoutedSums(t: Tally, acts: seq<Activity>, b: Book, now: int, n: nat)
    requires n < |acts| && Sums(t, acts, b, now, n) && Routed(t, LaneOf(acts[n], b, now), CashOf(acts[n])).Some?
    ensures Sums(Routed(t, LaneOf(acts[n], b, now), CashOf(acts[n])).value, acts, b, now, n + 1)
  {
    hide LaneOf, CashOf, TotalTo, InLane;
    NextInLane(acts, b, now, n, ToFees);
    NextInLane(acts, b, now, n, ToCrypto);
    NextInLane(acts, b, now, n, ToInterest);
    NextInLane(acts, b, now, n, ToMisc);
    NextInLane(acts, b, now, n, Stray);
    NextInLane(acts, b, now, n, ExternalCharge);
    NextInLane(acts, b, now, n, Shares);
    NextInLane(acts, b, now, n, Assigned);
  }

  lemma RoutedPerOrder(t: Tally, acts: seq<Activity>, b: Book, now: int, n: nat)
    requires n < |acts| && PerOrder(t, acts, b, now, n) && Routed(t, LaneOf(acts[n], b, now), CashOf(acts[n])).Some?
    ensures PerOrder(Routed(t, LaneOf(acts[n], b, now), CashOf(acts[n])).value, acts, b, now, n + 1)
  {
    hide LaneOf, CashOf, TotalTo, InLane;
    var after := Routed(t, LaneOf(acts[n], b, now), CashOf(acts[n])).value;
    forall oid
      ensures AmountAt(after.filled, oid) == TotalTo(acts, InLane(b, now, Own(oid)), n + 1) &&
              AmountAt(after.charged, oid) == TotalTo(acts, InLane(b, now, Charged(oid)), n + 1)
    {
      NextInLane(acts, b, now, n, Own(oid));
      NextInLane(acts, b, now, n, Charged(oid));
    }
  }

  lemma RoutedBlocks(t: Tally, acts: seq<Activity>, b: Book, now: int, n: nat)
    requires n < |acts| && t.blocks == AnyBlocks(acts, b, now, n) &&
             Routed(t, LaneOf(acts[n], b, now), CashOf(acts[n])).Some?
    ensures Routed(t, LaneOf(acts[n], b, now), CashOf(acts[n])).value.blocks == AnyBlocks(acts, b, now, n + 1)
  {}

  lemma NothingGathered(t: Tally, acts: seq<Activity>, b: Book, now: int)
    requires t == Tally(0.0, 0.0, 0.0, 0.0, 0.0, 0.0, 0.0, 0.0, map[], map[], false)
    ensures Sums(t, acts, b, now, 0) && PerOrder(t, acts, b, now, 0) && t.blocks == AnyBlocks(acts, b, now, 0)
  {}

  /** The loop: None where an activity cannot be read. */
  method Gather(acts: seq<Activity>, b: Book, now: int) returns (tally: Option<Tally>)
    ensures tally.None? <==> exists i :: 0 <= i < |acts| && LaneOf(acts[i], b, now) == Unreadable
    ensures tally.Some? ==> Sums(tally.value, acts, b, now, |acts|) && PerOrder(tally.value, acts, b, now, |acts|) &&
                            tally.value.blocks == AnyBlocks(acts, b, now, |acts|)
  {
    hide LaneOf, CashOf, Sums, PerOrder, AnyBlocks;
    var t := Tally(0.0, 0.0, 0.0, 0.0, 0.0, 0.0, 0.0, 0.0, map[], map[], false);
    NothingGathered(t, acts, b, now);
    for i := 0 to |acts|
      invariant Sums(t, acts, b, now, i) && PerOrder(t, acts, b, now, i) && t.blocks == AnyBlocks(acts, b, now, i)
      invariant forall j :: 0 <= j < i ==> LaneOf(acts[j], b, now) != Unreadable
    {
      var routed := Routed(t, LaneOf(acts[i], b, now), CashOf(acts[i]));
      if routed.None? {
        return None;
      }
      RoutedSums(t, acts, b, now, i);
      RoutedPerOrder(t, acts, b, now, i);
      RoutedBlocks(t, acts, b, now, i);
      t := routed.value;
    }
    tally := Some(t);
  }

  /** The book's finished orders against the broker's fills, and their fees once every filled leg's has
      posted: what is unreconciled, what goes to Other's fees, and each position's own. */
  method CheckOrders(acts: seq<Activity>, b: Book, now: int, t: Tally)
    returns (unreconciled: real, fees: real, feesByPid: map<int, real>)
    requires PerOrder(t, acts, b, now, |acts|)
    ensures unreconciled == Total(b.orders, DifferenceAt(acts, b, now))
    ensures fees == Total(b.orders, CorrectionToFees(acts, b, now))
    ensures forall pid :: AmountAt(feesByPid, pid) == Total(b.orders, CorrectionTo(acts, b, now, pid))
  {
    hide IsCharged, Correction, PidsOf, PerOrder, Differs, TotalTo;
    unreconciled, fees, feesByPid := 0.0, 0.0, map[];
    NoOrders(acts, b, now);
    for i := 0 to |b.orders|
      invariant unreconciled == TotalTo(b.orders, DifferenceAt(acts, b, now), i)
      invariant fees == TotalTo(b.orders, CorrectionToFees(acts, b, now), i)
      invariant forall pid :: AmountAt(feesByPid, pid) == TotalTo(b.orders, CorrectionTo(acts, b, now, pid), i)
    {
      var o := b.orders[i];
      var difference, correction := CheckOrder(acts, b, now, t, o);
      unreconciled := unreconciled + difference;
      NextTotal(b.orders, DifferenceAt(acts, b, now), i);
      NextTotal(b.orders, CorrectionToFees(acts, b, now), i);
      forall pid ensures TotalTo(b.orders, CorrectionTo(acts, b, now, pid), i + 1)
                      == TotalTo(b.orders, CorrectionTo(acts, b, now, pid), i) + CorrectionTo(acts, b, now, pid)(o) {
        NextTotal(b.orders, CorrectionTo(acts, b, now, pid), i);
      }
      if IsCharged(acts, b, now, o) {
        var pid := AnyPid(b, o);
        if |PidsOf(b, o)| == 1 {
          OnlyPid(b, o, pid.value);
          feesByPid := feesByPid[pid.value := AmountAt(feesByPid, pid.value) + correction];
        } else {
          NoPid(b, o);
          fees := fees + correction;
        }
      }
    }
  }

  /** One of the positions an order's fills went to, or the order's own. */
  method AnyPid(b: Book, o: Order) returns (pid: Option<int>)
    ensures pid.Some? ==> pid.value in PidsOf(b, o)
    ensures pid.None? ==> PidsOf(b, o) == {}
  {
    for i := 0 to |b.fills|
      invariant forall j :: 0 <= j < i ==> !(b.fills[j].oid == o.oid && b.fills[j].pid.Some?)
    {
      if b.fills[i].oid == o.oid && b.fills[i].pid.Some? {
        return b.fills[i].pid;
      }
    }
    pid := o.pid;
  }

  lemma NoOrders(acts: seq<Activity>, b: Book, now: int)
    ensures TotalTo(b.orders, DifferenceAt(acts, b, now), 0) == 0.0 &&
            TotalTo(b.orders, CorrectionToFees(acts, b, now), 0) == 0.0
    ensures forall pid :: TotalTo(b.orders, CorrectionTo(acts, b, now, pid), 0) == 0.0
  {}

  lemma OnlyPid(b: Book, o: Order, pid: int)
    requires pid in PidsOf(b, o) && |PidsOf(b, o)| == 1
    ensures forall x :: GoesTo(b, o, x) <==> x == pid
  {
    hide PidsOf;
    var pids := PidsOf(b, o);
    assert |pids - {pid}| == 0;
    forall x | x in pids ensures x == pid {
      assert x !in pids - {pid};
    }
    assert pids == {pid};
  }

  lemma NoPid(b: Book, o: Order)
    requires |PidsOf(b, o)| != 1
    ensures forall x :: !GoesTo(b, o, x)
  {}

  method CheckOrder(acts: seq<Activity>, b: Book, now: int, t: Tally, o: Order)
    returns (difference: real, correction: real)
    requires PerOrder(t, acts, b, now, |acts|)
    ensures difference == DifferenceAt(acts, b, now)(o) && correction == Correction(acts, b, now, o)
  {
    hide LaneOf, CashOf, InLane, TotalTo;
    var filled := Added(b.fills, FilledOf(b, o.oid));
    var estimate := Added(b.fills, FeesOf(o.oid));
    difference := AmountAt(t.filled, o.oid) - filled;
    if !IsSettled(o, now) || Magnitude(difference) < HALF_CENT {
      difference := 0.0;
    }
    correction := AmountAt(t.charged, o.oid) + estimate;
  }

  /** The index positions the book settled itself, expiry by expiry, then the cash events on contracts that
      none of them settles. */
  method CheckSettlements(acts: seq<Activity>, b: Book, now: int) returns (unreconciled: real)
    ensures unreconciled == Total(Days(b.positions), SettlementDifference(acts, b, now)) +
                            Total(acts, Loose(acts, b, now))
  {
    var days := Days(b.positions);
    var settled: real := 0.0;
    var taken: set<Symbol>, waiting: set<Symbol> := {}, {};
    for i := 0 to |days|
      invariant settled == TotalTo(days, SettlementDifference(acts, b, now), i)
      invariant taken == TakenBy(acts, b, now, days[..i]) && waiting == WaitingFor(acts, b, now, days[..i])
    {
      hide TotalTo, Total, LaneOf, CashOf;
      var symbols := SymbolsOf(b.positions, days[i]);
      NextDay(acts, b, now, days, i);
      if FullyPosted(acts, b, now, days[i]) {
        var cash := Added(acts, PostedIn(b, now, symbols));
        var value := Value(b, days[i]);
        settled := settled + (cash - value);
        taken := taken + symbols;
      } else {
        waiting := waiting + symbols;
      }
      NextTotal(days, SettlementDifference(acts, b, now), i);
    }
    assert days[..|days|] == days;
    var loose := Added(acts, Loose(acts, b, now));
    unreconciled := settled + loose;
  }

  lemma NextTotal<T>(rows: seq<T>, weight: T -> real, n: nat)
    requires n < |rows|
    ensures TotalTo(rows, weight, n + 1) == TotalTo(rows, weight, n) + weight(rows[n])
  {}

  lemma NextDay(acts: seq<Activity>, b: Book, now: int, days: seq<int>, n: nat)
    requires n < |days|
    ensures var symbols := SymbolsOf(b.positions, days[n]);
            TakenBy(acts, b, now, days[..n + 1]) ==
            TakenBy(acts, b, now, days[..n]) + (if FullyPosted(acts, b, now, days[n]) then symbols else {}) &&
            WaitingFor(acts, b, now, days[..n + 1]) ==
            WaitingFor(acts, b, now, days[..n]) + (if FullyPosted(acts, b, now, days[n]) then {} else symbols)
  {
    hide FullyPosted, SymbolsOf;
    var shorter, longer := days[..n], days[..n + 1];
    assert longer == shorter + [days[n]];
  }

  /** What the book credited the positions of an expiry beyond their fills. */
  method Value(b: Book, day: int) returns (value: real)
    ensures value == Total(b.positions, NonfillOn(b, day))
  {
    value := 0.0;
    for i := 0 to |b.positions|
      invariant value == TotalTo(b.positions, NonfillOn(b, day), i)
    {
      if SettledDay(b.positions[i]) == Some(day) {
        var nonfill := NonfillOf(b, b.positions[i]);
        value := value + nonfill;
      }
    }
  }

  /** Assignments and exercises: the broker's cash and its shares' fills against the book's own value, once
      the book has taken every one, no share is left and no touched position was also liquidated. */
  method CheckAssigned(acts: seq<Activity>, b: Book, now: int, cash: real, sharesHeld: Option<bool>)
    returns (unreconciled: real, blocked: bool)
    requires cash == Total(acts, InLane(b, now, Assigned)) + Total(acts, InLane(b, now, Shares))
    ensures unreconciled == AssignedDifference(acts, b, now, sharesHeld)
    ensures blocked <==> AnyAssigned(acts, b, now) && !Replaces(acts, b, now, sharesHeld)
  {
    hide LaneOf, CashOf, InLane, IsTouched, Untaken, AnyAssigned;
    if !AnyAssigned(acts, b, now) {
      return 0.0, false;
    }
    var liquidated := false;
    var value: real := 0.0;
    for i := 0 to |b.positions|
      invariant liquidated <==> exists j :: 0 <= j < i && IsTouched(acts, b, now, b.positions[j]) &&
                                            b.positions[j].fees - Total(b.fills,
                                                                        FeesOfPosition(b.positions[j].pid)) >= HALF_CENT
      invariant value == TotalTo(b.positions, NonfillTouched(acts, b, now), i)
    {
      var p := b.positions[i];
      if IsTouched(acts, b, now, p) {
        var fees := Added(b.fills, FeesOfPosition(p.pid));
        var nonfill := NonfillOf(b, p);
        liquidated := liquidated || p.fees - fees >= HALF_CENT;
        value := value + nonfill;
      }
    }
    if Untaken(acts, b, now) || sharesHeld != Some(false) || liquidated {
      return 0.0, true;
    }
    unreconciled, blocked := cash - value, false;
  }

  /** The book's liquidation fees, once every liquidation order's has posted. */
  method CheckExternal(acts: seq<Activity>, b: Book, now: int, charged: real) returns (fees: real)
    requires charged == Total(acts, InLane(b, now, ExternalCharge))
    ensures fees == ExternalFees(acts, b, now)
  {
    hide LaneOf, CashOf, InLane, ExternalPosted;
    if !ExternalPosted(acts, b, now) {
      return 0.0;
    }
    var estimate: real := 0.0;
    for i := 0 to |b.positions|
      invariant estimate == TotalTo(b.positions, Estimate(b), i)
    {
      var own := Added(b.fills, FeesOfPosition(b.positions[i].pid));
      if b.positions[i].fees - own > 0.0 {
        estimate := estimate + (b.positions[i].fees - own);
      }
    }
    fees := charged + estimate;
  }

  /** One reading of the account beside the book; None where an activity cannot be read. */
  method Classify(acts: seq<Activity>, b: Book, now: int, sharesHeld: Option<bool>) returns (reading: Option<Reading>)
    ensures reading.None? <==> exists i :: 0 <= i < |acts| && LaneOf(acts[i], b, now) == Unreadable
    ensures reading.Some? ==> IsReading(reading.value, acts, b, now, sharesHeld)
  {
    hide LaneOf, CashOf, InLane, IsCharged, Replaces, AnyAssigned, ExternalFees, AssignedDifference, PerOrder,
      CorrectionTo, CorrectionToFees, DifferenceAt, TotalTo;
    var tally := Gather(acts, b, now);
    if tally.None? {
      return None;
    }
    var t := tally.value;
    var differences, fees, feesByPid := CheckOrders(acts, b, now, t);
    var settlements := CheckSettlements(acts, b, now);
    var events, blocked := CheckAssigned(acts, b, now, t.events + t.shares, sharesHeld);
    var external := CheckExternal(acts, b, now, t.external);
    reading := Some(Reading(t.fees + fees + external, t.crypto, t.interest, t.misc,
                            t.stray + differences + settlements + events, feesByPid, t.blocks || blocked));
  }
}
