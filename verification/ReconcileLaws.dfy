/** Reconciliation conserves cash: whatever the account and the book show, the table's lines and the Other
    line are the broker's cash in scope, but for terms each of which has a name and a cause. */
module ReconcileLaws {
  import opened Wrappers
  import opened Totals
  import opened Reconcile

  /** Orders and positions are the book's tables: their ids are never shared. */
  ghost predicate Keyed(b: Book) {
    (forall i, j :: 0 <= i < j < |b.orders| ==> b.orders[i].oid != b.orders[j].oid) &&
    (forall i, j :: 0 <= i < j < |b.positions| ==> b.positions[i].pid != b.positions[j].pid)
  }

  // ------------------------------------------------------------------ every activity is in one lane

  function AllOwn(b: Book, now: int): Activity -> real {
    (a: Activity) => if LaneOf(a, b, now).Own? then CashOf(a) else 0.0
  }

  function AllCharged(b: Book, now: int): Activity -> real {
    (a: Activity) => if LaneOf(a, b, now).Charged? then CashOf(a) else 0.0
  }

  /** Cash the book has its own figure for, and cash it has none for. */
  function Matched(b: Book, now: int): Activity -> real {
    (a: Activity) =>
      var lane := LaneOf(a, b, now);
      if lane.Own? || lane.Charged? || lane in {ExternalCharge, Shares, Assigned, Posted} then CashOf(a) else 0.0
  }

  lemma {:induction false} MatchedLanes(acts: seq<Activity>, b: Book, now: int, n: nat)
    requires n <= |acts|
    ensures TotalTo(acts, Matched(b, now), n) ==
            TotalTo(acts, AllOwn(b, now), n) + TotalTo(acts, AllCharged(b, now), n) +
            TotalTo(acts, InLane(b, now, ExternalCharge), n) + TotalTo(acts, InLane(b, now, Shares), n) +
            TotalTo(acts, InLane(b, now, Assigned), n) + TotalTo(acts, InLane(b, now, Posted), n)
  {
    hide LaneOf, CashOf;
    if n > 0 {
      MatchedLanes(acts, b, now, n - 1);
    }
  }

  /** What is in the record is what some lane tells. */
  lemma ScopeIsLanes(a: Activity, b: Book, now: int)
    ensures InScope(b, now)(a) == if LaneOf(a, b, now) in {Left, Unreadable, Blocks} then 0.0 else CashOf(a)
  {}

  /** In scope, an activity is matched, or told as fees, crypto, interest, misc or unreconciled. */
  lemma {:induction false} LanesPartition(acts: seq<Activity>, b: Book, now: int, n: nat)
    requires n <= |acts|
    ensures TotalTo(acts, InScope(b, now), n) ==
            TotalTo(acts, Matched(b, now), n) +
            TotalTo(acts, InLane(b, now, ToFees), n) + TotalTo(acts, InLane(b, now, ToCrypto), n) +
            TotalTo(acts, InLane(b, now, ToInterest), n) + TotalTo(acts, InLane(b, now, ToMisc), n) +
            TotalTo(acts, InLane(b, now, Stray), n)
  {
    hide LaneOf, CashOf, InRecord, InScope;
    if n > 0 {
      LanesPartition(acts, b, now, n - 1);
      ScopeIsLanes(acts[n - 1], b, now);
    }
  }

  // ------------------------------------------------------------------ by order is by activity

  ghost function Filled(acts: seq<Activity>, b: Book, now: int): Order -> real {
    (o: Order) => Total(acts, InLane(b, now, Own(o.oid)))
  }

  ghost function Charges(acts: seq<Activity>, b: Book, now: int): Order -> real {
    (o: Order) => Total(acts, InLane(b, now, Charged(o.oid)))
  }

  function OwnCell(b: Book, now: int): (Order, Activity) -> real {
    (o: Order, a: Activity) => if LaneOf(a, b, now) == Own(o.oid) then CashOf(a) else 0.0
  }

  function ChargedCell(b: Book, now: int): (Order, Activity) -> real {
    (o: Order, a: Activity) => if LaneOf(a, b, now) == Charged(o.oid) then CashOf(a) else 0.0
  }

  lemma LaneIsMine(a: Activity, b: Book, now: int)
    ensures LaneOf(a, b, now).Own? ==> IsMine(b, LaneOf(a, b, now).oid)
    ensures LaneOf(a, b, now).Charged? ==> IsMine(b, LaneOf(a, b, now).oid)
  {}

  lemma FilledIsOwn(acts: seq<Activity>, b: Book, now: int)
    requires Keyed(b)
    ensures Total(b.orders, Filled(acts, b, now)) == Total(acts, AllOwn(b, now))
  {
    hide LaneOf, CashOf, Total;
    forall i | 0 <= i < |b.orders|
      ensures Filled(acts, b, now)(b.orders[i]) == Total(acts, Row(OwnCell(b, now), b.orders[i])) {
      TotalSame(acts, InLane(b, now, Own(b.orders[i].oid)), Row(OwnCell(b, now), b.orders[i]));
    }
    forall i | 0 <= i < |acts| ensures AllOwn(b, now)(acts[i]) == Total(b.orders, Column(OwnCell(b, now), acts[i])) {
      LaneIsMine(acts[i], b, now);
      var lane := LaneOf(acts[i], b, now);
      Pick(b.orders, Column(OwnCell(b, now), acts[i]), (o: Order) => lane == Own(o.oid), CashOf(acts[i]));
    }
    Swap(b.orders, acts, OwnCell(b, now), Filled(acts, b, now), AllOwn(b, now));
  }

  lemma ChargesAreCharged(acts: seq<Activity>, b: Book, now: int)
    requires Keyed(b)
    ensures Total(b.orders, Charges(acts, b, now)) == Total(acts, AllCharged(b, now))
  {
    hide LaneOf, CashOf, Total;
    forall i | 0 <= i < |b.orders|
      ensures Charges(acts, b, now)(b.orders[i]) == Total(acts, Row(ChargedCell(b, now), b.orders[i])) {
      TotalSame(acts, InLane(b, now, Charged(b.orders[i].oid)), Row(ChargedCell(b, now), b.orders[i]));
    }
    forall i | 0 <= i < |acts|
      ensures AllCharged(b, now)(acts[i]) == Total(b.orders, Column(ChargedCell(b, now), acts[i])) {
      LaneIsMine(acts[i], b, now);
      var lane := LaneOf(acts[i], b, now);
      Pick(b.orders, Column(ChargedCell(b, now), acts[i]), (o: Order) => lane == Charged(o.oid), CashOf(acts[i]));
    }
    Swap(b.orders, acts, ChargedCell(b, now), Charges(acts, b, now), AllCharged(b, now));
  }

  // ------------------------------------------------------------------ orders and their corrections

  function NetOfOrder(b: Book, oid: int): BookFill -> real {
    (f: BookFill) => if f.oid == oid then FillCash(b, f) - f.fees else 0.0
  }

  ghost function BookNet(b: Book): Order -> real {
    (o: Order) => Total(b.fills, NetOfOrder(b, o.oid))
  }

  /** A difference the reading leaves out: under half a cent, or of an order that may still move. */
  ghost function Undiffed(acts: seq<Activity>, b: Book, now: int): Order -> real {
    (o: Order) => if Differs(acts, b, now, o) then 0.0 else Difference(acts, b, now, o)
  }

  /** What waits for an order's fees to post: the charges so far and the estimate that stands meanwhile. */
  ghost function Unposted(acts: seq<Activity>, b: Book, now: int): Order -> real {
    (o: Order) => if IsCharged(acts, b, now, o) then 0.0 else Correction(acts, b, now, o)
  }

  /** A correction whose one position is not in the table. */
  ghost function Homeless(acts: seq<Activity>, b: Book, now: int): Order -> real {
    (o: Order) =>
      if IsCharged(acts, b, now, o) && HasHome(b, o) &&
         !(exists i :: 0 <= i < |b.positions| && GoesTo(b, o, b.positions[i].pid))
      then Correction(acts, b, now, o) else 0.0
  }

  ghost function CorrectionOnTable(acts: seq<Activity>, b: Book, now: int): Order -> real {
    (o: Order) =>
      if IsCharged(acts, b, now, o) && exists i :: 0 <= i < |b.positions| && GoesTo(b, o, b.positions[i].pid)
      then Correction(acts, b, now, o) else 0.0
  }

  ghost function FeesTo(acts: seq<Activity>, b: Book, now: int): Position -> real {
    (p: Position) => Total(b.orders, CorrectionTo(acts, b, now, p.pid))
  }

  ghost function CorrectionCell(acts: seq<Activity>, b: Book, now: int): (Position, Order) -> real {
    (p: Position, o: Order) => CorrectionTo(acts, b, now, p.pid)(o)
  }

  lemma GoesToOne(b: Book, o: Order, x: int, y: int)
    requires GoesTo(b, o, x) && GoesTo(b, o, y)
    ensures x == y && HasHome(b, o)
  {}

  lemma TableTakesItsCorrections(acts: seq<Activity>, b: Book, now: int)
    requires Keyed(b)
    ensures Total(b.positions, FeesTo(acts, b, now)) == Total(b.orders, CorrectionOnTable(acts, b, now))
  {
    hide Total, IsCharged, PidsOf, Correction;
    var cell := CorrectionCell(acts, b, now);
    forall i | 0 <= i < |b.positions|
      ensures FeesTo(acts, b, now)(b.positions[i]) == Total(b.orders, Row(cell, b.positions[i])) {
      TotalSame(b.orders, CorrectionTo(acts, b, now, b.positions[i].pid), Row(cell, b.positions[i]));
    }
    forall i | 0 <= i < |b.orders|
      ensures CorrectionOnTable(acts, b, now)(b.orders[i]) == Total(b.positions, Column(cell, b.orders[i])) {
      ColumnOfCorrections(acts, b, now, b.orders[i]);
    }
    Swap(b.positions, b.orders, cell, FeesTo(acts, b, now), CorrectionOnTable(acts, b, now));
  }

  lemma ColumnOfCorrections(acts: seq<Activity>, b: Book, now: int, o: Order)
    requires Keyed(b)
    ensures CorrectionOnTable(acts, b, now)(o) == Total(b.positions, Column(CorrectionCell(acts, b, now), o))
  {
    hide Total, IsCharged, PidsOf, Correction;
    var column := Column(CorrectionCell(acts, b, now), o);
    forall i | 0 <= i < |b.positions|
      ensures column(b.positions[i]) == if IsCharged(acts, b, now, o) && GoesTo(b, o, b.positions[i].pid)
                                        then Correction(acts, b, now, o) else 0.0
    {
      var p := b.positions[i];
      assert column(p) == CorrectionCell(acts, b, now)(p, o);
      assert CorrectionCell(acts, b, now)(p, o) == CorrectionTo(acts, b, now, p.pid)(o);
      assert CorrectionTo(acts, b, now, p.pid)(o) ==
             if IsCharged(acts, b, now, o) && GoesTo(b, o, p.pid) then Correction(acts, b, now, o) else 0.0;
    }
    if IsCharged(acts, b, now, o) {
      var taken := (p: Position) => GoesTo(b, o, p.pid);
      forall i, j | 0 <= i < j < |b.positions| ensures !(taken(b.positions[i]) && taken(b.positions[j])) {
        if GoesTo(b, o, b.positions[i].pid) && GoesTo(b, o, b.positions[j].pid) {
          GoesToOne(b, o, b.positions[i].pid, b.positions[j].pid);
        }
      }
      Pick(b.positions, column, taken, Correction(acts, b, now, o));
    } else {
      TotalZero(b.positions, column);
    }
  }

  ghost function WholeDifference(acts: seq<Activity>, b: Book, now: int): Order -> real {
    (o: Order) => Difference(acts, b, now, o)
  }

  ghost function WholeCorrection(acts: seq<Activity>, b: Book, now: int): Order -> real {
    (o: Order) => Correction(acts, b, now, o)
  }

  /** An order's difference and correction, in full, are the broker's cash and charges less the book's net. */
  lemma OrdersClose(acts: seq<Activity>, b: Book, now: int)
    ensures Total(b.orders, WholeDifference(acts, b, now)) + Total(b.orders, WholeCorrection(acts, b, now)) +
            Total(b.orders, BookNet(b))
         == Total(b.orders, Filled(acts, b, now)) + Total(b.orders, Charges(acts, b, now))
  {
    hide Total;
    var whole := (o: Order) => WholeDifference(acts, b, now)(o) + WholeCorrection(acts, b, now)(o);
    var broker := (o: Order) => Filled(acts, b, now)(o) + Charges(acts, b, now)(o);
    forall i | 0 <= i < |b.orders| ensures broker(b.orders[i]) == whole(b.orders[i]) + BookNet(b)(b.orders[i]) {
      OrderCloses(acts, b, now, b.orders[i]);
    }
    TotalPlus(b.orders, WholeDifference(acts, b, now), WholeCorrection(acts, b, now), whole);
    TotalPlus(b.orders, Filled(acts, b, now), Charges(acts, b, now), broker);
    TotalPlus(b.orders, whole, BookNet(b), broker);
  }

  function MinusFees(oid: int): BookFill -> real {
    (f: BookFill) => if f.oid == oid then -f.fees else 0.0
  }

  lemma OrderCloses(acts: seq<Activity>, b: Book, now: int, o: Order)
    ensures Filled(acts, b, now)(o) + Charges(acts, b, now)(o)
         == WholeDifference(acts, b, now)(o) + WholeCorrection(acts, b, now)(o) + BookNet(b)(o)
  {
    hide Total, FillCash;
    TotalPlus(b.fills, FilledOf(b, o.oid), MinusFees(o.oid), NetOfOrder(b, o.oid));
    TotalPlus(b.fills, FeesOf(o.oid), MinusFees(o.oid), (f: BookFill) => 0.0);
    TotalZero(b.fills, (f: BookFill) => 0.0);
    TotalSame(b.fills, (f: BookFill) => 0.0, (f: BookFill) => 0.0);
  }

  lemma DifferencesSplit(acts: seq<Activity>, b: Book, now: int)
    ensures Total(b.orders, DifferenceAt(acts, b, now)) + Total(b.orders, Undiffed(acts, b, now)) ==
            Total(b.orders, WholeDifference(acts, b, now))
  {
    hide Total, Differs, Difference;
    TotalPlus(b.orders, DifferenceAt(acts, b, now), Undiffed(acts, b, now), WholeDifference(acts, b, now));
  }

  lemma CorrectionsSplit(acts: seq<Activity>, b: Book, now: int)
    ensures Total(b.orders, CorrectionToFees(acts, b, now)) + Total(b.orders, CorrectionOnTable(acts, b, now)) +
            Total(b.orders, Homeless(acts, b, now)) + Total(b.orders, Unposted(acts, b, now))
         == Total(b.orders, WholeCorrection(acts, b, now))
  {
    hide Total, IsCharged, Correction, PidsOf;
    var homed := (o: Order) => if IsCharged(acts, b, now, o) && HasHome(b, o) then Correction(acts, b, now, o) else 0.0;
    var charged := (o: Order) => if IsCharged(acts, b, now, o) then Correction(acts, b, now, o) else 0.0;
    forall i | 0 <= i < |b.orders|
      ensures homed(b.orders[i]) == CorrectionOnTable(acts, b, now)(b.orders[i]) + Homeless(acts, b, now)(b.orders[i])
    {
      var o := b.orders[i];
      if exists k :: 0 <= k < |b.positions| && GoesTo(b, o, b.positions[k].pid) {
        var k :| 0 <= k < |b.positions| && GoesTo(b, o, b.positions[k].pid);
        GoesToOne(b, o, b.positions[k].pid, b.positions[k].pid);
      }
    }
    TotalPlus(b.orders, CorrectionOnTable(acts, b, now), Homeless(acts, b, now), homed);
    TotalPlus(b.orders, CorrectionToFees(acts, b, now), homed, charged);
    TotalPlus(b.orders, charged, Unposted(acts, b, now), WholeCorrection(acts, b, now));
  }

  // ------------------------------------------------------------------ positions

  function Cash(): Position -> real {
    (p: Position) => p.cash
  }

  ghost function NonfillAt(b: Book): Position -> real {
    (p: Position) => Nonfill(b, p)
  }

  ghost function PositionNet(b: Book): Position -> real {
    (p: Position) => Total(b.fills, NetOfPosition(b, p.pid))
  }

  /** Fills of a position in the table on an order that is not, less fills on such an order of none of them. */
  ghost function Strays(b: Book): real {
    Total(b.positions, PositionNet(b)) - Total(b.orders, BookNet(b))
  }

  lemma PositionsClose(b: Book)
    ensures Total(b.positions, Cash()) == Total(b.positions, NonfillAt(b)) + Strays(b) + Total(b.orders, BookNet(b))
  {
    TotalPlus(b.positions, NonfillAt(b), PositionNet(b), Cash());
  }

  // ------------------------------------------------------------------ the book's own settlements

  function Settled(acts: seq<Activity>, b: Book, now: int): set<Symbol> {
    TakenBy(acts, b, now, Days(b.positions))
  }

  function Waiting(acts: seq<Activity>, b: Book, now: int): set<Symbol> {
    WaitingFor(acts, b, now, Days(b.positions))
  }

  ghost function PostedOn(acts: seq<Activity>, b: Book, now: int): int -> real {
    (day: int) => if FullyPosted(acts, b, now, day) then Total(acts, PostedIn(b, now, SymbolsOf(b.positions, day)))
      else 0.0
  }

  ghost function SettledNonfill(acts: seq<Activity>, b: Book, now: int): int -> real {
    (day: int) => if FullyPosted(acts, b, now, day) then Total(b.positions, NonfillOn(b, day)) else 0.0
  }

  /** Posted cash that more than one expiry's settlement counts. */
  ghost function Overlap(acts: seq<Activity>, b: Book, now: int): real {
    Total(Days(b.positions), PostedOn(acts, b, now)) - Total(acts, PostedIn(b, now, Settled(acts, b, now)))
  }

  /** Posted cash of an expiry the broker has not wholly posted. */
  ghost function WaitingCash(acts: seq<Activity>, b: Book, now: int): real {
    Total(acts, PostedIn(b, now, Waiting(acts, b, now) - Settled(acts, b, now)))
  }

  lemma PostedSplits(acts: seq<Activity>, b: Book, now: int)
    ensures Total(acts, InLane(b, now, Posted))
         == Total(acts, PostedIn(b, now, Settled(acts, b, now))) + WaitingCash(acts, b, now) +
            Total(acts, Loose(acts, b, now))
  {
    hide Total, LaneOf, CashOf, TakenBy, WaitingFor;
    var settled, waiting := Settled(acts, b, now), Waiting(acts, b, now);
    var both := (a: Activity) => PostedIn(b, now, settled)(a) + PostedIn(b, now, waiting - settled)(a);
    TotalPlus(acts, PostedIn(b, now, settled), PostedIn(b, now, waiting - settled), both);
    TotalPlus(acts, both, Loose(acts, b, now), InLane(b, now, Posted));
  }

  lemma SettlementsSplit(acts: seq<Activity>, b: Book, now: int)
    ensures Total(Days(b.positions), PostedOn(acts, b, now))
         == Total(Days(b.positions), SettlementDifference(acts, b, now)) +
            Total(Days(b.positions), SettledNonfill(acts, b, now))
  {
    hide Total, FullyPosted, Days, SymbolsOf;
    TotalPlus(Days(b.positions), SettlementDifference(acts, b, now), SettledNonfill(acts, b, now),
              PostedOn(acts, b, now));
  }

  predicate IsSettledBy(acts: seq<Activity>, b: Book, now: int, p: Position) {
    SettledDay(p).Some? && FullyPosted(acts, b, now, SettledDay(p).value)
  }

  ghost function NonfillSettled(acts: seq<Activity>, b: Book, now: int): Position -> real {
    (p: Position) => if IsSettledBy(acts, b, now, p) then Nonfill(b, p) else 0.0
  }

  ghost function SettledCell(acts: seq<Activity>, b: Book, now: int): (int, Position) -> real {
    (day: int, p: Position) => if FullyPosted(acts, b, now, day) && SettledDay(p) == Some(day) then Nonfill(b, p)
      else 0.0
  }

  lemma {:induction false} DaysAreOnce(positions: seq<Position>)
    ensures forall i, j :: 0 <= i < j < |Days(positions)| ==> Days(positions)[i] != Days(positions)[j]
    ensures forall d :: d in Days(positions) <==>
                        exists i :: 0 <= i < |positions| && SettledDay(positions[i]) == Some(d)
  {
    if positions != [] {
      var front, p := positions[..|positions| - 1], positions[|positions| - 1];
      DaysAreOnce(front);
      forall d | d in Days(positions) ensures exists i :: 0 <= i < |positions| && SettledDay(positions[i]) == Some(d) {
        if d in Days(front) {
          var i :| 0 <= i < |front| && SettledDay(front[i]) == Some(d);
          assert SettledDay(positions[i]) == Some(d);
        } else {
          assert SettledDay(positions[|positions| - 1]) == Some(d);
        }
      }
      assert forall d :: d in Days(front) ==> d in Days(positions);
      forall i | 0 <= i < |positions| && SettledDay(positions[i]).Some?
        ensures SettledDay(positions[i]).value in Days(positions) {
        if i < |front| {
          var d := SettledDay(positions[i]).value;
          assert SettledDay(front[i]) == Some(d);
          assert d in Days(front);
        } else if SettledDay(p).value !in Days(front) {
          assert Days(positions) == Days(front) + [SettledDay(p).value];
        }
      }
    }
  }

  /** By expiry or by position, what the settlements replace is the same. */
  lemma SettledByDayIsByPosition(acts: seq<Activity>, b: Book, now: int)
    ensures Total(Days(b.positions), SettledNonfill(acts, b, now)) == Total(b.positions, NonfillSettled(acts, b, now))
  {
    hide Total, FullyPosted, Days, Nonfill;
    var days, cell := Days(b.positions), SettledCell(acts, b, now);
    DaysAreOnce(b.positions);
    forall i | 0 <= i < |days| ensures SettledNonfill(acts, b, now)(days[i]) == Total(b.positions, Row(cell, days[i])) {
      if FullyPosted(acts, b, now, days[i]) {
        TotalSame(b.positions, NonfillOn(b, days[i]), Row(cell, days[i]));
      } else {
        TotalZero(b.positions, Row(cell, days[i]));
      }
    }
    forall i | 0 <= i < |b.positions|
      ensures NonfillSettled(acts, b, now)(b.positions[i]) == Total(days, Column(cell, b.positions[i])) {
      var p := b.positions[i];
      Pick(days, Column(cell, p), (day: int) =>
             FullyPosted(acts, b, now, day) && SettledDay(p) == Some(day), Nonfill(b, p));
      if IsSettledBy(acts, b, now, p) {
        assert SettledDay(p).value in days;
      }
    }
    Swap(days, b.positions, cell, SettledNonfill(acts, b, now), NonfillSettled(acts, b, now));
  }

  // ------------------------------------------------------------------ the whole reading

  ghost function Line(r: Reading): Position -> real {
    (p: Position) => p.cash + AmountAt(r.feesByPid, p.pid)
  }

  /** The table's lines and the Other line. */
  ghost function Shown(r: Reading, b: Book): real {
    r.fees + r.crypto + r.interest + r.misc + r.unreconciled + Total(b.positions, Line(r))
  }

  ghost predicate Counts(acts: seq<Activity>, b: Book, now: int, sharesHeld: Option<bool>) {
    AnyAssigned(acts, b, now) && Replaces(acts, b, now, sharesHeld)
  }

  /** The book's own value of a position that no settlement and no assignment has replaced, or that two have. */
  ghost function StandingAt(acts: seq<Activity>, b: Book, now: int, sharesHeld: Option<bool>): Position -> real {
    (p: Position) =>
      Nonfill(b, p) - (if IsSettledBy(acts, b, now, p) then Nonfill(b, p) else 0.0)
      - (if Counts(acts, b, now, sharesHeld) && IsTouched(acts, b, now, p) then Nonfill(b, p) else 0.0)
  }

  /** Assignments' and shares' cash that waits. */
  ghost function Unassigned(acts: seq<Activity>, b: Book, now: int, sharesHeld: Option<bool>): real {
    if Counts(acts, b, now, sharesHeld) then 0.0
    else Total(acts, InLane(b, now, Assigned)) + Total(acts, InLane(b, now, Shares))
  }

  /** A liquidation's charges: what they replace once posted, what waits until then. */
  ghost function External(acts: seq<Activity>, b: Book, now: int): real {
    if ExternalPosted(acts, b, now) then Total(b.positions, Estimate(b))
    else -Total(acts, InLane(b, now, ExternalCharge))
  }

  lemma LinesSplit(r: Reading, acts: seq<Activity>, b: Book, now: int, sharesHeld: Option<bool>)
    requires Keyed(b) && IsReading(r, acts, b, now, sharesHeld)
    ensures Total(b.positions, Line(r)) == Total(b.positions, Cash()) + Total(b.orders, CorrectionOnTable(acts, b, now))
  {
    hide Total, Fees, Unreconciled, CorrectionTo;
    TotalPlus(b.positions, Cash(), FeesTo(acts, b, now), Line(r));
    TableTakesItsCorrections(acts, b, now);
  }

  ghost function TouchedCounted(acts: seq<Activity>, b: Book, now: int, sharesHeld: Option<bool>): Position -> real {
    (p: Position) => if Counts(acts, b, now, sharesHeld) && IsTouched(acts, b, now, p) then Nonfill(b, p) else 0.0
  }

  lemma StandingSplits(acts: seq<Activity>, b: Book, now: int, sharesHeld: Option<bool>)
    ensures Total(b.positions, NonfillAt(b)) == Total(b.positions, StandingAt(acts, b, now, sharesHeld)) +
                                                Total(b.positions, NonfillSettled(acts, b, now)) +
                                                Total(b.positions, TouchedCounted(acts, b, now, sharesHeld))
  {
    hide Total, Nonfill, IsTouched, IsSettledBy, Counts;
    var two := (p: Position) => StandingAt(acts, b, now, sharesHeld)(p) + NonfillSettled(acts, b, now)(p);
    TotalPlus(b.positions, StandingAt(acts, b, now, sharesHeld), NonfillSettled(acts, b, now), two);
    TotalPlus(b.positions, two, TouchedCounted(acts, b, now, sharesHeld), NonfillAt(b));
  }

  lemma AssignedSplits(acts: seq<Activity>, b: Book, now: int, sharesHeld: Option<bool>)
    ensures AssignedDifference(acts, b, now, sharesHeld)
         == Total(acts, InLane(b, now, Assigned)) + Total(acts, InLane(b, now, Shares)) -
            Unassigned(acts, b, now, sharesHeld)
            - Total(b.positions, TouchedCounted(acts, b, now, sharesHeld))
  {
    hide Total, Nonfill, IsTouched, AnyAssigned, Replaces;
    if Counts(acts, b, now, sharesHeld) {
      TotalSame(b.positions, NonfillTouched(acts, b, now), TouchedCounted(acts, b, now, sharesHeld));
    } else {
      TotalZero(b.positions, TouchedCounted(acts, b, now, sharesHeld));
    }
  }

  lemma InScopeIs(acts: seq<Activity>, b: Book, now: int)
    ensures Total(acts, InScope(b, now)) ==
            Total(acts, AllOwn(b, now)) + Total(acts, AllCharged(b, now)) +
            Total(acts, InLane(b, now, ExternalCharge)) +
            Total(acts, InLane(b, now, Shares)) + Total(acts, InLane(b, now, Assigned)) +
            Total(acts, InLane(b, now, Posted)) +
            Total(acts, InLane(b, now, ToFees)) + Total(acts, InLane(b, now, ToCrypto)) +
            Total(acts, InLane(b, now, ToInterest)) +
            Total(acts, InLane(b, now, ToMisc)) + Total(acts, InLane(b, now, Stray))
  {
    hide TotalTo, LaneOf;
    MatchedLanes(acts, b, now, |acts|);
    LanesPartition(acts, b, now, |acts|);
  }

  /** The reading, to the last term. For every account, book and moment: the table's lines and the Other line
      are the broker's cash in scope, less the differences the reading leaves out, less the corrections
      whose fees have not all posted or whose position is not in the table, plus the book's fills that stray
      between tables, plus posted cash two settlements both count, less posted cash still waiting, plus the
      book's own value still standing, less assignments' cash that waits, and a liquidation's charges. */
  lemma ShownIsInScope(r: Reading, acts: seq<Activity>, b: Book, now: int, sharesHeld: Option<bool>)
    requires Keyed(b) && IsReading(r, acts, b, now, sharesHeld)
    ensures Shown(r, b) ==
            Total(acts, InScope(b, now))
            - Total(b.orders, Undiffed(acts, b, now)) - Total(b.orders, Unposted(acts, b, now)) -
            Total(b.orders, Homeless(acts, b, now))
            + Strays(b) + Overlap(acts, b, now) - WaitingCash(acts, b, now)
            + Total(b.positions, StandingAt(acts, b, now, sharesHeld)) - Unassigned(acts, b, now, sharesHeld) +
            External(acts, b, now)
  {
    InScopeIs(acts, b, now);
    FilledIsOwn(acts, b, now);
    ChargesAreCharged(acts, b, now);
    OrdersClose(acts, b, now);
    DifferencesSplit(acts, b, now);
    CorrectionsSplit(acts, b, now);
    PositionsClose(b);
    LinesSplit(r, acts, b, now, sharesHeld);
    PostedSplits(acts, b, now);
    SettlementsSplit(acts, b, now);
    SettledByDayIsByPosition(acts, b, now);
    StandingSplits(acts, b, now, sharesHeld);
    AssignedSplits(acts, b, now, sharesHeld);
    hide Total, Strays, AssignedDifference, Unassigned, WaitingCash, AnyAssigned, Replaces;
  }

  // ------------------------------------------------------------------ when every term but rounding is nothing

  /** The condition the reading is exact under: nothing is blocked, every order is finished and settled, an
      order's fees have all posted or it has none, no liquidation is outstanding, the fills of the table's
      positions are those of its orders, a corrected order's position is in the table, and each position with
      value beyond its fills is replaced once: by a wholly posted settlement, or by an assignment. */
  ghost predicate Complete(r: Reading, acts: seq<Activity>, b: Book, now: int, sharesHeld: Option<bool>) {
    !r.blocked && b.externalOrders == {} &&
    (forall i :: 0 <= i < |b.orders| ==>
                   IsSettled(b.orders[i], now) &&
                   (IsCharged(acts, b, now, b.orders[i]) || Correction(acts, b, now, b.orders[i]) == 0.0) &&
                   (HasHome(b, b.orders[i]) ==>
                      exists k :: 0 <= k < |b.positions| && GoesTo(b, b.orders[i], b.positions[k].pid))) &&
    (forall i :: 0 <= i < |b.fills| ==> (IsMine(b, b.fills[i].oid) <==> InTable(b, b.fills[i].pid))) &&
    (forall d :: d in Days(b.positions) ==> FullyPosted(acts, b, now, d)) &&
    (forall i :: 0 <= i < |b.positions| ==>
                   Nonfill(b, b.positions[i]) == 0.0 ||
                   (IsSettledBy(acts, b, now, b.positions[i]) <==> !IsTouched(acts, b, now, b.positions[i])))
  }

  predicate InTable(b: Book, pid: Option<int>) {
    exists i :: 0 <= i < |b.positions| && pid == Some(b.positions[i].pid)
  }

  /** The book settles only index positions itself, and every leg of one has one expiry
      (league/live/step.py `_missed_close`, league/gym/legs.py `classify`). */
  predicate OneExpiry(b: Book) {
    forall i :: 0 <= i < |b.positions| && b.positions[i].settled ==>
                  forall s :: s in b.positions[i].legs ==> s.expiry == LastExpiry(b.positions[i].legs)
  }

  /** No contract is in two settled expiries. */
  predicate Disjoint(b: Book) {
    forall d, e :: d in Days(b.positions) && e in Days(b.positions) && d != e ==>
                     SymbolsOf(b.positions, d) * SymbolsOf(b.positions, e) == {}
  }

  lemma UndiffedIsRounding(acts: seq<Activity>, b: Book, now: int)
    requires forall i :: 0 <= i < |b.orders| ==> IsSettled(b.orders[i], now)
    ensures Magnitude(Total(b.orders, Undiffed(acts, b, now))) <= HALF_CENT * |b.orders| as real
  {
    hide Difference;
    TotalToWithin(b.orders, Undiffed(acts, b, now), HALF_CENT, |b.orders|);
  }

  function NetMine(b: Book): BookFill -> real {
    (f: BookFill) => if IsMine(b, f.oid) then FillCash(b, f) - f.fees else 0.0
  }

  function NetTable(b: Book): BookFill -> real {
    (f: BookFill) => if InTable(b, f.pid) then FillCash(b, f) - f.fees else 0.0
  }

  function OrderFillCell(b: Book): (Order, BookFill) -> real {
    (o: Order, f: BookFill) => NetOfOrder(b, o.oid)(f)
  }

  function PositionFillCell(b: Book): (Position, BookFill) -> real {
    (p: Position, f: BookFill) => NetOfPosition(b, p.pid)(f)
  }

  lemma StraysAre(b: Book)
    requires Keyed(b)
    ensures Strays(b) == Total(b.fills, NetTable(b)) - Total(b.fills, NetMine(b))
  {
    hide Total, FillCash;
    forall i | 0 <= i < |b.orders|
      ensures BookNet(b)(b.orders[i]) == Total(b.fills, Row(OrderFillCell(b), b.orders[i])) {
      TotalSame(b.fills, NetOfOrder(b, b.orders[i].oid), Row(OrderFillCell(b), b.orders[i]));
    }
    forall i | 0 <= i < |b.fills|
      ensures NetMine(b)(b.fills[i]) == Total(b.orders, Column(OrderFillCell(b), b.fills[i])) {
      var f := b.fills[i];
      Pick(b.orders, Column(OrderFillCell(b), f), (o: Order) => f.oid == o.oid, FillCash(b, f) - f.fees);
    }
    Swap(b.orders, b.fills, OrderFillCell(b), BookNet(b), NetMine(b));
    forall i | 0 <= i < |b.positions|
      ensures PositionNet(b)(b.positions[i]) == Total(b.fills, Row(PositionFillCell(b), b.positions[i])) {
      TotalSame(b.fills, NetOfPosition(b, b.positions[i].pid), Row(PositionFillCell(b), b.positions[i]));
    }
    forall i | 0 <= i < |b.fills|
      ensures NetTable(b)(b.fills[i]) == Total(b.positions, Column(PositionFillCell(b), b.fills[i])) {
      var f := b.fills[i];
      Pick(b.positions, Column(PositionFillCell(b), f), (p: Position) => f.pid == Some(p.pid), FillCash(b, f) - f.fees);
    }
    Swap(b.positions, b.fills, PositionFillCell(b), PositionNet(b), NetTable(b));
  }

  // ------------------------------------------------------------------ what two settlements both count

  /** Over the expiries taken, how many count a contract beyond the first. */
  ghost function Again(acts: seq<Activity>, b: Book, now: int): Activity -> real {
    (a: Activity) =>
      if LaneOf(a, b, now) == Posted && a.symbol in Settled(acts, b, now)
      then CashOf(a) * (Total(Days(b.positions), Takes(acts, b, now, a.symbol)) - 1.0) else 0.0
  }

  function Takes(acts: seq<Activity>, b: Book, now: int, symbol: Symbol): int -> real {
    (day: int) => if FullyPosted(acts, b, now, day) && symbol in SymbolsOf(b.positions, day) then 1.0 else 0.0
  }

  ghost function TakesCell(acts: seq<Activity>, b: Book, now: int): (int, Activity) -> real {
    (day: int, a: Activity) => if FullyPosted(acts, b, now, day) then PostedIn(b, now, SymbolsOf(b.positions, day))(a)
      else 0.0
  }

  ghost function TakenCash(acts: seq<Activity>, b: Book, now: int): Activity -> real {
    (a: Activity) => if LaneOf(a, b, now) == Posted
      then CashOf(a) * Total(Days(b.positions), Takes(acts, b, now, a.symbol)) else 0.0
  }

  lemma {:induction false} Scaled(days: seq<int>, f: int -> real, g: int -> real, factor: real, n: nat)
    requires n <= |days| && forall i :: 0 <= i < |days| ==> f(days[i]) == factor * g(days[i])
    ensures TotalTo(days, f, n) == factor * TotalTo(days, g, n)
  {
    if n > 0 {
      Scaled(days, f, g, factor, n - 1);
    }
  }

  /** The overlap, exactly: each posted amount once for every further expiry that takes its contract. */
  lemma OverlapIs(acts: seq<Activity>, b: Book, now: int)
    ensures Overlap(acts, b, now) == Total(acts, Again(acts, b, now))
  {
    hide Total, FullyPosted, Days, SymbolsOf, LaneOf, CashOf;
    var days, cell := Days(b.positions), TakesCell(acts, b, now);
    forall i | 0 <= i < |days| ensures PostedOn(acts, b, now)(days[i]) == Total(acts, Row(cell, days[i])) {
      if FullyPosted(acts, b, now, days[i]) {
        TotalSame(acts, PostedIn(b, now, SymbolsOf(b.positions, days[i])), Row(cell, days[i]));
      } else {
        TotalZero(acts, Row(cell, days[i]));
      }
    }
    forall i | 0 <= i < |acts| ensures TakenCash(acts, b, now)(acts[i]) == Total(days, Column(cell, acts[i])) {
      TakenByDay(acts, b, now, acts[i]);
    }
    Swap(days, acts, cell, PostedOn(acts, b, now), TakenCash(acts, b, now));
    forall i | 0 <= i < |acts|
      ensures TakenCash(acts, b, now)(acts[i]) ==
              PostedIn(b, now, Settled(acts, b, now))(acts[i]) + Again(acts, b, now)(acts[i])
    {
      TakenOrNot(acts, b, now, acts[i]);
    }
    TotalPlus(acts, PostedIn(b, now, Settled(acts, b, now)), Again(acts, b, now), TakenCash(acts, b, now));
  }

  lemma TakenByDay(acts: seq<Activity>, b: Book, now: int, a: Activity)
    ensures TakenCash(acts, b, now)(a) == Total(Days(b.positions), Column(TakesCell(acts, b, now), a))
  {
    hide FullyPosted, Days, SymbolsOf, LaneOf, CashOf, TotalTo;
    var days, column := Days(b.positions), Column(TakesCell(acts, b, now), a);
    forall i | 0 <= i < |days|
      ensures column(days[i]) == if LaneOf(a, b, now) == Posted then CashOf(a) * Takes(acts, b, now, a.symbol)(days[i])
                                 else 0.0
    {
      var day := days[i];
      assert column(day) == TakesCell(acts, b, now)(day, a);
      if FullyPosted(acts, b, now, day) {
        assert TakesCell(acts, b, now)(day, a) == PostedIn(b, now, SymbolsOf(b.positions, day))(a);
      }
      var takes := Takes(acts, b, now, a.symbol)(day);
      assert takes == if FullyPosted(acts, b, now, day) && a.symbol in SymbolsOf(b.positions, day) then 1.0 else 0.0;
      assert CashOf(a) * takes == if takes == 1.0 then CashOf(a) else 0.0;
    }
    if LaneOf(a, b, now) == Posted {
      Scaled(days, column, Takes(acts, b, now, a.symbol), CashOf(a), |days|);
    } else {
      TotalZero(days, column);
    }
  }

  lemma TakenOrNot(acts: seq<Activity>, b: Book, now: int, a: Activity)
    ensures a.symbol !in Settled(acts, b, now) ==> Total(Days(b.positions), Takes(acts, b, now, a.symbol)) == 0.0
  {
    hide FullyPosted, Days, SymbolsOf;
    if a.symbol !in Settled(acts, b, now) {
      TotalZero(Days(b.positions), Takes(acts, b, now, a.symbol));
    }
  }

  lemma NotInBoth(b: Book, d: int, e: int, symbol: Symbol)
    requires Disjoint(b) && d in Days(b.positions) && e in Days(b.positions) && d != e
    ensures !(symbol in SymbolsOf(b.positions, d) && symbol in SymbolsOf(b.positions, e))
  {
    hide SymbolsOf;
    assert symbol !in SymbolsOf(b.positions, d) * SymbolsOf(b.positions, e);
  }

  lemma OneExpiryIsDisjoint(b: Book)
    requires OneExpiry(b)
    ensures Disjoint(b)
  {
    forall d, e, s | s in SymbolsOf(b.positions, d) && s in SymbolsOf(b.positions, e) ensures d == e {
      assert s.expiry == d && s.expiry == e;
    }
  }

  /** With no contract in two expiries nothing is counted twice. */
  lemma DisjointIsNoOverlap(acts: seq<Activity>, b: Book, now: int)
    requires Disjoint(b)
    ensures Overlap(acts, b, now) == 0.0
  {
    hide Total, FullyPosted, SymbolsOf, LaneOf, CashOf, Days;
    OverlapIs(acts, b, now);
    DaysAreOnce(b.positions);
    var days := Days(b.positions);
    forall i | 0 <= i < |acts| ensures Again(acts, b, now)(acts[i]) == 0.0 {
      var symbol := acts[i].symbol;
      if symbol in Settled(acts, b, now) {
        var k :| 0 <= k < |days| && FullyPosted(acts, b, now, days[k]) && symbol in SymbolsOf(b.positions, days[k]);
        var taken := (day: int) => FullyPosted(acts, b, now, day) && symbol in SymbolsOf(b.positions, day);
        forall x, y | 0 <= x < y < |days| ensures !(taken(days[x]) && taken(days[y])) {
          NotInBoth(b, days[x], days[y], symbol);
        }
        Pick(days, Takes(acts, b, now, symbol), taken, 1.0);
        assert taken(days[k]);
      }
    }
    TotalZero(acts, Again(acts, b, now));
  }

  // ------------------------------------------------------------------ conservation

  lemma NothingExternal(acts: seq<Activity>, b: Book, now: int)
    requires b.externalOrders == {}
    ensures External(acts, b, now) == 0.0
  {
    TotalZero(acts, InLane(b, now, ExternalCharge));
  }

  lemma NothingUnassigned(r: Reading, acts: seq<Activity>, b: Book, now: int, sharesHeld: Option<bool>)
    requires IsReading(r, acts, b, now, sharesHeld) && !r.blocked
    ensures Unassigned(acts, b, now, sharesHeld) == 0.0
  {
    hide LaneOf, CashOf, Replaces, Unreconciled, Fees;
    if !AnyAssigned(acts, b, now) {
      TotalZero(acts, InLane(b, now, Assigned));
      TotalZero(acts, InLane(b, now, Shares));
    }
  }

  lemma NothingWaits(acts: seq<Activity>, b: Book, now: int)
    requires forall d :: d in Days(b.positions) ==> FullyPosted(acts, b, now, d)
    ensures WaitingCash(acts, b, now) == 0.0
  {
    hide FullyPosted, Days, SymbolsOf, LaneOf, CashOf;
    var days := Days(b.positions);
    assert forall i :: 0 <= i < |days| ==> days[i] in days;
    assert Waiting(acts, b, now) == {};
    TotalZero(acts, PostedIn(b, now, Waiting(acts, b, now) - Settled(acts, b, now)));
  }

  lemma NothingStands(r: Reading, acts: seq<Activity>, b: Book, now: int, sharesHeld: Option<bool>)
    requires IsReading(r, acts, b, now, sharesHeld) && Complete(r, acts, b, now, sharesHeld)
    ensures Total(b.positions, StandingAt(acts, b, now, sharesHeld)) == 0.0
  {
    hide LaneOf, Replaces, Unreconciled, Fees, Nonfill, IsSettledBy;
    forall i | 0 <= i < |b.positions| && IsTouched(acts, b, now, b.positions[i])
      ensures Counts(acts, b, now, sharesHeld) {}
    TotalZero(b.positions, StandingAt(acts, b, now, sharesHeld));
  }

  lemma NothingElseOfOrders(r: Reading, acts: seq<Activity>, b: Book, now: int, sharesHeld: Option<bool>)
    requires Keyed(b) && Complete(r, acts, b, now, sharesHeld)
    ensures Total(b.orders, Unposted(acts, b, now)) == 0.0 && Total(b.orders, Homeless(acts, b, now)) == 0.0 &&
            Strays(b) == 0.0
  {
    hide IsCharged, Correction, HasHome, GoesTo, FullyPosted, Nonfill, IsSettledBy, IsTouched, FillCash;
    TotalZero(b.orders, Unposted(acts, b, now));
    TotalZero(b.orders, Homeless(acts, b, now));
    StraysAre(b);
    TotalSame(b.fills, NetTable(b), NetMine(b));
  }

  /** Every term but the rounding and the overlap is nothing. */
  lemma NothingElse(r: Reading, acts: seq<Activity>, b: Book, now: int, sharesHeld: Option<bool>)
    requires Keyed(b) && IsReading(r, acts, b, now, sharesHeld) && Complete(r, acts, b, now, sharesHeld)
    ensures Magnitude(Total(b.orders, Undiffed(acts, b, now))) <= HALF_CENT * |b.orders| as real
    ensures Total(b.orders, Unposted(acts, b, now)) == 0.0 && Total(b.orders, Homeless(acts, b, now)) == 0.0 &&
            Strays(b) == 0.0
    ensures WaitingCash(acts, b, now) == 0.0 && Unassigned(acts, b, now, sharesHeld) == 0.0 &&
            External(acts, b, now) == 0.0
    ensures Total(b.positions, StandingAt(acts, b, now, sharesHeld)) == 0.0
  {
    hide Total, IsReading, Complete;
    CompleteSays(r, acts, b, now, sharesHeld);
    UndiffedIsRounding(acts, b, now);
    NothingExternal(acts, b, now);
    NothingUnassigned(r, acts, b, now, sharesHeld);
    NothingWaits(acts, b, now);
    NothingStands(r, acts, b, now, sharesHeld);
    NothingElseOfOrders(r, acts, b, now, sharesHeld);
  }

  lemma CompleteSays(r: Reading, acts: seq<Activity>, b: Book, now: int, sharesHeld: Option<bool>)
    requires Complete(r, acts, b, now, sharesHeld)
    ensures !r.blocked && b.externalOrders == {}
    ensures forall i :: 0 <= i < |b.orders| ==> IsSettled(b.orders[i], now)
    ensures forall d :: d in Days(b.positions) ==> FullyPosted(acts, b, now, d)
  {}

  /** Reconciliation conserves cash: once everything has posted and settled, the table's lines and the Other
      line come to the broker's cash in scope within half a cent an order. */
  lemma ReconciliationConservesCash(r: Reading, acts: seq<Activity>, b: Book, now: int, sharesHeld: Option<bool>)
    requires Keyed(b) && OneExpiry(b)
    requires IsReading(r, acts, b, now, sharesHeld) && Complete(r, acts, b, now, sharesHeld)
    ensures Magnitude(Shown(r, b) - Total(acts, InScope(b, now))) <= HALF_CENT * |b.orders| as real
  {
    hide Total, Complete, IsReading, Shown, External, Unassigned, WaitingCash, Strays, Overlap, Disjoint, OneExpiry;
    ShownIsInScope(r, acts, b, now, sharesHeld);
    OneExpiryIsDisjoint(b);
    DisjointIsNoOverlap(acts, b, now);
    NothingElse(r, acts, b, now, sharesHeld);
  }
}
