/** What a reading is told by the activities' own fields (league/account_activity.py `classify`): every kind's
    own line, what each order's activities are, what leaves a reading exactly as it was, and what stops it. */
module ReconcileScope {
  import opened Wrappers
  import opened Totals
  import opened Reconcile

  // ------------------------------------------------------------------ an activity's cash

  /** A sale brings what it sold for and a purchase takes it: a contract's price is for a hundred shares, a
      share's for one. Any other activity's cash is its amount. */
  lemma CashIs(a: Activity)
    ensures a.kind == Fill && a.qty.Some? && a.price.Some? && a.asset != Stock ==>
              (a.side == Sell ==> CashOf(a) == a.qty.value * a.price.value * 100.0) &&
              (a.side == Buy ==> CashOf(a) == -(a.qty.value * a.price.value * 100.0))
    ensures a.kind == Fill && a.qty.Some? && a.price.Some? && a.asset == Stock ==>
              (a.side == Sell ==> CashOf(a) == a.qty.value * a.price.value) &&
              (a.side == Buy ==> CashOf(a) == -(a.qty.value * a.price.value))
    ensures a.kind != Fill && a.amount.Some? ==> CashOf(a) == a.amount.value
    ensures a.kind != Fill && a.amount.None? ==> CashOf(a) == 0.0
  {}

  /** Where the book's own fill says what the broker's does, their cash is the same: an opening order's is
      bought, a closing one's sold, at a hundred shares a contract. */
  lemma FillsAgree(a: Activity, f: BookFill, b: Book)
    requires a.kind == Fill && a.asset == Contract && a.qty.Some? && a.price.Some?
    requires a.side == (if f.oid in b.opens then Buy else Sell)
    requires f.value == a.price.value && f.units == a.qty.value * 100.0
    ensures FillCash(b, f) == CashOf(a)
  {}

  // ------------------------------------------------------------------ what cannot be read, and what waits

  /** A fill without what it takes to price it, unless it is a coin's, and a fee or interest without an
      amount. */
  predicate Illegible(a: Activity, b: Book) {
    (a.kind in {Fee, CryptoFee, Interest, PassThrough} && a.amount.None?) ||
    (a.kind == Fill && a.asset != Crypto &&
     (a.qty.None? || a.price.None? || (a.side == NoSide && !(a.asset == Stock && a.order in b.equity))))
  }

  /** A liquidation the book has not taken: a settled fill of no order, on a contract still held. */
  predicate Waits(a: Activity, b: Book, now: int) {
    a.kind == Fill && a.asset == Contract && a.qty.Some? && a.price.Some? && a.side != NoSide &&
    a.order !in b.owner && a.order !in b.externalOrders && a.id !in b.externalActivities &&
    a.at <= now - SETTLE && a.symbol in b.holding
  }

  /** What no reading tells: outside the record, and nothing it has to wait for. */
  predicate NotOurs(a: Activity, b: Book, now: int) {
    !InRecord(a, b, now) && !Illegible(a, b) && !Waits(a, b, now)
  }

  lemma LanesOut(a: Activity, b: Book, now: int)
    ensures LaneOf(a, b, now) == Unreadable <==> Illegible(a, b)
    ensures LaneOf(a, b, now) == Blocks <==> Waits(a, b, now)
    ensures LaneOf(a, b, now) == Left <==> NotOurs(a, b, now)
  {}

  // ------------------------------------------------------------------ what each line is

  function AmountIn(a: Activity): real {
    match a.amount case Some(amount) => amount case None => 0.0
  }

  /** The amounts of one kind. */
  function AmountsOf(kind: Kind): Activity -> real {
    (a: Activity) => if a.kind == kind then AmountIn(a) else 0.0
  }

  /** Pass-through charges, and fees on no order of the book's. */
  function OtherFees(b: Book): Activity -> real {
    (a: Activity) =>
      if a.kind == PassThrough || (a.kind == Fee && a.order !in b.owner && a.order !in b.externalOrders)
      then AmountIn(a) else 0.0
  }

  /** Fees on the liquidation orders the book priced from. */
  function LiquidationFees(b: Book): Activity -> real {
    (a: Activity) =>
      if a.kind == Fee && a.order !in b.owner && a.order in b.externalOrders then AmountIn(a) else 0.0
  }

  /** The broker's contract fills on one order of the book's, under any of its ids. */
  function FillsOn(b: Book, oid: int): Activity -> real {
    (a: Activity) =>
      if a.kind == Fill && a.asset == Contract && a.order in b.owner && b.owner[a.order] == oid then CashOf(a) else 0.0
  }

  function FeesOn(b: Book, oid: int): Activity -> real {
    (a: Activity) => if a.kind == Fee && a.order in b.owner && b.owner[a.order] == oid then AmountIn(a) else 0.0
  }

  predicate HeldNow(b: Book, symbol: Symbol) {
    exists i :: 0 <= i < |b.positions| && symbol in b.positions[i].legs
  }

  /** What nothing of the book's explains: a settled fill of no order on a contract it does not hold, an event
      on a contract it never held, an activity of no known kind. */
  function Unexplained(b: Book, now: int): Activity -> real {
    (a: Activity) =>
      if (a.kind == Fill && a.asset == Contract && a.order !in b.owner && InRecord(a, b, now)) ||
         a.kind == Unknown ||
         (a.kind.Event? && a.kind.event != Assignment && a.kind.event != Exercise &&
          a.symbol !in b.everHeld && !HeldNow(b, a.symbol))
      then CashOf(a) else 0.0
  }

  /** Assignments and exercises, and the shares they moved. */
  function TakenShares(b: Book): Activity -> real {
    (a: Activity) =>
      if (a.kind == Fill && a.asset == Stock && a.order !in b.equity) ||
         (a.kind.Event? && (a.kind.event == Assignment || a.kind.event == Exercise) &&
          (a.symbol !in b.everHeld || HeldNow(b, a.symbol)))
      then CashOf(a) else 0.0
  }

  lemma LineIs(a: Activity, b: Book, now: int)
    ensures InLane(b, now, ToInterest)(a) == AmountsOf(Interest)(a)
    ensures InLane(b, now, ToCrypto)(a) == AmountsOf(CryptoFee)(a)
    ensures InLane(b, now, ToMisc)(a) == AmountsOf(Misc)(a)
    ensures InLane(b, now, ToFees)(a) == OtherFees(b)(a)
    ensures InLane(b, now, ExternalCharge)(a) == LiquidationFees(b)(a)
    ensures InLane(b, now, Stray)(a) == Unexplained(b, now)(a)
  {}

  lemma SharesAre(a: Activity, b: Book, now: int)
    ensures InLane(b, now, Assigned)(a) + InLane(b, now, Shares)(a) == TakenShares(b)(a)
  {}

  lemma OnOrder(a: Activity, b: Book, now: int, i: nat)
    requires i < |b.orders|
    ensures var oid := b.orders[i].oid;
            InLane(b, now, Own(oid))(a) == FillsOn(b, oid)(a) && InLane(b, now, Charged(oid))(a) == FeesOn(b, oid)(a)
  {}

  /** Every line of a reading by kind and order: interest, coin fees and other returns are exactly the amounts
      of those kinds; fees are the pass-through charges and the fees on no order of the book's, with the
      corrections; what is unreconciled begins from what nothing of the book's explains. */
  lemma LinesByKind(r: Reading, acts: seq<Activity>, b: Book, now: int, sharesHeld: Option<bool>)
    requires IsReading(r, acts, b, now, sharesHeld)
    ensures r.interest == Total(acts, AmountsOf(Interest))
    ensures r.crypto == Total(acts, AmountsOf(CryptoFee))
    ensures r.misc == Total(acts, AmountsOf(Misc))
    ensures r.fees == Total(acts, OtherFees(b)) + Total(b.orders, CorrectionToFees(acts, b, now)) +
                      ExternalFees(acts, b, now)
    ensures r.unreconciled == Total(acts, Unexplained(b, now)) + Total(b.orders, DifferenceAt(acts, b, now)) +
                              Total(Days(b.positions), SettlementDifference(acts, b, now)) +
                              Total(acts, Loose(acts, b, now)) + AssignedDifference(acts, b, now, sharesHeld)
  {
    hide InLane, AmountsOf, OtherFees, Unexplained, Total;
    forall i | 0 <= i < |acts|
      ensures InLane(b, now, ToInterest)(acts[i]) == AmountsOf(Interest)(acts[i])
      ensures InLane(b, now, ToCrypto)(acts[i]) == AmountsOf(CryptoFee)(acts[i])
      ensures InLane(b, now, ToMisc)(acts[i]) == AmountsOf(Misc)(acts[i])
      ensures InLane(b, now, ToFees)(acts[i]) == OtherFees(b)(acts[i])
      ensures InLane(b, now, Stray)(acts[i]) == Unexplained(b, now)(acts[i])
    {
      LineIs(acts[i], b, now);
    }
    TotalSame(acts, InLane(b, now, ToInterest), AmountsOf(Interest));
    TotalSame(acts, InLane(b, now, ToCrypto), AmountsOf(CryptoFee));
    TotalSame(acts, InLane(b, now, ToMisc), AmountsOf(Misc));
    TotalSame(acts, InLane(b, now, ToFees), OtherFees(b));
    TotalSame(acts, InLane(b, now, Stray), Unexplained(b, now));
  }

  /** What the passes over orders, liquidations and assignments weigh, by kind and order. */
  lemma PassesByKind(acts: seq<Activity>, b: Book, now: int)
    ensures forall i :: 0 <= i < |b.orders| ==>
                          var o := b.orders[i];
                          Difference(acts, b, now, o) ==
                          Total(acts, FillsOn(b, o.oid)) - Total(b.fills, FilledOf(b, o.oid)) &&
                          Correction(acts, b, now, o) == Total(acts, FeesOn(b, o.oid)) + Total(b.fills, FeesOf(o.oid))
    ensures Total(acts, InLane(b, now, ExternalCharge)) == Total(acts, LiquidationFees(b))
    ensures Total(acts, InLane(b, now, Assigned)) + Total(acts, InLane(b, now, Shares)) == Total(acts, TakenShares(b))
  {
    hide InLane, FillsOn, FeesOn, LiquidationFees, TakenShares, Total;
    forall i | 0 <= i < |b.orders|
      ensures Total(acts, InLane(b, now, Own(b.orders[i].oid))) == Total(acts, FillsOn(b, b.orders[i].oid))
      ensures Total(acts, InLane(b, now, Charged(b.orders[i].oid))) == Total(acts, FeesOn(b, b.orders[i].oid))
    {
      OrderByKind(acts, b, now, i);
    }
    forall i | 0 <= i < |acts|
      ensures InLane(b, now, ExternalCharge)(acts[i]) == LiquidationFees(b)(acts[i])
      ensures TakenShares(b)(acts[i]) == InLane(b, now, Assigned)(acts[i]) + InLane(b, now, Shares)(acts[i])
    {
      LineIs(acts[i], b, now);
      SharesAre(acts[i], b, now);
    }
    TotalSame(acts, InLane(b, now, ExternalCharge), LiquidationFees(b));
    TotalPlus(acts, InLane(b, now, Assigned), InLane(b, now, Shares), TakenShares(b));
  }

  lemma OrderByKind(acts: seq<Activity>, b: Book, now: int, i: nat)
    requires i < |b.orders|
    ensures Total(acts, InLane(b, now, Own(b.orders[i].oid))) == Total(acts, FillsOn(b, b.orders[i].oid))
    ensures Total(acts, InLane(b, now, Charged(b.orders[i].oid))) == Total(acts, FeesOn(b, b.orders[i].oid))
  {
    hide InLane, FillsOn, FeesOn, Total;
    var oid := b.orders[i].oid;
    forall j | 0 <= j < |acts|
      ensures InLane(b, now, Own(oid))(acts[j]) == FillsOn(b, oid)(acts[j])
      ensures InLane(b, now, Charged(oid))(acts[j]) == FeesOn(b, oid)(acts[j])
    {
      OnOrder(acts[j], b, now, i);
    }
    TotalSame(acts, InLane(b, now, Own(oid)), FillsOn(b, oid));
    TotalSame(acts, InLane(b, now, Charged(oid)), FeesOn(b, oid));
  }

  // ------------------------------------------------------------------ what a reading never sees

  lemma {:induction false} TotalWithout<T>(xs: seq<T>, a: T, ys: seq<T>, weight: T -> real)
    requires weight(a) == 0.0
    ensures Total(xs + [a] + ys, weight) == Total(xs + ys, weight)
  {
    TotalToJoin(xs, [a] + ys, weight, |ys| + 1);
    TotalToJoin(xs, ys, weight, |ys|);
    TotalToJoin([a], ys, weight, |ys|);
    assert xs + [a] + ys == xs + ([a] + ys);
    assert TotalTo([a], weight, 0) == 0.0;
  }

  lemma {:induction false} TotalToJoin<T>(xs: seq<T>, ys: seq<T>, weight: T -> real, n: nat)
    requires n <= |ys|
    ensures TotalTo(xs + ys, weight, |xs| + n) == TotalTo(xs, weight, |xs|) + TotalTo(ys, weight, n)
  {
    if n == 0 {
      TotalToPrefix(xs, ys, weight, |xs|);
    } else {
      TotalToJoin(xs, ys, weight, n - 1);
    }
  }

  lemma {:induction false} TotalToPrefix<T>(xs: seq<T>, ys: seq<T>, weight: T -> real, n: nat)
    requires n <= |xs|
    ensures TotalTo(xs + ys, weight, n) == TotalTo(xs, weight, n)
  {
    if n > 0 {
      TotalToPrefix(xs, ys, weight, n - 1);
    }
  }

  lemma AnyWithout(xs: seq<Activity>, a: Activity, ys: seq<Activity>, holds: Activity -> bool)
    requires !holds(a)
    ensures var more, fewer := xs + [a] + ys, xs + ys;
            (exists i :: 0 <= i < |more| && holds(more[i])) <==> (exists i :: 0 <= i < |fewer| && holds(fewer[i]))
  {
    var more, fewer := xs + [a] + ys, xs + ys;
    if i :| 0 <= i < |more| && holds(more[i]) {
      assert more[i] == fewer[if i < |xs| then i else i - 1];
    }
    if i :| 0 <= i < |fewer| && holds(fewer[i]) {
      assert fewer[i] == more[if i < |xs| then i else i + 1];
    }
  }

  lemma LaneWithout(xs: seq<Activity>, a: Activity, ys: seq<Activity>, b: Book, now: int, lane: Lane)
    requires LaneOf(a, b, now) == Left && lane != Left
    ensures Total(xs + [a] + ys, InLane(b, now, lane)) == Total(xs + ys, InLane(b, now, lane))
    ensures var more, fewer := xs + [a] + ys, xs + ys;
            (exists i :: 0 <= i < |more| && LaneOf(more[i], b, now) == lane) <==>
            (exists i :: 0 <= i < |fewer| && LaneOf(fewer[i], b, now) == lane)
  {
    hide LaneOf, CashOf;
    TotalWithout(xs, a, ys, InLane(b, now, lane));
    AnyWithout(xs, a, ys, (x: Activity) => LaneOf(x, b, now) == lane);
  }

  lemma OrderWithout(xs: seq<Activity>, a: Activity, ys: seq<Activity>, b: Book, now: int, o: Order)
    requires LaneOf(a, b, now) == Left
    ensures var more, fewer := xs + [a] + ys, xs + ys;
            Difference(more, b, now, o) == Difference(fewer, b, now, o) &&
            Correction(more, b, now, o) == Correction(fewer, b, now, o) &&
            (IsCharged(more, b, now, o) <==> IsCharged(fewer, b, now, o))
  {
    hide LaneOf, CashOf, InLane, Total;
    LaneWithout(xs, a, ys, b, now, Own(o.oid));
    LaneWithout(xs, a, ys, b, now, Charged(o.oid));
    forall leg ensures HasPosted(xs + [a] + ys, b, now, o.oid, leg) <==> HasPosted(xs + ys, b, now, o.oid, leg) {
      AnyWithout(xs, a, ys, (x: Activity) => LaneOf(x, b, now) == Charged(o.oid) && x.order == leg);
    }
    hide HasPosted;
  }

  lemma OrdersWithout(xs: seq<Activity>, a: Activity, ys: seq<Activity>, b: Book, now: int)
    requires LaneOf(a, b, now) == Left
    ensures var more, fewer := xs + [a] + ys, xs + ys;
            Total(b.orders, DifferenceAt(more, b, now)) == Total(b.orders, DifferenceAt(fewer, b, now)) &&
            Total(b.orders, CorrectionToFees(more, b, now)) == Total(b.orders, CorrectionToFees(fewer, b, now)) &&
            forall pid :: Total(b.orders, CorrectionTo(more, b, now, pid)) ==
                          Total(b.orders, CorrectionTo(fewer, b, now, pid))
  {
    hide LaneOf, Total, Difference, Correction, IsCharged;
    var more, fewer := xs + [a] + ys, xs + ys;
    forall o: Order
      ensures DifferenceAt(more, b, now)(o) == DifferenceAt(fewer, b, now)(o)
      ensures CorrectionToFees(more, b, now)(o) == CorrectionToFees(fewer, b, now)(o)
      ensures forall pid :: CorrectionTo(more, b, now, pid)(o) == CorrectionTo(fewer, b, now, pid)(o)
    {
      OrderWithout(xs, a, ys, b, now, o);
    }
    hide DifferenceAt, CorrectionToFees, CorrectionTo;
    TotalSame(b.orders, DifferenceAt(more, b, now), DifferenceAt(fewer, b, now));
    TotalSame(b.orders, CorrectionToFees(more, b, now), CorrectionToFees(fewer, b, now));
    forall pid
      ensures Total(b.orders, CorrectionTo(more, b, now, pid)) == Total(b.orders, CorrectionTo(fewer, b, now, pid)) {
      TotalSame(b.orders, CorrectionTo(more, b, now, pid), CorrectionTo(fewer, b, now, pid));
    }
  }

  lemma PostedWithout(xs: seq<Activity>, a: Activity, ys: seq<Activity>, b: Book, now: int, day: int)
    requires LaneOf(a, b, now) == Left
    ensures FullyPosted(xs + [a] + ys, b, now, day) <==> FullyPosted(xs + ys, b, now, day)
  {
    hide LaneOf, SymbolsOf;
    forall s ensures IsPosted(xs + [a] + ys, b, now, s) <==> IsPosted(xs + ys, b, now, s) {
      AnyWithout(xs, a, ys, (x: Activity) => LaneOf(x, b, now) == Posted && x.symbol == s);
    }
    hide IsPosted;
  }

  lemma DayWithout(xs: seq<Activity>, a: Activity, ys: seq<Activity>, b: Book, now: int, day: int)
    requires LaneOf(a, b, now) == Left
    ensures SettlementDifference(xs + [a] + ys, b, now)(day) == SettlementDifference(xs + ys, b, now)(day)
  {
    hide LaneOf, CashOf, SymbolsOf, FullyPosted, Total;
    PostedWithout(xs, a, ys, b, now, day);
    TotalWithout(xs, a, ys, PostedIn(b, now, SymbolsOf(b.positions, day)));
  }

  lemma SettlementsWithout(xs: seq<Activity>, a: Activity, ys: seq<Activity>, b: Book, now: int)
    requires LaneOf(a, b, now) == Left
    ensures var more, fewer := xs + [a] + ys, xs + ys;
            Total(Days(b.positions), SettlementDifference(more, b, now)) ==
            Total(Days(b.positions), SettlementDifference(fewer, b, now)) &&
            Total(more, Loose(more, b, now)) == Total(fewer, Loose(fewer, b, now))
  {
    hide LaneOf, CashOf, SymbolsOf, FullyPosted, Total, Days, SettlementDifference;
    var more, fewer, days := xs + [a] + ys, xs + ys, Days(b.positions);
    forall day ensures FullyPosted(more, b, now, day) <==> FullyPosted(fewer, b, now, day) {
      PostedWithout(xs, a, ys, b, now, day);
    }
    forall i | 0 <= i < |days|
      ensures SettlementDifference(more, b, now)(days[i]) == SettlementDifference(fewer, b, now)(days[i]) {
      DayWithout(xs, a, ys, b, now, days[i]);
    }
    TotalSame(days, SettlementDifference(more, b, now), SettlementDifference(fewer, b, now));
    assert TakenBy(more, b, now, days) == TakenBy(fewer, b, now, days);
    assert WaitingFor(more, b, now, days) == WaitingFor(fewer, b, now, days);
    TotalWithout(xs, a, ys, Loose(fewer, b, now));
    TotalSame(more, Loose(more, b, now), Loose(fewer, b, now));
  }

  lemma AssignedWithout(xs: seq<Activity>, a: Activity, ys: seq<Activity>, b: Book, now: int, sharesHeld: Option<bool>)
    requires LaneOf(a, b, now) == Left
    ensures var more, fewer := xs + [a] + ys, xs + ys;
            AssignedDifference(more, b, now, sharesHeld) == AssignedDifference(fewer, b, now, sharesHeld) &&
            (AnyAssigned(more, b, now) <==> AnyAssigned(fewer, b, now)) &&
            (Replaces(more, b, now, sharesHeld) <==> Replaces(fewer, b, now, sharesHeld))
  {
    hide LaneOf, CashOf, InLane, Total, Nonfill, IsTouched, AnyAssigned, Untaken;
    var more, fewer := xs + [a] + ys, xs + ys;
    LaneWithout(xs, a, ys, b, now, Assigned);
    LaneWithout(xs, a, ys, b, now, Shares);
    WaitsAlike(xs, a, ys, b, now);
    TotalSame(b.positions, NonfillTouched(more, b, now), NonfillTouched(fewer, b, now));
  }

  lemma WaitsAlike(xs: seq<Activity>, a: Activity, ys: seq<Activity>, b: Book, now: int)
    requires LaneOf(a, b, now) == Left
    ensures var more, fewer := xs + [a] + ys, xs + ys;
            (AnyAssigned(more, b, now) <==> AnyAssigned(fewer, b, now)) &&
            (Untaken(more, b, now) <==> Untaken(fewer, b, now)) &&
            forall p :: IsTouched(more, b, now, p) <==> IsTouched(fewer, b, now, p)
  {
    hide LaneOf, TakenFrom, IsHeld;
    var more, fewer := xs + [a] + ys, xs + ys;
    AnyWithout(xs, a, ys, (x: Activity) => LaneOf(x, b, now) in {Assigned, Shares});
    AnyWithout(xs, a, ys, (x: Activity) => LaneOf(x, b, now) == Assigned && IsHeld(b, x.symbol) &&
                                           !TakenFrom(b, x.symbol));
    forall p ensures IsTouched(more, b, now, p) <==> IsTouched(fewer, b, now, p) {
      AnyWithout(xs, a, ys, (x: Activity) => LaneOf(x, b, now) == Assigned && x.symbol in p.gone);
    }
  }

  lemma ExternalWithout(xs: seq<Activity>, a: Activity, ys: seq<Activity>, b: Book, now: int)
    requires LaneOf(a, b, now) == Left
    ensures ExternalFees(xs + [a] + ys, b, now) == ExternalFees(xs + ys, b, now)
  {
    hide LaneOf, CashOf, InLane, Total, Estimate;
    var more, fewer := xs + [a] + ys, xs + ys;
    LaneWithout(xs, a, ys, b, now, ExternalCharge);
    forall id | id in b.externalOrders
      ensures (exists i :: 0 <= i < |more| && LaneOf(more[i], b, now) == ExternalCharge && more[i].order == id) <==>
              (exists i :: 0 <= i < |fewer| && LaneOf(fewer[i], b, now) == ExternalCharge && fewer[i].order == id)
    {
      AnyWithout(xs, a, ys, (x: Activity) => LaneOf(x, b, now) == ExternalCharge && x.order == id);
    }
  }

  /** What is not the record's changes no figure of any reading, and whether there is one: the owner's money in
      or out, a coin's fill, the equity book's shares, an older order's fill or fee, an event on a contract only
      an older position held, a liquidation the book has priced, a fill of the last fifteen minutes. */
  lemma NotOursChangesNothing(r: Reading, xs: seq<Activity>, a: Activity, ys: seq<Activity>, b: Book, now: int,
                              sharesHeld: Option<bool>)
    requires NotOurs(a, b, now)
    ensures IsReading(r, xs + [a] + ys, b, now, sharesHeld) <==> IsReading(r, xs + ys, b, now, sharesHeld)
    ensures var more, fewer := xs + [a] + ys, xs + ys;
            (exists i :: 0 <= i < |more| && Illegible(more[i], b)) <==>
            (exists i :: 0 <= i < |fewer| && Illegible(fewer[i], b))
  {
    LanesOut(a, b, now);
    hide LaneOf, CashOf, InLane, Total, DifferenceAt, CorrectionToFees, CorrectionTo, SettlementDifference, Loose,
      AssignedDifference, AnyAssigned, Replaces, ExternalFees, NotOurs, Illegible;
    AnyWithout(xs, a, ys, (x: Activity) => Illegible(x, b));
    LaneWithout(xs, a, ys, b, now, ToFees);
    LaneWithout(xs, a, ys, b, now, ToCrypto);
    LaneWithout(xs, a, ys, b, now, ToInterest);
    LaneWithout(xs, a, ys, b, now, ToMisc);
    LaneWithout(xs, a, ys, b, now, Stray);
    LaneWithout(xs, a, ys, b, now, Blocks);
    OrdersWithout(xs, a, ys, b, now);
    SettlementsWithout(xs, a, ys, b, now);
    AssignedWithout(xs, a, ys, b, now, sharesHeld);
    ExternalWithout(xs, a, ys, b, now);
  }
}
