/** What the passes of a reading compare, told by the book's and the activities' own fields
    (league/account_activity.py `classify`): finished orders and their fees, the book's own settlements,
    assignments and exercises, liquidations. */
module ReconcilePasses {
  import opened Wrappers
  import opened Totals
  import opened Reconcile
  import opened ReconcileScope

  // ------------------------------------------------------------------ finished orders

  /** What the book's fills of one order moved: an opening order pays, a closing one is paid. */
  function BookCash(b: Book, oid: int): BookFill -> real {
    (f: BookFill) =>
      if f.oid != oid then 0.0 else if oid in b.opens then -(f.value * f.units) else f.value * f.units
  }

  /** The broker's fills of an order less the book's. */
  ghost function Gap(acts: seq<Activity>, b: Book, oid: int): real {
    Total(acts, FillsOn(b, oid)) - Total(b.fills, BookCash(b, oid))
  }

  lemma GapIs(acts: seq<Activity>, b: Book, now: int, i: nat)
    requires i < |b.orders|
    ensures Difference(acts, b, now, b.orders[i]) == Gap(acts, b, b.orders[i].oid)
  {
    hide Total;
    PassesByKind(acts, b, now);
    var oid := b.orders[i].oid;
    TotalSame(b.fills, FilledOf(b, oid), BookCash(b, oid));
    hide FillsOn, BookCash, FilledOf, Difference;
  }

  /** An order finished a quarter of an hour ago is told where the broker's fills and the book's differ by half a
      cent or more. */
  lemma OrderIsTold(acts: seq<Activity>, b: Book, now: int, i: nat)
    requires i < |b.orders|
    ensures var o, gap := b.orders[i], Gap(acts, b, b.orders[i].oid);
            DifferenceAt(acts, b, now)(o) ==
            if o.finished && o.updated + 900 <= now && (gap >= 0.005 || gap <= -0.005) then gap else 0.0
  {
    GapIs(acts, b, now, i);
    hide Gap, Difference;
  }

  /** A fee on one of an order's legs has posted. */
  predicate FeeOn(acts: seq<Activity>, b: Book, oid: int, leg: Name) {
    exists i :: 0 <= i < |acts| && acts[i].kind == Fee && acts[i].amount.Some? && acts[i].order == leg &&
                leg in b.owner && b.owner[leg] == oid
  }

  /** The fees of an order are told once it finished a quarter of an hour ago, some leg of it filled, and every
      filled leg's fee has posted. */
  lemma FeesAreTold(acts: seq<Activity>, b: Book, now: int, i: nat)
    requires i < |b.orders|
    ensures var o := b.orders[i];
            IsCharged(acts, b, now, o) <==>
            o.finished && o.updated + 900 <= now && o.oid in b.legs && b.legs[o.oid] != [] &&
            forall k :: 0 <= k < |b.legs[o.oid]| ==> FeeOn(acts, b, o.oid, b.legs[o.oid][k])
  {
    var oid := b.orders[i].oid;
    forall leg ensures HasPosted(acts, b, now, oid, leg) <==> FeeOn(acts, b, oid, leg) {
      forall j | 0 <= j < |acts|
        ensures LaneOf(acts[j], b, now) == Charged(oid) <==>
                acts[j].kind == Fee && acts[j].amount.Some? && acts[j].order in b.owner && b.owner[acts[j].order] == oid
      {
        ChargedIs(acts[j], b, now, i);
      }
      hide LaneOf;
    }
    hide HasPosted, FeeOn;
  }

  lemma ChargedIs(a: Activity, b: Book, now: int, i: nat)
    requires i < |b.orders|
    ensures LaneOf(a, b, now) == Charged(b.orders[i].oid) <==>
            a.kind == Fee && a.amount.Some? && a.order in b.owner && b.owner[a.order] == b.orders[i].oid
  {}

  /** Its fees go to a position's own line where that is the one position of its fills, or, where none of its
      fills has one, the order's own; and then the order has a home. */
  lemma HomeIsTold(b: Book, o: Order, pid: int)
    ensures GoesTo(b, o, pid) <==>
            if exists i :: 0 <= i < |b.fills| && b.fills[i].oid == o.oid && b.fills[i].pid.Some?
            then forall i :: 0 <= i < |b.fills| && b.fills[i].oid == o.oid && b.fills[i].pid.Some? ==>
                               b.fills[i].pid.value == pid
            else o.pid == Some(pid)
    ensures HasHome(b, o) <==> exists x :: GoesTo(b, o, x)
  {
    HomeIsOne(b, o);
    var own := set i | 0 <= i < |b.fills| && b.fills[i].oid == o.oid && b.fills[i].pid.Some? :: b.fills[i].pid.value;
    assert own != {} <==> exists i :: 0 <= i < |b.fills| && b.fills[i].oid == o.oid && b.fills[i].pid.Some? by {
      if i :| 0 <= i < |b.fills| && b.fills[i].oid == o.oid && b.fills[i].pid.Some? {
        assert b.fills[i].pid.value in own;
      }
    }
    if own == {pid} {
      forall i | 0 <= i < |b.fills| && b.fills[i].oid == o.oid && b.fills[i].pid.Some?
        ensures b.fills[i].pid.value == pid {
        assert b.fills[i].pid.value in own;
      }
    }
    if own != {} && forall i :: 0 <= i < |b.fills| && b.fills[i].oid == o.oid && b.fills[i].pid.Some? ==>
                                  b.fills[i].pid.value == pid {
      assert own == {pid};
    }
  }

  lemma HomeIsOne(b: Book, o: Order)
    ensures HasHome(b, o) <==> exists x :: GoesTo(b, o, x)
  {
    hide PidsOf;
    if HasHome(b, o) {
      var x := OnlyOne(PidsOf(b, o));
      assert GoesTo(b, o, x);
    }
  }

  lemma HasMember(pids: set<int>)
    ensures pids == {} || exists x :: x in pids
  {
    if forall x :: x !in pids {
      assert pids == {};
    }
  }

  lemma OnlyOne(pids: set<int>) returns (x: int)
    requires |pids| == 1
    ensures pids == {x}
  {
    HasMember(pids);
    x :| x in pids;
    assert |pids - {x}| == 0;
  }

  // ------------------------------------------------------------------ what the book credited itself

  /** What the fills of a position moved, fees taken off. */
  function BookNet(b: Book, pid: int): BookFill -> real {
    (f: BookFill) =>
      if f.pid != Some(pid) then 0.0
      else (if f.oid in b.opens then -(f.value * f.units) else f.value * f.units) - f.fees
  }

  function BookFeesOf(pid: int): BookFill -> real {
    (f: BookFill) => if f.pid == Some(pid) then f.fees else 0.0
  }

  /** What the book credited a position beyond its own fills, and the fees it took beyond theirs. */
  lemma CreditIsTold(b: Book, p: Position)
    ensures Nonfill(b, p) == p.cash - Total(b.fills, BookNet(b, p.pid))
    ensures Total(b.fills, FeesOfPosition(p.pid)) == Total(b.fills, BookFeesOf(p.pid))
  {
    TotalSame(b.fills, NetOfPosition(b, p.pid), BookNet(b, p.pid));
    TotalSame(b.fills, FeesOfPosition(p.pid), BookFeesOf(p.pid));
    hide Total;
  }

  // ------------------------------------------------------------------ the book's own settlements

  predicate Expires(p: Position, day: int) {
    p.settled &&
    (forall i :: 0 <= i < |p.legs| ==> p.legs[i].expiry <= day) &&
    (if p.legs == [] then day == 0 else exists i :: 0 <= i < |p.legs| && p.legs[i].expiry == day)
  }

  lemma {:induction false} LastExpiryIs(legs: seq<Symbol>)
    ensures forall i :: 0 <= i < |legs| ==> legs[i].expiry <= LastExpiry(legs)
    ensures legs != [] ==> exists i :: 0 <= i < |legs| && legs[i].expiry == LastExpiry(legs)
    ensures legs == [] ==> LastExpiry(legs) == 0
  {
    if legs != [] {
      var front := legs[..|legs| - 1];
      LastExpiryIs(front);
      if front != [] {
        var i :| 0 <= i < |front| && front[i].expiry == LastExpiry(front);
        assert legs[i] == front[i];
      }
      assert legs[|legs| - 1].expiry <= LastExpiry(legs);
    }
  }

  lemma ExpiresIs(p: Position, day: int)
    ensures SettledDay(p) == Some(day) <==> Expires(p, day)
  {
    LastExpiryIs(p.legs);
    hide LastExpiry;
  }

  lemma {:induction false} DaysAre(positions: seq<Position>)
    ensures forall day :: day in Days(positions) <==>
                          exists i :: 0 <= i < |positions| && SettledDay(positions[i]) == Some(day)
    ensures forall i, j :: 0 <= i < j < |Days(positions)| ==> Days(positions)[i] != Days(positions)[j]
  {
    hide SettledDay;
    if positions != [] {
      var front, last := positions[..|positions| - 1], positions[|positions| - 1];
      DaysAre(front);
      assert positions == front + [last];
    }
  }

  /** The contracts an expiry's settlement is compared on: those of the positions the book settled itself whose
      last contract expires then. */
  lemma SettlementIsTold(b: Book, day: int)
    ensures day in Days(b.positions) <==> exists i :: 0 <= i < |b.positions| && Expires(b.positions[i], day)
    ensures forall s :: s in SymbolsOf(b.positions, day) <==>
                        exists i :: 0 <= i < |b.positions| && Expires(b.positions[i], day) && s in b.positions[i].legs
    ensures forall p :: NonfillOn(b, day)(p) == if Expires(p, day) then Nonfill(b, p) else 0.0
  {
    hide SettledDay, Expires, Nonfill;
    DaysAre(b.positions);
    forall p: Position ensures SettledDay(p) == Some(day) <==> Expires(p, day) {
      ExpiresIs(p, day);
    }
    forall i | 0 <= i < |b.positions|
      ensures SettledDay(b.positions[i]) == Some(day) <==> Expires(b.positions[i], day) {
      ExpiresIs(b.positions[i], day);
    }
  }

  /** An event that settles a contract the record holds. */
  predicate SettlesHeld(a: Activity, b: Book) {
    a.kind.Event? && a.kind.event != Assignment && a.kind.event != Exercise && HeldNow(b, a.symbol)
  }

  /** An assignment or an exercise of the record's, or of a contract never held. */
  predicate Takes(a: Activity, b: Book) {
    a.kind.Event? && (a.kind.event == Assignment || a.kind.event == Exercise) &&
    (a.symbol !in b.everHeld || HeldNow(b, a.symbol))
  }

  predicate MovesShares(a: Activity, b: Book) {
    a.kind == Fill && a.asset == Stock && a.order !in b.equity && a.qty.Some? && a.price.Some? && a.side != NoSide
  }

  lemma EventsAre(a: Activity, b: Book, now: int)
    ensures LaneOf(a, b, now) == Posted <==> SettlesHeld(a, b)
    ensures LaneOf(a, b, now) == Assigned <==> Takes(a, b)
    ensures LaneOf(a, b, now) == Shares <==> MovesShares(a, b)
    ensures LaneOf(a, b, now) == ExternalCharge <==>
            a.kind == Fee && a.amount.Some? && a.order !in b.owner && a.order in b.externalOrders
  {}

  predicate HasEvent(acts: seq<Activity>, b: Book, s: Symbol) {
    exists i :: 0 <= i < |acts| && SettlesHeld(acts[i], b) && acts[i].symbol == s
  }

  /** The broker's cash replaces the book's value for an expiry once an event has posted for every contract of
      it, and the cash is what those events paid. */
  lemma ExpiryIsTold(acts: seq<Activity>, b: Book, now: int, day: int)
    ensures FullyPosted(acts, b, now, day) <==>
            (exists s :: s in SymbolsOf(b.positions, day)) &&
            forall s :: s in SymbolsOf(b.positions, day) ==> HasEvent(acts, b, s)
    ensures SettlementDifference(acts, b, now)(day) ==
            if FullyPosted(acts, b, now, day)
            then Total(acts, PaidOn(b, SymbolsOf(b.positions, day))) - Total(b.positions, NonfillOn(b, day)) else 0.0
  {
    hide LaneOf, CashOf, SymbolsOf, Nonfill, Total, SettlesHeld;
    forall i | 0 <= i < |acts|
      ensures LaneOf(acts[i], b, now) == Posted <==> SettlesHeld(acts[i], b)
    {
      EventsAre(acts[i], b, now);
    }
    forall s ensures IsPosted(acts, b, now, s) <==> HasEvent(acts, b, s) {}
    hide IsPosted, HasEvent;
    TotalSame(acts, PostedIn(b, now, SymbolsOf(b.positions, day)), PaidOn(b, SymbolsOf(b.positions, day)));
  }

  function PaidOn(b: Book, symbols: set<Symbol>): Activity -> real {
    (a: Activity) => if SettlesHeld(a, b) && a.symbol in symbols then CashOf(a) else 0.0
  }

  /** An event on a contract of no expiry the book settled itself is told as it is. */
  function PaidElsewhere(b: Book): Activity -> real {
    (a: Activity) =>
      if SettlesHeld(a, b) && !(exists i :: 0 <= i < |b.positions| && b.positions[i].settled &&
                                            a.symbol in b.positions[i].legs)
      then CashOf(a) else 0.0
  }

  lemma LooseIs(acts: seq<Activity>, b: Book, now: int)
    ensures Total(acts, Loose(acts, b, now)) == Total(acts, PaidElsewhere(b))
  {
    hide LaneOf, CashOf, Total, FullyPosted;
    forall i | 0 <= i < |acts| ensures Loose(acts, b, now)(acts[i]) == PaidElsewhere(b)(acts[i]) {
      EventsAre(acts[i], b, now);
      SettledElsewhere(acts, b, now, acts[i].symbol);
      hide SettlesHeld, TakenBy, WaitingFor;
    }
    TotalSame(acts, Loose(acts, b, now), PaidElsewhere(b));
  }

  lemma SettledElsewhere(acts: seq<Activity>, b: Book, now: int, s: Symbol)
    ensures s in TakenBy(acts, b, now, Days(b.positions)) + WaitingFor(acts, b, now, Days(b.positions)) <==>
            exists i :: 0 <= i < |b.positions| && b.positions[i].settled && s in b.positions[i].legs
  {
    hide FullyPosted, LastExpiry;
    DaysAre(b.positions);
    var days := Days(b.positions);
    if i :| 0 <= i < |b.positions| && b.positions[i].settled && s in b.positions[i].legs {
      var day := SettledDay(b.positions[i]).value;
      assert day in days;
      var k :| 0 <= k < |days| && days[k] == day;
      assert s in SymbolsOf(b.positions, days[k]);
    }
  }

  // ------------------------------------------------------------------ assignments and exercises

  predicate Touched(acts: seq<Activity>, b: Book, p: Position) {
    exists i :: 0 <= i < |acts| && Takes(acts[i], b) && acts[i].symbol in p.gone
  }

  function CreditOf(acts: seq<Activity>, b: Book, credit: Position -> real): Position -> real {
    (p: Position) => if Touched(acts, b, p) then credit(p) else 0.0
  }

  ghost function Credit(b: Book): Position -> real {
    (p: Position) => p.cash - Total(b.fills, BookNet(b, p.pid))
  }

  /** Where an assignment, an exercise or a share of one was told: once the book has taken every one of them on
      the contracts it held, the account is known to hold no share, and no touched position was charged half a
      cent or more beyond its fills, what the broker paid for them less what the book credited the touched
      positions; until then Profit waits. */
  lemma AssignmentIsTold(acts: seq<Activity>, b: Book, now: int, sharesHeld: Option<bool>)
    ensures AnyAssigned(acts, b, now) <==>
            exists i :: 0 <= i < |acts| && (Takes(acts[i], b) || MovesShares(acts[i], b))
    ensures Replaces(acts, b, now, sharesHeld) <==>
            sharesHeld == Some(false) &&
            (forall i :: 0 <= i < |acts| && Takes(acts[i], b) && HeldNow(b, acts[i].symbol) ==>
                           exists j :: 0 <= j < |b.positions| && acts[i].symbol in b.positions[j].gone) &&
            (forall j :: 0 <= j < |b.positions| && Touched(acts, b, b.positions[j]) ==>
                           b.positions[j].fees - Total(b.fills, BookFeesOf(b.positions[j].pid)) < 0.005)
    ensures AssignedDifference(acts, b, now, sharesHeld) ==
            if AnyAssigned(acts, b, now) && Replaces(acts, b, now, sharesHeld)
            then Total(acts, TakenShares(b)) - Total(b.positions, CreditOf(acts, b, Credit(b))) else 0.0
  {
    hide LaneOf, CashOf, InLane, Total, Takes, MovesShares;
    PassesByKind(acts, b, now);
    forall i | 0 <= i < |acts|
      ensures LaneOf(acts[i], b, now) == Assigned <==> Takes(acts[i], b)
      ensures LaneOf(acts[i], b, now) == Shares <==> MovesShares(acts[i], b)
    {
      EventsAre(acts[i], b, now);
    }
    forall p: Position ensures IsTouched(acts, b, now, p) <==> Touched(acts, b, p) {}
    hide IsTouched, Touched;
    forall i | 0 <= i < |b.positions|
      ensures NonfillTouched(acts, b, now)(b.positions[i]) == CreditOf(acts, b, Credit(b))(b.positions[i])
      ensures Total(b.fills, FeesOfPosition(b.positions[i].pid)) == Total(b.fills, BookFeesOf(b.positions[i].pid))
    {
      CreditIsTold(b, b.positions[i]);
      assert IsTouched(acts, b, now, b.positions[i]) <==> Touched(acts, b, b.positions[i]);
      hide Nonfill, BookNet, BookFeesOf, FeesOfPosition;
    }
    hide Nonfill, BookNet, BookFeesOf, FeesOfPosition, NonfillTouched, CreditOf, Credit;
    TotalSame(b.positions, NonfillTouched(acts, b, now), CreditOf(acts, b, Credit(b)));
    UntakenIs(acts, b, now);
  }

  lemma UntakenIs(acts: seq<Activity>, b: Book, now: int)
    ensures Untaken(acts, b, now) <==>
            exists i :: 0 <= i < |acts| && Takes(acts[i], b) && HeldNow(b, acts[i].symbol) &&
                        forall j :: 0 <= j < |b.positions| ==> acts[i].symbol !in b.positions[j].gone
  {
    hide LaneOf, Takes;
    forall i | 0 <= i < |acts| ensures LaneOf(acts[i], b, now) == Assigned <==> Takes(acts[i], b) {
      EventsAre(acts[i], b, now);
    }
  }

  // ------------------------------------------------------------------ liquidations

  ghost function BeyondFills(b: Book): Position -> real {
    (p: Position) =>
      var beyond := p.fees - Total(b.fills, BookFeesOf(p.pid));
      if beyond < 0.0 then 0.0 else beyond
  }

  /** The book's liquidation fees are replaced once every liquidation order it priced from has had a fee posted:
      by those fees, with what each position was charged beyond its fills taken back. */
  lemma LiquidationsAreTold(acts: seq<Activity>, b: Book, now: int)
    ensures ExternalFees(acts, b, now) ==
            if b.externalOrders != {} &&
               (forall id :: id in b.externalOrders ==>
                               exists i :: 0 <= i < |acts| && acts[i].kind == Fee && acts[i].amount.Some? &&
                                           acts[i].order == id &&
                                           acts[i].order !in b.owner)
            then Total(acts, LiquidationFees(b)) + Total(b.positions, BeyondFills(b)) else 0.0
  {
    hide LaneOf, CashOf, InLane, Total;
    PassesByKind(acts, b, now);
    forall i | 0 <= i < |acts|
      ensures LaneOf(acts[i], b, now) == ExternalCharge <==>
              acts[i].kind == Fee && acts[i].amount.Some? && acts[i].order !in b.owner &&
              acts[i].order in b.externalOrders
    {
      EventsAre(acts[i], b, now);
    }
    forall i | 0 <= i < |b.positions| ensures Estimate(b)(b.positions[i]) == BeyondFills(b)(b.positions[i]) {
      CreditIsTold(b, b.positions[i]);
      hide BookFeesOf, FeesOfPosition;
    }
    hide Estimate, BeyondFills, LiquidationFees;
    TotalSame(b.positions, Estimate(b), BeyondFills(b));
  }

  /** Profit waits exactly for a settled liquidation the book has not taken, or for an assignment, an exercise or its
      shares, told while the book has not taken one on a contract it held, the account is not known to hold no share,
      or a touched position was charged beyond its fills. */
  lemma WaitingIsTold(r: Reading, acts: seq<Activity>, b: Book, now: int, sharesHeld: Option<bool>)
    requires IsReading(r, acts, b, now, sharesHeld)
    ensures r.blocked <==>
            (exists i :: 0 <= i < |acts| && Waits(acts[i], b, now)) ||
            ((exists i :: 0 <= i < |acts| && (Takes(acts[i], b) || MovesShares(acts[i], b))) &&
             !(sharesHeld == Some(false) &&
               (forall i :: 0 <= i < |acts| && Takes(acts[i], b) && HeldNow(b, acts[i].symbol) ==>
                              exists j :: 0 <= j < |b.positions| && acts[i].symbol in b.positions[j].gone) &&
               (forall j :: 0 <= j < |b.positions| && Touched(acts, b, b.positions[j]) ==>
                              b.positions[j].fees - Total(b.fills, BookFeesOf(b.positions[j].pid)) < 0.005)))
  {
    AssignmentIsTold(acts, b, now, sharesHeld);
    forall i | 0 <= i < |acts| ensures LaneOf(acts[i], b, now) == Blocks <==> Waits(acts[i], b, now) {
      LanesOut(acts[i], b, now);
    }
    hide LaneOf, Waits, Takes, MovesShares, Touched, HeldNow, AnyAssigned, Replaces, Total;
  }
}
