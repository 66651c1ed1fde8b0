/** The broker's reconciliation (league/account_activity.py `classify`): where every account activity
    goes, and the passes over the book's orders, its own settlements, assignments and liquidations. Which
    of the book's orders a broker's order or leg is, and which legs filled, are read as maps. */
module Reconcile {
  import opened Wrappers
  import opened Totals

  const HALF_CENT := 0.005
  const SETTLE := 900

  datatype Asset = Crypto | Contract | Stock

  /** A contract's symbol and the day it expires; 0 for a symbol that names no option. */
  datatype Symbol = Symbol(name: Name, expiry: nat)

  datatype Side = Buy | Sell | NoSide

  datatype OptionEvent = Assignment | Exercise | Expiry | OtherEvent

  datatype Kind = Fill | Fee | CryptoFee | Interest | PassThrough | Funding | Event(event: OptionEvent) | Misc | Unknown

  datatype Activity = Activity(id: Name, kind: Kind, amount: Option<real>, order: Name, symbol: Symbol, asset: Asset,
                               side: Side, qty: Option<real>, price: Option<real>, at: int)

  /** `units` is the contracts times the multiplier: what a price is worth. */
  datatype BookFill = BookFill(oid: int, pid: Option<int>, value: real, units: real, fees: real)

  datatype Order = Order(oid: int, pid: Option<int>, finished: bool, updated: int)

  /** `settled` says the book settled it itself at its expiry; `gone` are the contracts an assignment or an
      exercise took from it. */
  datatype Position = Position(pid: int, cash: real, fees: real, legs: seq<Symbol>, settled: bool, gone: set<Symbol>)

  /** The book, and what the broker's order list says of it: `owner` the book's order of a venue order or
      leg id, `legs` an order's filled legs. */
  datatype Book = Book(orders: seq<Order>, opens: set<int>, fills: seq<BookFill>, positions: seq<Position>,
                       everHeld: set<Symbol>, holding: set<Symbol>, equity: set<Name>, externalOrders: set<Name>,
                       externalActivities: set<Name>, owner: map<Name, int>, legs: map<int, seq<Name>>)

  // ------------------------------------------------------------------ where an activity goes

  datatype Lane =
    | Left
    | Unreadable
    | Blocks
    | Own(oid: int)
    | Charged(oid: int)
    | ExternalCharge
    | Shares
    | Assigned
    | Posted
    | ToFees
    | ToCrypto
    | ToInterest
    | ToMisc
    | Stray

  predicate IsMine(b: Book, oid: int) {
    exists i :: 0 <= i < |b.orders| && b.orders[i].oid == oid
  }

  predicate IsHeld(b: Book, symbol: Symbol) {
    exists i :: 0 <= i < |b.positions| && symbol in b.positions[i].legs
  }

  function FillLane(a: Activity, b: Book, now: int): Lane {
    if a.asset == Crypto then Left
    else if a.qty.None? || a.price.None? then Unreadable
    else if a.asset == Stock then
      if a.order in b.equity then Left else if a.side == NoSide then Unreadable else Shares
    else if a.side == NoSide then Unreadable
    else if a.order in b.owner then (if IsMine(b, b.owner[a.order]) then Own(b.owner[a.order]) else Left)
    else if a.order in b.externalOrders || a.id in b.externalActivities then Left
    else if a.at > now - SETTLE then Left
    else if a.symbol in b.holding then Blocks
    else Stray
  }

  function EventLane(a: Activity, b: Book, event: OptionEvent): Lane {
    if a.symbol in b.everHeld && !IsHeld(b, a.symbol) then Left
    else if event == Assignment || event == Exercise then Assigned
    else if IsHeld(b, a.symbol) then Posted
    else Stray
  }

  function LaneOf(a: Activity, b: Book, now: int): Lane {
    match a.kind
    case Fill => FillLane(a, b, now)
    case Fee =>
      if a.amount.None? then Unreadable
      else if a.order in b.owner then (if IsMine(b, b.owner[a.order]) then Charged(b.owner[a.order]) else Left)
      else if a.order in b.externalOrders then ExternalCharge
      else ToFees
    case CryptoFee => if a.amount.None? then Unreadable else ToCrypto
    case Interest => if a.amount.None? then Unreadable else ToInterest
    case PassThrough => if a.amount.None? then Unreadable else ToFees
    case Funding => Left
    case Event(event) => EventLane(a, b, event)
    case Misc => ToMisc
    case Unknown => Stray
  }

  /** A fill's cash at the multiplier of its asset; any other activity's amount. */
  function CashOf(a: Activity): real {
    if a.kind == Fill then
      if a.qty.None? || a.price.None? || a.side == NoSide then 0.0
      else (if a.side == Sell then 1.0 else -1.0) * a.qty.value * a.price.value * (if a.asset == Stock then 1.0
                                                                                   else 100.0)
    else match a.amount case Some(amount) => amount case None => 0.0
  }

  function InLane(b: Book, now: int, lane: Lane): Activity -> real {
    (a: Activity) => if LaneOf(a, b, now) == lane then CashOf(a) else 0.0
  }

  /** An order or a leg the book knows, none of this record's: its position is from before the reset. */
  predicate IsOlder(b: Book, order: Name) {
    order in b.owner && forall i :: 0 <= i < |b.orders| ==> b.orders[i].oid != b.owner[order]
  }

  /** A contract's fill: on an order of this record, or on none of the book's and neither priced by it, still
      held nor just told. */
  predicate FillInRecord(a: Activity, b: Book, now: int) {
    if a.order in b.owner then !IsOlder(b, a.order)
    else a.order !in b.externalOrders && a.id !in b.externalActivities && a.symbol !in b.holding &&
         now - a.at >= SETTLE
  }

  /** What the reading answers for, by what an activity is: never the owner's own money, a coin sold at the
      reset, the equity book's shares or a fill the broker has just told of; of the rest, what is on an order
      of this record or on none of the book's, and on a contract the record held or that was never held. */
  predicate InRecord(a: Activity, b: Book, now: int) {
    match a.kind
    case Funding => false
    case Fill => a.asset != Crypto && (if a.asset == Stock then a.order !in b.equity else FillInRecord(a, b, now))
    case Fee => !IsOlder(b, a.order)
    case Event(_) =>
      a.symbol !in b.everHeld || exists i :: 0 <= i < |b.positions| && a.symbol in b.positions[i].legs
    case _ => true
  }

  /** The broker's cash the reading answers for. */
  function InScope(b: Book, now: int): Activity -> real {
    (a: Activity) => if InRecord(a, b, now) then CashOf(a) else 0.0
  }

  // ------------------------------------------------------------------ the book's own figures

  /** What a fill of the book's moved: cash out to open, in to close. */
  function FillCash(b: Book, f: BookFill): real {
    (if f.oid in b.opens then -1.0 else 1.0) * f.value * f.units
  }

  function FilledOf(b: Book, oid: int): BookFill -> real {
    (f: BookFill) => if f.oid == oid then FillCash(b, f) else 0.0
  }

  function FeesOf(oid: int): BookFill -> real {
    (f: BookFill) => if f.oid == oid then f.fees else 0.0
  }

  function NetOfPosition(b: Book, pid: int): BookFill -> real {
    (f: BookFill) => if f.pid == Some(pid) then FillCash(b, f) - f.fees else 0.0
  }

  function FeesOfPosition(pid: int): BookFill -> real {
    (f: BookFill) => if f.pid == Some(pid) then f.fees else 0.0
  }

  /** What the book credited a position beyond its own fills (`nonfill`). */
  ghost function Nonfill(b: Book, p: Position): real {
    p.cash - Total(b.fills, NetOfPosition(b, p.pid))
  }

  // ------------------------------------------------------------------ finished orders

  predicate IsSettled(o: Order, now: int) {
    o.finished && now - o.updated >= SETTLE
  }

  /** The broker's fills of an order less the book's. */
  ghost function Difference(acts: seq<Activity>, b: Book, now: int, o: Order): real {
    Total(acts, InLane(b, now, Own(o.oid))) - Total(b.fills, FilledOf(b, o.oid))
  }

  function Magnitude(x: real): real {
    if x < 0.0 then -x else x
  }

  ghost predicate Differs(acts: seq<Activity>, b: Book, now: int, o: Order) {
    IsSettled(o, now) && Magnitude(Difference(acts, b, now, o)) >= HALF_CENT
  }

  /** Whether the fee of one filled leg has posted. */
  predicate HasPosted(acts: seq<Activity>, b: Book, now: int, oid: int, leg: Name) {
    exists i :: 0 <= i < |acts| && LaneOf(acts[i], b, now) == Charged(oid) && acts[i].order == leg
  }

  function LegsOf(b: Book, oid: int): seq<Name> {
    if oid in b.legs then b.legs[oid] else []
  }

  predicate IsCharged(acts: seq<Activity>, b: Book, now: int, o: Order) {
    IsSettled(o, now) && LegsOf(b, o.oid) != [] &&
    forall k :: 0 <= k < |LegsOf(b, o.oid)| ==> HasPosted(acts, b, now, o.oid, LegsOf(b, o.oid)[k])
  }

  /** The broker's charges for an order and the book's estimate they replace. */
  ghost function Correction(acts: seq<Activity>, b: Book, now: int, o: Order): real {
    Total(acts, InLane(b, now, Charged(o.oid))) + Total(b.fills, FeesOf(o.oid))
  }

  function PidsOf(b: Book, o: Order): set<int> {
    var own := set i | 0 <= i < |b.fills| && b.fills[i].oid == o.oid && b.fills[i].pid.Some? :: b.fills[i].pid.value;
    if own != {} then own else if o.pid.Some? then {o.pid.value} else {}
  }

  /** Whether an order's correction goes into this position's own line. */
  predicate GoesTo(b: Book, o: Order, pid: int) {
    PidsOf(b, o) == {pid}
  }

  predicate HasHome(b: Book, o: Order) {
    |PidsOf(b, o)| == 1
  }

  ghost function DifferenceAt(acts: seq<Activity>, b: Book, now: int): Order -> real {
    (o: Order) => if Differs(acts, b, now, o) then Difference(acts, b, now, o) else 0.0
  }

  ghost function CorrectionTo(acts: seq<Activity>, b: Book, now: int, pid: int): Order -> real {
    (o: Order) => if IsCharged(acts, b, now, o) && GoesTo(b, o, pid) then Correction(acts, b, now, o) else 0.0
  }

  ghost function CorrectionToFees(acts: seq<Activity>, b: Book, now: int): Order -> real {
    (o: Order) => if IsCharged(acts, b, now, o) && !HasHome(b, o) then Correction(acts, b, now, o) else 0.0
  }

  // ------------------------------------------------------------------ the book's own settlements

  function LastExpiry(legs: seq<Symbol>): nat {
    if legs == [] then 0
    else
      var before, last := LastExpiry(legs[..|legs| - 1]), legs[|legs| - 1].expiry;
      if last > before then last else before
  }

  /** The day a position the book settled itself is grouped under: its legs' last expiry. */
  function SettledDay(p: Position): Option<int> {
    if p.settled then Some(LastExpiry(p.legs)) else None
  }

  /** The expiries of the positions the book settled itself, each once. */
  function Days(positions: seq<Position>): seq<int> {
    if positions == [] then []
    else
      var before, p := Days(positions[..|positions| - 1]), positions[|positions| - 1];
      if SettledDay(p).None? || SettledDay(p).value in before then before else before + [SettledDay(p).value]
  }

  function SymbolsOf(positions: seq<Position>, day: int): set<Symbol> {
    set i, s | 0 <= i < |positions| && SettledDay(positions[i]) == Some(day) && s in positions[i].legs :: s
  }

  predicate IsPosted(acts: seq<Activity>, b: Book, now: int, symbol: Symbol) {
    exists i :: 0 <= i < |acts| && LaneOf(acts[i], b, now) == Posted && acts[i].symbol == symbol
  }

  /** Whether the broker has posted an event for every contract of an expiry. */
  predicate FullyPosted(acts: seq<Activity>, b: Book, now: int, day: int) {
    SymbolsOf(b.positions, day) != {} && forall s :: s in SymbolsOf(b.positions, day) ==> IsPosted(acts, b, now, s)
  }

  function PostedIn(b: Book, now: int, symbols: set<Symbol>): Activity -> real {
    (a: Activity) => if LaneOf(a, b, now) == Posted && a.symbol in symbols then CashOf(a) else 0.0
  }

  ghost function NonfillOn(b: Book, day: int): Position -> real {
    (p: Position) => if SettledDay(p) == Some(day) then Nonfill(b, p) else 0.0
  }

  ghost function SettlementDifference(acts: seq<Activity>, b: Book, now: int): int -> real {
    (day: int) =>
      if FullyPosted(acts, b, now, day)
      then Total(acts, PostedIn(b, now, SymbolsOf(b.positions, day))) - Total(b.positions, NonfillOn(b, day)) else 0.0
  }

  /** The contracts of the expiries taken, and of those still waited for. */
  function TakenBy(acts: seq<Activity>, b: Book, now: int, days: seq<int>): set<Symbol> {
    set i, s | 0 <= i < |days| && FullyPosted(acts, b, now, days[i]) && s in SymbolsOf(b.positions, days[i]) :: s
  }

  function WaitingFor(acts: seq<Activity>, b: Book, now: int, days: seq<int>): set<Symbol> {
    set i, s | 0 <= i < |days| && !FullyPosted(acts, b, now, days[i]) && s in SymbolsOf(b.positions, days[i]) :: s
  }

  /** A cash event on a contract the book did not settle itself. */
  function Loose(acts: seq<Activity>, b: Book, now: int): Activity -> real {
    var settled := TakenBy(acts, b, now, Days(b.positions)) + WaitingFor(acts, b, now, Days(b.positions));
    (a: Activity) => if LaneOf(a, b, now) == Posted && a.symbol !in settled then CashOf(a) else 0.0
  }

  // ------------------------------------------------------------------ assignments and exercises

  predicate IsTouched(acts: seq<Activity>, b: Book, now: int, p: Position) {
    exists i :: 0 <= i < |acts| && LaneOf(acts[i], b, now) == Assigned && acts[i].symbol in p.gone
  }

  predicate AnyAssigned(acts: seq<Activity>, b: Book, now: int) {
    exists i :: 0 <= i < |acts| && LaneOf(acts[i], b, now) in {Assigned, Shares}
  }

  predicate TakenFrom(b: Book, symbol: Symbol) {
    exists i :: 0 <= i < |b.positions| && symbol in b.positions[i].gone
  }

  predicate Untaken(acts: seq<Activity>, b: Book, now: int) {
    exists i :: 0 <= i < |acts| && LaneOf(acts[i], b, now) == Assigned && IsHeld(b, acts[i].symbol) &&
                !TakenFrom(b, acts[i].symbol)
  }

  ghost predicate Liquidated(acts: seq<Activity>, b: Book, now: int) {
    exists i :: 0 <= i < |b.positions| && IsTouched(acts, b, now, b.positions[i]) &&
                b.positions[i].fees - Total(b.fills, FeesOfPosition(b.positions[i].pid)) >= HALF_CENT
  }

  /** Whether the broker's truth of assignments and exercises can replace the book's value for them. */
  ghost predicate Replaces(acts: seq<Activity>, b: Book, now: int, sharesHeld: Option<bool>) {
    !Untaken(acts, b, now) && sharesHeld == Some(false) && !Liquidated(acts, b, now)
  }

  ghost function NonfillTouched(acts: seq<Activity>, b: Book, now: int): Position -> real {
    (p: Position) => if IsTouched(acts, b, now, p) then Nonfill(b, p) else 0.0
  }

  ghost function AssignedDifference(acts: seq<Activity>, b: Book, now: int, sharesHeld: Option<bool>): real {
    if AnyAssigned(acts, b, now) && Replaces(acts, b, now, sharesHeld)
    then Total(acts, InLane(b, now, Assigned)) + Total(acts, InLane(b, now, Shares)) -
            Total(b.positions, NonfillTouched(acts, b, now))
    else 0.0
  }

  // ------------------------------------------------------------------ liquidations

  predicate ExternalPosted(acts: seq<Activity>, b: Book, now: int) {
    b.externalOrders != {} &&
    forall id :: id in b.externalOrders ==> exists i ::
                     0 <= i < |acts| && LaneOf(acts[i], b, now) == ExternalCharge && acts[i].order == id
  }

  ghost function Estimate(b: Book): Position -> real {
    (p: Position) =>
      var beyond := p.fees - Total(b.fills, FeesOfPosition(p.pid));
      if beyond > 0.0 then beyond else 0.0
  }

  ghost function ExternalFees(acts: seq<Activity>, b: Book, now: int): real {
    if ExternalPosted(acts, b, now) then Total(acts, InLane(b, now, ExternalCharge)) + Total(b.positions, Estimate(b))
    else 0.0
  }

  // ------------------------------------------------------------------ the reading

  /** `blocked` says Profit is unknown until something settles. */
  datatype Reading = Reading(fees: real, crypto: real, interest: real, misc: real, unreconciled: real,
                             feesByPid: map<int, real>, blocked: bool)

  ghost function Fees(acts: seq<Activity>, b: Book, now: int): real {
    Total(acts, InLane(b, now, ToFees)) + Total(b.orders, CorrectionToFees(acts, b, now)) + ExternalFees(acts, b, now)
  }

  ghost function Unreconciled(acts: seq<Activity>, b: Book, now: int, sharesHeld: Option<bool>): real {
    Total(acts, InLane(b, now, Stray)) + Total(b.orders, DifferenceAt(acts, b, now)) +
    Total(Days(b.positions), SettlementDifference(acts, b, now)) + Total(acts, Loose(acts, b, now)) +
    AssignedDifference(acts, b, now, sharesHeld)
  }

  function AmountAt(amounts: map<int, real>, key: int): real {
    if key in amounts then amounts[key] else 0.0
  }

  /** What a reading is, each figure on its own. */
  ghost predicate IsReading(r: Reading, acts: seq<Activity>, b: Book, now: int, sharesHeld: Option<bool>) {
    r.fees == Fees(acts, b, now) &&
    r.crypto == Total(acts, InLane(b, now, ToCrypto)) &&
    r.interest == Total(acts, InLane(b, now, ToInterest)) &&
    r.misc == Total(acts, InLane(b, now, ToMisc)) &&
    r.unreconciled == Unreconciled(acts, b, now, sharesHeld) &&
    (forall pid :: AmountAt(r.feesByPid, pid) == Total(b.orders, CorrectionTo(acts, b, now, pid))) &&
    (r.blocked <==> (exists i :: 0 <= i < |acts| && LaneOf(acts[i], b, now) == Blocks) ||
                    (AnyAssigned(acts, b, now) && !Replaces(acts, b, now, sharesHeld)))
  }
}
