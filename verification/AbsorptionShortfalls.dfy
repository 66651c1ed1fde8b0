/** Two runs of House and gateway, step by step, in which a burst's OpenAI line falls below what its calls
    were charged: one whose burst was funded after the meter began, and one whose month the gateway could
    not close. No grant is live in either, and each burst is one the owner may fund: a thousand dollars for
    Sail and for OpenAI, for eight hours. */
module AbsorptionShortfalls {
  import opened Wrappers
  import opened Sums
  import opened CampaignStore
  import opened Absorption
  import opened AbsorptionRuns
  import Calendar
  import Gateway

  const LINE := 3 * THOUSAND_USD
  const ALLOWANCE := map[Sail := THOUSAND_USD, OpenAI := THOUSAND_USD]
  const MONTH_CAP := 10 * THOUSAND_USD
  const RESEARCH := "research"
  const PAID := Frontier("paid")
  const LOST := Frontier("lost")
  const LATER := 2000 * Calendar.SECOND

  /** The month it all happens in, what the lost call is charged, and the worst case of the paid call before
      it, which settles at a millionth of a dollar. */
  datatype Case = Case(month: nat, charge: nat, worst: nat)

  predicate Valid(k: Case) {
    Calendar.YEAR_ONE <= k.month && 0 < k.charge <= THOUSAND_USD && 0 < k.worst <= k.charge + 1
  }

  /** Both calls at their worst fit a burst's line at once. */
  predicate BothFit(k: Case) {
    k.charge + k.worst <= THOUSAND_USD
  }

  function Start(k: Case): int {
    Calendar.MonthStart(k.month)
  }

  function Metered(k: Case): Policy {
    Policy(Start(k), Start(k) + 60 * Calendar.DAY, [Sail, OpenAI], map[Sail := LINE, OpenAI := LINE], map[], 2 * LINE,
           map[RESEARCH := Campaign(OpenAI, LINE)], {OpenAI}, map[])
  }

  function Funded(k: Case, firstRow: nat, meters: map<Kind, nat>): Burst {
    Burst(Start(k), Start(k) + 8 * Calendar.HOUR, [Sail, OpenAI], ALLOWANCE, firstRow, meters)
  }

  function PaidRow(k: Case, cost: Option<nat>): Commitment {
    Commitment(PAID, RESEARCH, OpenAI, k.worst, cost, Start(k))
  }

  function LostRow(k: Case, cost: Option<nat>): Commitment {
    Commitment(LOST, RESEARCH, OpenAI, k.charge, cost, Start(k))
  }

  function PaidCall(k: Case, cost: Option<nat>): Call {
    Gateway.Call(Some(PAID), k.month, k.worst, cost, Start(k))
  }

  function LostCall(k: Case): Call {
    Gateway.Call(Some(LOST), k.month, k.charge, None, Start(k))
  }

  function Month(k: Case, high: nat, settledHigh: nat, at: int, readingRow: nat): MonthMeter {
    MonthMeter(k.month, high, 0, Some(settledHigh), 0, Start(k), Some(Anchor(Start(k), 0, 0)), at, Some(MONTH_CAP),
               high,
               readingRow, 0)
  }

  function House(rows: seq<Commitment>, m: MonthMeter, burst: Option<Burst>): Store {
    Store(rows, map[OpenAI := Meter(0, m.high)], map[OpenAI := Health(m.at, false)], map[], map[OpenAI := m], burst,
          [], None,
          map[])
  }

  function World(k: Case, house: Store, gate: Gateway.Gate, at: int, seen: seq<Call>, absorbed: set<Ident>): System {
    System(house, gate, at, k.month, seen, k.month, absorbed)
  }

  function Opened(k: Case, burst: Option<Burst>): System {
    World(k, EMPTY.(burst := burst), Gateway.CLOSED, Start(k), [], {})
  }

  function WasRead(k: Case, rows: seq<Commitment>, burst: Option<Burst>): System {
    World(k, House(rows, Month(k, 0, 0, Start(k), 0), burst), Gateway.CLOSED, Start(k), [], {})
  }

  function Holding(k: Case): Gateway.Gate {
    Gateway.Gate(Some(Gateway.MonthRow(k.month, k.worst, k.worst)), None, [PaidCall(k, None)])
  }

  /** The paid call is in flight and its worst case read: the meter stands at it. */
  function InFlight(k: Case, burst: Option<Burst>): System {
    World(k, House([PaidRow(k, None)], Month(k, k.worst, 0, Start(k), 1), burst), Holding(k), Start(k),
          [PaidCall(k, None)], {})
  }

  function Answering(k: Case): Gateway.Gate {
    Gateway.Gate(Some(Gateway.MonthRow(k.month, 1, 0)), None, [PaidCall(k, Some(1))])
  }

  /** The paid call has settled at a millionth of a dollar, at the gateway and in the House. */
  function Paid(k: Case, rows: seq<Commitment>, burst: Option<Burst>): System {
    World(k, House(rows, Month(k, k.worst, 0, Start(k), 1), burst), Answering(k), Start(k), [PaidCall(k, None)],
          {})
  }

  function Losing(k: Case): Gateway.Gate {
    Gateway.Gate(Some(Gateway.MonthRow(k.month, k.charge + 1, k.charge)), None, [PaidCall(k, Some(1)), LostCall(k)])
  }

  function Called(k: Case, at: int, burst: Option<Burst>): System {
    World(k, House([PaidRow(k, Some(1)), LostRow(k, None)], Month(k, k.worst, 0, Start(k), 1), burst), Losing(k),
          at,
          [PaidCall(k, None)], {})
  }

  /** Half an hour later: nothing answered the lost call, and the month, read again, counts its worst case. */
  function Stale(k: Case, cost: Option<nat>, absorbed: set<Ident>, burst: Option<Burst>): System {
    World(k, House([PaidRow(k, Some(1)), LostRow(k, cost)], Month(k, k.charge + 1, 1, Start(k) + LATER, 2), burst),
          Losing(k),
          Start(k) + LATER, [PaidCall(k, Some(1)), LostCall(k)], absorbed)
  }

  // ------------------------------------------------------------------ an admission

  predicate Small(burst: Option<Burst>) {
    burst.Some? ==> burst.value.caps == ALLOWANCE && burst.value.kinds == [Sail, OpenAI]
  }

  predicate NoSail(s: Store) {
    Sail !in s.meters && forall i :: 0 <= i < |s.commitments| ==> s.commitments[i].kind == OpenAI
  }

  /** A hold of at most a thousand dollars is admitted where the phase's lines have used no more than that and
      the burst's, if one is funded, has room. */
  lemma SmallHoldIsAdmitted(k: Case, s: Store, now: int, ident: Ident, held: nat)
    requires Small(s.burst) && held <= THOUSAND_USD + 1 && !Known(s.commitments, ident) && !Breached(s.commitments)
    requires Running(Metered(k), s, now, false) && NoSail(s)
    requires OpenAI in s.health && s.health[OpenAI] == Health(now, false) && s.topUps == [] && s.bonus.None?
    requires Used(Metered(k), s, OpenAI) <= THOUSAND_USD + 1 &&
             Sum(s.commitments, OwedByCampaign(RESEARCH)) <= THOUSAND_USD + 1
    requires s.burst.Some? ==> BurstUsed(s, OpenAI, s.burst.value) + held <= THOUSAND_USD
    requires ProviderLeft(s, now, OpenAI).Some? ==> ProviderLeft(s, now, OpenAI).value >= LINE
    ensures ReserveAnswer(Metered(k), s, now, false, ident, RESEARCH, held) == Admitted
  {
    hide Used, BurstUsed, ProviderLeft, Sum, Breached, Calendar.MonthStart;
    SumEmpty(ToppedUp(OpenAI));
    assert LineAdmits(Metered(k), s, now, false, RESEARCH, held);
    BothKinds(k, s, now);
    assert DayAdmits(Metered(k), s, now, RESEARCH, held) && PhaseAdmits(Metered(k), s, now, held);
  }

  lemma SailIsUnused(k: Case, s: Store)
    requires NoSail(s)
    ensures Used(Metered(k), s, Sail) == 0
  {
    hide Sum, Calendar.MonthStart, PartOf;
    assert RowsAfter(s.commitments, 0) == s.commitments;
    forall part: Part ensures Sum(s.commitments, OwedIn(Sail, CoversFrom(s, Sail), part)) == 0 {
      SumZero(s.commitments, OwedIn(Sail, CoversFrom(s, Sail), part));
    }
  }

  lemma BothKinds(k: Case, s: Store, now: int)
    requires Small(s.burst) && s.topUps == [] && s.bonus.None? && NoSail(s)
    ensures Aggregate(Metered(k), s) == Used(Metered(k), s, OpenAI)
    ensures BurstExtra(s, now) == if s.burst.Some? then 2 * THOUSAND_USD else 0
  {
    hide Used, Sum, Calendar.MonthStart;
    SailIsUnused(k, s);
    SumEmpty(ToppedUp(OpenAI));
    SumEmpty(ToppedUp(Sail));
    JustTwo(Sail, OpenAI, UsedEach(Metered(k), s));
    if s.burst.Some? {
      JustTwo(Sail, OpenAI, CapEach(s, now, s.burst.value));
    }
  }

  lemma JustOne<T>(row: T, weight: T -> int)
    ensures Sum([row], weight) == weight(row)
  {
    SumEmpty(weight);
    SumAppend([], row, weight);
    assert [] + [row] == [row];
  }

  lemma JustTwo<T>(a: T, b: T, weight: T -> int)
    ensures Sum([a, b], weight) == weight(a) + weight(b)
  {
    JustOne(a, weight);
    SumAppend([a], b, weight);
    assert [a] + [b] == [a, b];
  }

  lemma NoParts(s: Store, n: nat)
    requires RowsAfter(s.commitments, n) == []
    ensures SumsOf(s, OpenAI, n) == Parts(0, 0, 0, 0)
  {
    hide Sum;
    forall part: Part ensures Sum([], OwedIn(OpenAI, CoversFrom(s, OpenAI), part)) == 0 {
      SumEmpty(OwedIn(OpenAI, CoversFrom(s, OpenAI), part));
    }
  }

  lemma NothingUsed(k: Case, burst: Option<Burst>)
    requires burst.Some? ==> burst == Some(Funded(k, 0, map[]))
    ensures var s := WasRead(k, [], burst).house;
            Used(Metered(k), s, OpenAI) == 0 && Sum(s.commitments, OwedByCampaign(RESEARCH)) == 0 &&
            (burst.Some? ==> BurstUsed(s, OpenAI, burst.value) == 0)
  {
    hide Sum, Calendar.MonthStart, SumsOf;
    var s := WasRead(k, [], burst).house;
    NoParts(s, 0);
    SumEmpty(OwedByCampaign(RESEARCH));
  }

  /** What the month has left where no commitment was made since its reading. */
  lemma MonthLeft(k: Case, s: Store, at: int)
    requires OpenAI in s.months && RowsAfter(s.commitments, s.months[OpenAI].readingRow) == []
    requires s.months[OpenAI].cap == Some(MONTH_CAP) && s.months[OpenAI].at == at &&
             s.months[OpenAI].spent <= THOUSAND_USD + 1
    ensures ProviderLeft(s, at, OpenAI).Some? && ProviderLeft(s, at, OpenAI).value >= LINE
  {
    hide Sum;
    SumEmpty(OwedUnder(OpenAI, true));
  }

  // ------------------------------------------------------------------ the steps both runs take

  lemma FirstRead(k: Case, burst: Option<Burst>)
    requires Valid(k)
    ensures After(Opened(k, burst), Read(true, MONTH_CAP)) == WasRead(k, [], burst)
    ensures Enabled(Opened(k, burst), Read(true, MONTH_CAP))
  {
    hide Calendar.MonthStart;
  }

  lemma PaidIsReserved(k: Case, burst: Option<Burst>)
    requires Valid(k) && (burst.Some? ==> burst == Some(Funded(k, 0, map[])) && BothFit(k))
    ensures var e := Event.House(Metered(k), Reserve(Start(k), false, PAID, RESEARCH, k.worst));
            Enabled(WasRead(k, [], burst), e) &&
            After(WasRead(k, [], burst), e) == WasRead(k, [PaidRow(k, None)], burst)
  {
    hide Calendar.MonthStart, ReserveAnswer, Used, Sum, BurstUsed, ProviderLeft;
    var s := WasRead(k, [], burst).house;
    NothingUsed(k, burst);
    MonthLeft(k, s, Start(k));
    SmallHoldIsAdmitted(k, s, Start(k), PAID, k.worst);
    assert s.commitments + [PaidRow(k, None)] == [PaidRow(k, None)];
  }

  lemma PaidIsTaken(k: Case, burst: Option<Burst>)
    requires Valid(k)
    ensures var sys, e := WasRead(k, [PaidRow(k, None)], burst), Take(Some(PAID), k.worst);
            Enabled(sys, e) && After(sys, e) == sys.(gate := Holding(k))
  {
    hide Calendar.MonthStart;
    var sys := WasRead(k, [PaidRow(k, None)], burst);
    assert MayCall(sys.house.commitments[0], PAID, k.worst, sys.now);
    assert [] + [PaidCall(k, None)] == [PaidCall(k, None)];
  }

  lemma InFlightIsRead(k: Case, burst: Option<Burst>)
    requires Valid(k)
    ensures var sys := WasRead(k, [PaidRow(k, None)], burst).(gate := Holding(k));
            Enabled(sys, Read(true, MONTH_CAP)) && After(sys, Read(true, MONTH_CAP)) == InFlight(k, burst)
  {
    hide Calendar.MonthStart;
  }

  lemma PaidIsAnswered(k: Case, burst: Option<Burst>)
    requires Valid(k)
    ensures Enabled(InFlight(k, burst), Answer(0, 1))
    ensures After(InFlight(k, burst), Answer(0, 1)) == Paid(k, [PaidRow(k, None)], burst)
  {
    hide Calendar.MonthStart;
    assert [PaidCall(k, None)][0 := PaidCall(k, Some(1))] == [PaidCall(k, Some(1))];
  }

  lemma PaidIsSettled(k: Case, burst: Option<Burst>)
    requires Valid(k)
    ensures var e := Event.House(Metered(k), Settle(PAID, 1));
            Enabled(Paid(k, [PaidRow(k, None)], burst), e) &&
            After(Paid(k, [PaidRow(k, None)], burst), e) == Paid(k, [PaidRow(k, Some(1))], burst)
  {
    hide Calendar.MonthStart;
    var s := Paid(k, [PaidRow(k, None)], burst).house;
    assert AfterSettle(s, PAID, 1).commitments == [PaidRow(k, Some(1))];
  }

  predicate Either(k: Case, burst: Option<Burst>) {
    (burst == Some(Funded(k, 0, map[])) && BothFit(k)) || burst == Some(Funded(k, 1, map[OpenAI := k.worst]))
  }

  lemma OnePaidPart(k: Case, s: Store)
    requires s.commitments == [PaidRow(k, Some(1))] && CoversFrom(s, OpenAI) == Start(k)
    ensures SumsOf(s, OpenAI, 0) == Parts(1, 0, 0, 0) && SumsOf(s, OpenAI, 1) == Parts(0, 0, 0, 0)
    ensures Sum(s.commitments, OwedByCampaign(RESEARCH)) == 1
  {
    hide Sum, Calendar.MonthStart;
    var row := PaidRow(k, Some(1));
    forall part: Part ensures Sum([row], OwedIn(OpenAI, Start(k), part)) == OwedIn(OpenAI, Start(k), part)(row) {
      JustOne(row, OwedIn(OpenAI, Start(k), part));
    }
    JustOne(row, OwedByCampaign(RESEARCH));
    assert RowsAfter(s.commitments, 0) == [row] && RowsAfter(s.commitments, 1) == [];
    NoParts(s, 1);
  }

  lemma PaidUses(k: Case, burst: Option<Burst>)
    requires Valid(k) && Either(k, burst)
    ensures var s := Paid(k, [PaidRow(k, Some(1))], burst).house;
            Used(Metered(k), s, OpenAI) == k.worst && Sum(s.commitments, OwedByCampaign(RESEARCH)) == 1 &&
            BurstUsed(s, OpenAI, burst.value) + k.charge <= THOUSAND_USD
  {
    hide Sum, Calendar.MonthStart, SumsOf;
    OnePaidPart(k, Paid(k, [PaidRow(k, Some(1))], burst).house);
  }

  lemma LostIsReserved(k: Case, burst: Option<Burst>)
    requires Valid(k) && Either(k, burst)
    ensures var e := Event.House(Metered(k), Reserve(Start(k), false, LOST, RESEARCH, k.charge));
            var rows := [PaidRow(k, Some(1)), LostRow(k, None)];
            Enabled(Paid(k, [PaidRow(k, Some(1))], burst), e) &&
            After(Paid(k, [PaidRow(k, Some(1))], burst), e) == Paid(k, rows, burst)
  {
    hide Calendar.MonthStart, ReserveAnswer, Used, Sum, BurstUsed, ProviderLeft;
    var s := Paid(k, [PaidRow(k, Some(1))], burst).house;
    PaidUses(k, burst);
    assert RowsAfter(s.commitments, 1) == [];
    MonthLeft(k, s, Start(k));
    SmallHoldIsAdmitted(k, s, Start(k), LOST, k.charge);
    assert s.commitments + [LostRow(k, None)] == [PaidRow(k, Some(1)), LostRow(k, None)];
  }

  lemma LostIsTaken(k: Case, burst: Option<Burst>)
    requires Valid(k)
    ensures var sys := Paid(k, [PaidRow(k, Some(1)), LostRow(k, None)], burst);
            Enabled(sys, Take(Some(LOST), k.charge)) &&
            After(sys, Take(Some(LOST), k.charge)) == Called(k, Start(k), burst)
  {
    hide Calendar.MonthStart;
    var sys := Paid(k, [PaidRow(k, Some(1)), LostRow(k, None)], burst);
    assert MayCall(sys.house.commitments[1], LOST, k.charge, sys.now);
    assert [PaidCall(k, Some(1))] + [LostCall(k)] == [PaidCall(k, Some(1)), LostCall(k)];
  }

  lemma HalfAnHourPasses(k: Case, burst: Option<Burst>)
    requires Valid(k)
    ensures var e := Tick(Start(k) + LATER, k.month);
            Enabled(Called(k, Start(k), burst), e) &&
            After(Called(k, Start(k), burst), e) == Called(k, Start(k) + LATER, burst)
  {
    hide Calendar.MonthStart;
    Calendar.NextMonth(k.month);
  }

  lemma StaleIsRead(k: Case, burst: Option<Burst>)
    requires Valid(k)
    ensures var sys := Called(k, Start(k) + LATER, burst);
            Enabled(sys, Read(true, MONTH_CAP)) && After(sys, Read(true, MONTH_CAP)) == Stale(k, None, {}, burst)
  {
    hide Calendar.MonthStart;
  }

  lemma MonthVouches(k: Case, burst: Option<Burst>)
    requires Valid(k)
    ensures Absorbs(Metered(k), Stale(k, None, {}, burst).house, Start(k) + LATER, OpenAI)
  {
    hide Calendar.MonthStart, Sum;
    var s := Stale(k, None, {}, burst).house;
    assert RowsAfter(s.commitments, 0) == s.commitments;
    JustTwo(PaidRow(k, Some(1)), LostRow(k, None), SettledSince(OpenAI, Start(k) + LATER - CALL_LIFE));
  }

  lemma LostIsAbsorbed(k: Case, burst: Option<Burst>)
    requires Valid(k)
    ensures var e := Event.House(Metered(k), AbsorbStale(Start(k) + LATER, OpenAI, METER_FRESH + CALL_LIFE));
            Enabled(Stale(k, None, {}, burst), e) &&
            After(Stale(k, None, {}, burst), e) == Stale(k, Some(0), {LOST}, burst)
  {
    hide Calendar.MonthStart, Absorbs;
    var sys, cutoff := Stale(k, None, {}, burst), Start(k) + LATER - (METER_FRESH + CALL_LIFE);
    var s := sys.house;
    MonthVouches(k, burst);
    assert Absorbable(s, s.commitments[1], OpenAI, cutoff) && !Absorbable(s, s.commitments[0], OpenAI, cutoff);
    assert AfterAbsorb(Metered(k), s, Start(k) + LATER, OpenAI, METER_FRESH + CALL_LIFE).commitments ==
           [PaidRow(k, Some(1)), LostRow(k, Some(0))];
    assert Zeroed(Metered(k), s, AbsorbStale(Start(k) + LATER, OpenAI, METER_FRESH + CALL_LIFE)) == {LOST};
  }

  // ------------------------------------------------------------------ the runs

  function Opening(k: Case): seq<Event> {
    [Read(true, MONTH_CAP), Event.House(Metered(k), Reserve(Start(k), false, PAID, RESEARCH, k.worst)),
     Take(Some(PAID), k.worst), Read(true, MONTH_CAP)]
  }

  function Ending(k: Case): seq<Event> {
    [Answer(0, 1), Event.House(Metered(k), Settle(PAID, 1)),
     Event.House(Metered(k), Reserve(Start(k), false, LOST, RESEARCH, k.charge)), Take(Some(LOST), k.charge),
     Tick(Start(k) + LATER, k.month), Read(true, MONTH_CAP),
     Event.House(Metered(k), AbsorbStale(Start(k) + LATER, OpenAI, METER_FRESH + CALL_LIFE))]
  }

  function Fund(p: Policy, k: Case): Event {
    Event.House(p, ActivateBurst(Start(k), false, ALLOWANCE, 8 * Calendar.HOUR))
  }

  lemma OneMore(sys: System, events: seq<Event>, next: System)
    requires events != [] && Enabled(sys, events[0]) && After(sys, events[0]) == next
    ensures RunOf(sys, events) == RunOf(next, events[1..]) && AllEnabled(sys, events) == AllEnabled(next, events[1..])
  {
    hide Enabled, After;
  }

  lemma {:induction false} RunsJoin(sys: System, a: seq<Event>, b: seq<Event>)
    ensures RunOf(sys, a + b) == RunOf(RunOf(sys, a), b)
    ensures AllEnabled(sys, a + b) == (AllEnabled(sys, a) && AllEnabled(RunOf(sys, a), b))
    decreases |a|
  {
    hide Enabled, After;
    if a == [] {
      assert a + b == b;
    } else {
      RunsJoin(After(sys, a[0]), a[1..], b);
      assert (a + b)[0] == a[0] && (a + b)[1..] == a[1..] + b;
    }
  }

  lemma NoMore(sys: System, events: seq<Event>)
    requires events == []
    ensures RunOf(sys, events) == sys && AllEnabled(sys, events)
  {}

  lemma OpeningRuns(k: Case, burst: Option<Burst>)
    requires Valid(k) && (burst.Some? ==> burst == Some(Funded(k, 0, map[])) && BothFit(k))
    ensures AllEnabled(Opened(k, burst), Opening(k)) && RunOf(Opened(k, burst), Opening(k)) == InFlight(k, burst)
  {
    FirstRead(k, burst);
    PaidIsReserved(k, burst);
    PaidIsTaken(k, burst);
    InFlightIsRead(k, burst);
    var events := Opening(k);
    hide Enabled, After, RunOf, AllEnabled, WasRead, InFlight, Opened, Holding, PaidRow, Metered;
    OneMore(Opened(k, burst), events, WasRead(k, [], burst));
    OneMore(WasRead(k, [], burst), events[1..], WasRead(k, [PaidRow(k, None)], burst));
    var taken := WasRead(k, [PaidRow(k, None)], burst).(gate := Holding(k));
    OneMore(WasRead(k, [PaidRow(k, None)], burst), events[1..][1..], taken);
    OneMore(taken, events[1..][1..][1..], InFlight(k, burst));
    NoMore(InFlight(k, burst), events[1..][1..][1..][1..]);
  }

  lemma EndingRuns(k: Case, burst: Option<Burst>)
    requires Valid(k) && Either(k, burst)
    ensures AllEnabled(InFlight(k, burst), Ending(k)) &&
            RunOf(InFlight(k, burst), Ending(k)) == Stale(k, Some(0), {LOST}, burst)
  {
    PaidIsAnswered(k, burst);
    PaidIsSettled(k, burst);
    LostIsReserved(k, burst);
    LostIsTaken(k, burst);
    HalfAnHourPasses(k, burst);
    StaleIsRead(k, burst);
    LostIsAbsorbed(k, burst);
    var e1 := Ending(k);
    var e2, e3 := e1[1..], e1[1..][1..];
    var e4, e5 := e3[1..], e3[1..][1..];
    var e6, e7 := e5[1..], e5[1..][1..];
    hide Enabled, After, RunOf, AllEnabled, Stale, InFlight, Paid, Called, PaidRow, LostRow, Metered;
    OneMore(InFlight(k, burst), e1, Paid(k, [PaidRow(k, None)], burst));
    OneMore(Paid(k, [PaidRow(k, None)], burst), e2, Paid(k, [PaidRow(k, Some(1))], burst));
    OneMore(Paid(k, [PaidRow(k, Some(1))], burst), e3, Paid(k, [PaidRow(k, Some(1)), LostRow(k, None)], burst));
    OneMore(Paid(k, [PaidRow(k, Some(1)), LostRow(k, None)], burst), e4, Called(k, Start(k), burst));
    OneMore(Called(k, Start(k), burst), e5, Called(k, Start(k) + LATER, burst));
    OneMore(Called(k, Start(k) + LATER, burst), e6, Stale(k, None, {}, burst));
    OneMore(Stale(k, None, {}, burst), e7, Stale(k, Some(0), {LOST}, burst));
    NoMore(Stale(k, Some(0), {LOST}, burst), e7[1..]);
  }

  lemma FundedLate(k: Case)
    requires Valid(k)
    ensures var e, late := Fund(Metered(k), k), Some(Funded(k, 1, map[OpenAI := k.worst]));
            Enabled(InFlight(k, None), e) && After(InFlight(k, None), e) == InFlight(k, late)
  {
    hide Calendar.MonthStart, Sum;
    var s := InFlight(k, None).house;
    assert (map x | x in s.meters :: s.meters[x].latest) == map[OpenAI := k.worst];
  }

  lemma FundedEarly(k: Case)
    requires Valid(k)
    ensures var e, early := Fund(Metered(k).(metered := {}), k), Some(Funded(k, 0, map[]));
            Enabled(Opened(k, None), e) && After(Opened(k, None), e) == Opened(k, early)
  {
    hide Calendar.MonthStart, Sum;
    var s := Opened(k, None).house;
    assert s.meters.Keys == {};
  }

  // ------------------------------------------------------------------ a burst funded after the meter began

  function LateRun(k: Case): seq<Event> {
    Opening(k) + [Fund(Metered(k), k)] + Ending(k)
  }

  lemma LateRunEnds(k: Case)
    requires Valid(k)
    ensures AllEnabled(Opened(k, None), LateRun(k))
    ensures RunOf(Opened(k, None), LateRun(k)) ==
            Stale(k, Some(0), {LOST}, Some(Funded(k, 1, map[OpenAI := k.worst])))
  {
    var late, fund := Some(Funded(k, 1, map[OpenAI := k.worst])), [Fund(Metered(k), k)];
    OpeningRuns(k, None);
    FundedLate(k);
    EndingRuns(k, late);
    hide Enabled, After, RunOf, AllEnabled, Stale, InFlight, Opened, Funded, Fund, Metered, Opening, Ending;
    OneMore(InFlight(k, None), fund, InFlight(k, late));
    NoMore(InFlight(k, late), fund[1..]);
    RunsJoin(Opened(k, None), Opening(k), fund);
    RunsJoin(Opened(k, None), Opening(k) + fund, Ending(k));
  }

  lemma LostIsCharged(k: Case, sys: System)
    requires sys.gate.calls == [PaidCall(k, Some(1)), LostCall(k)]
    ensures Sum(sys.gate.calls, ChargedTo(LOST)) == k.charge && Sum(sys.gate.calls, ChargedTo(PAID)) == 1
  {
    hide Sum;
    JustTwo(PaidCall(k, Some(1)), LostCall(k), ChargedTo(LOST));
    JustTwo(PaidCall(k, Some(1)), LostCall(k), ChargedTo(PAID));
  }

  lemma RowIsCharged(sys: System, c: Commitment)
    requires c.kind == OpenAI && c.id.Frontier? && c.cost.Some?
    ensures ChargedInAll(sys)(c) == Sum(sys.gate.calls, ChargedTo(c.id))
  {
    hide Sum;
    var part, charged := PartOf(c, CoversFrom(sys.house, OpenAI)), Sum(sys.gate.calls, ChargedTo(c.id));
    assert part == Inside || part == Before;
    assert ChargedNow(sys)(c) == if part == Inside then charged else 0;
    assert ChargedBefore(sys)(c) == if part == Before then charged else 0;
  }

  lemma BothAreCharged(k: Case, sys: System)
    requires sys.gate.calls == [PaidCall(k, Some(1)), LostCall(k)]
    ensures Sum([LostRow(k, Some(0))], ChargedInAll(sys)) == k.charge
    ensures Sum([PaidRow(k, Some(1)), LostRow(k, Some(0))], ChargedInAll(sys)) == k.charge + 1
  {
    LostIsCharged(k, sys);
    RowIsCharged(sys, LostRow(k, Some(0)));
    RowIsCharged(sys, PaidRow(k, Some(1)));
    hide Sum, ChargedInAll, ChargedTo;
    JustOne(LostRow(k, Some(0)), ChargedInAll(sys));
    JustTwo(PaidRow(k, Some(1)), LostRow(k, Some(0)), ChargedInAll(sys));
  }

  /** A burst funded once the meter runs can hide its calls under what the meter had already counted. In
      this run, of any month and any charge up to a thousand dollars, a call's worst case is read, the burst
      is funded, the call settles at next to nothing, and the burst's own lost call is absorbed. The line
      falls short of that call's charge by all but a millionth of the worst case that was read: with one
      above the charge itself, the line stands at nothing. What `AbsorptionIsSound` leaves out is used up. */
  lemma LateBurstHidesItsCalls(k: Case)
    requires Valid(k)
    ensures Started(Opened(k, None)) && AllEnabled(Opened(k, None), LateRun(k))
    ensures var sys := RunOf(Opened(k, None), LateRun(k));
            sys.house.burst.Some? &&
            var burst, since := sys.house.burst.value, CoversFrom(sys.house, OpenAI);
            var rows := RowsAfter(sys.house.commitments, burst.firstRow);
            Sum(rows, ChargedInAll(sys)) == k.charge &&
            BurstUsed(sys.house, OpenAI, burst) == k.charge - (k.worst - 1) &&
            Sum(rows, ChargedInAll(sys)) + Sum(sys.seen, Elsewhere(rows, since, sys.covered)) ==
            BurstUsed(sys.house, OpenAI, burst) + LeftOut(sys.house, Some(burst))
  {
    LateRunEnds(k);
    StartsValid(k);
    LateLine(k, Stale(k, Some(0), {LOST}, Some(Funded(k, 1, map[OpenAI := k.worst]))));
    hide RunOf, AllEnabled, Started, BurstUsed, Sum, LeftOut, LateRun, ChargedInAll;
  }

  lemma StartsValid(k: Case)
    requires Valid(k)
    ensures Started(Opened(k, None))
  {
    hide Calendar.MonthStart;
    Calendar.NextMonth(k.month);
  }

  lemma LostIsElsewhere(k: Case, since: int)
    requires since == Start(k)
    ensures Sum([PaidCall(k, Some(1)), LostCall(k)], Elsewhere([LostRow(k, Some(0))], since, k.month)) == 1
  {
    hide Calendar.MonthStart, Sum;
    var rows := [LostRow(k, Some(0))];
    assert Counted(rows[0], since) && HasRow(rows, LostCall(k), since);
    JustTwo(PaidCall(k, Some(1)), LostCall(k), Elsewhere(rows, since, k.month));
  }

  lemma LateLine(k: Case, sys: System)
    requires Valid(k) && sys == Stale(k, Some(0), {LOST}, Some(Funded(k, 1, map[OpenAI := k.worst])))
    ensures var burst, since, rows := sys.house.burst.value, CoversFrom(sys.house, OpenAI), [LostRow(k, Some(0))];
            RowsAfter(sys.house.commitments, burst.firstRow) == rows &&
            BurstUsed(sys.house, OpenAI, burst) == k.charge - (k.worst - 1) &&
            Sum(rows, ChargedInAll(sys)) == k.charge &&
            LeftOut(sys.house, Some(burst)) == k.worst && Sum(sys.seen, Elsewhere(rows, since, sys.covered)) == 1
  {
    BothAreCharged(k, sys);
    LostIsElsewhere(k, Start(k));
    LateUses(k, sys.house);
    hide Calendar.MonthStart, Sum, ChargedInAll, Elsewhere, BurstUsed;
  }

  lemma LateUses(k: Case, s: Store)
    requires Valid(k) && s == Stale(k, Some(0), {LOST}, Some(Funded(k, 1, map[OpenAI := k.worst]))).house
    ensures RowsAfter(s.commitments, 1) == [LostRow(k, Some(0))] &&
            BurstUsed(s, OpenAI, s.burst.value) == k.charge - (k.worst - 1)
  {
    hide Calendar.MonthStart, Sum;
    var row := LostRow(k, Some(0));
    assert RowsAfter(s.commitments, 1) == [row];
    forall part: Part ensures Sum([row], OwedIn(OpenAI, Start(k), part)) == 0 {
      JustOne(row, OwedIn(OpenAI, Start(k), part));
    }
  }

  // ------------------------------------------------------------------ a month the gateway could not close

  /** The burst is funded before OpenAI is metered, which the policy is amended to be (`_amend`). */
  function EarlyRun(k: Case): seq<Event> {
    [Fund(Metered(k).(metered := {}), k)] + Opening(k) + Ending(k)
  }

  function Restart(k: Case): seq<Event> {
    [Tick(Calendar.MonthStart(k.month + 1), k.month + 1), Read(false, MONTH_CAP)]
  }

  /** The next month's first reading, with no word on how the month on record ended. */
  function Restarted(k: Case, burst: Option<Burst>): System {
    var at := Calendar.MonthStart(k.month + 1);
    var m := MonthMeter(k.month + 1, 0, k.charge + 1, Some(0), 1, at, Some(Anchor(at, 2, 1)), at, Some(MONTH_CAP), 0,
                        2, k.charge + 1);
    System(Store([PaidRow(k, Some(1)), LostRow(k, Some(0))], map[OpenAI := Meter(0, k.charge + 1)],
                 map[OpenAI := Health(at, false)],
                 map[], map[OpenAI := m], burst, [], None, map[]),
           Losing(k), at, k.month + 1, [PaidCall(k, Some(1)), LostCall(k)], k.month + 1, {LOST})
  }

  lemma EarlyRunEnds(k: Case)
    requires Valid(k) && BothFit(k)
    ensures AllEnabled(Opened(k, None), EarlyRun(k))
    ensures RunOf(Opened(k, None), EarlyRun(k)) == Stale(k, Some(0), {LOST}, Some(Funded(k, 0, map[])))
  {
    var early, fund := Some(Funded(k, 0, map[])), [Fund(Metered(k).(metered := {}), k)];
    FundedEarly(k);
    OpeningRuns(k, early);
    EndingRuns(k, early);
    hide Enabled, After, RunOf, AllEnabled, Stale, InFlight, Opened, Funded, Fund, Metered, Opening, Ending;
    OneMore(Opened(k, None), fund, Opened(k, early));
    NoMore(Opened(k, early), fund[1..]);
    RunsJoin(Opened(k, None), fund, Opening(k));
    RunsJoin(Opened(k, None), fund + Opening(k), Ending(k));
  }

  lemma RestartRuns(k: Case, burst: Option<Burst>)
    requires Valid(k)
    ensures var sys := Stale(k, Some(0), {LOST}, burst);
            AllEnabled(sys, Restart(k)) && RunOf(sys, Restart(k)) == Restarted(k, burst)
  {
    MonthTurns(k, burst);
    TurnIsRead(k, burst);
    var sys, at := Stale(k, Some(0), {LOST}, burst), Calendar.MonthStart(k.month + 1);
    var events := Restart(k);
    hide Enabled, After, RunOf, AllEnabled, Stale, Restarted, Calendar.MonthStart;
    OneMore(sys, events, sys.(now := at, month := k.month + 1));
    OneMore(sys.(now := at, month := k.month + 1), events[1..], Restarted(k, burst));
    NoMore(Restarted(k, burst), events[1..][1..]);
  }

  lemma MonthTurns(k: Case, burst: Option<Burst>)
    requires Valid(k)
    ensures var sys, at := Stale(k, Some(0), {LOST}, burst), Calendar.MonthStart(k.month + 1);
            Enabled(sys, Tick(at, k.month + 1)) &&
            After(sys, Tick(at, k.month + 1)) == sys.(now := at, month := k.month + 1)
  {
    hide Calendar.MonthStart;
    Calendar.NextMonth(k.month);
    Calendar.NextMonth(k.month + 1);
  }

  lemma TurnIsRead(k: Case, burst: Option<Burst>)
    requires Valid(k)
    ensures var sys := Stale(k, Some(0), {LOST}, burst).(now := Calendar.MonthStart(k.month + 1), month := k.month + 1);
            Enabled(sys, Read(false, MONTH_CAP)) && After(sys, Read(false, MONTH_CAP)) == Restarted(k, burst)
  {
    hide Calendar.MonthStart;
  }

  /** An absorbed charge is forgotten when the month on record cannot be closed. In this run, of any month
      and any charge below a thousand dollars, the line covers both calls to the last millionth; the next
      month's first reading does not say how the month ended, and the line falls below their charges by the
      lost call's whole charge. */
  lemma RestartForgetsTheLostCall(k: Case)
    requires Valid(k) && BothFit(k)
    ensures Started(Opened(k, None)) && AllEnabled(Opened(k, None), EarlyRun(k) + Restart(k))
    ensures var before, after := RunOf(Opened(k, None), EarlyRun(k)), RunOf(Opened(k, None), EarlyRun(k) + Restart(k));
            var burst, rows := Funded(k, 0, map[]), before.house.commitments;
            before.house.burst == after.house.burst == Some(burst) && after.house.commitments == rows &&
            BurstUsed(before.house, OpenAI, burst) == Sum(rows, ChargedInAll(before)) == k.charge + 1 &&
            Sum(rows, ChargedInAll(after)) == k.charge + 1 && BurstUsed(after.house, OpenAI, burst) == 1
  {
    var early := Some(Funded(k, 0, map[]));
    EarlyRunEnds(k);
    StartsValid(k);
    RestartRuns(k, early);
    EarlyLine(k, Stale(k, Some(0), {LOST}, early));
    RestartedLine(k, Restarted(k, early));
    hide RunOf, AllEnabled, Started, BurstUsed, Sum, EarlyRun, Restart, ChargedInAll;
    RunsJoin(Opened(k, None), EarlyRun(k), Restart(k));
  }

  lemma EarlyLine(k: Case, sys: System)
    requires Valid(k) && sys == Stale(k, Some(0), {LOST}, Some(Funded(k, 0, map[])))
    ensures BurstUsed(sys.house, OpenAI, Funded(k, 0, map[])) == k.charge + 1
    ensures Sum(sys.house.commitments, ChargedInAll(sys)) == k.charge + 1
  {
    hide Calendar.MonthStart, Sum;
    var paid, lost := PaidRow(k, Some(1)), LostRow(k, Some(0));
    assert RowsAfter(sys.house.commitments, 0) == [paid, lost];
    forall part: Part
      ensures Sum([paid, lost], OwedIn(OpenAI, Start(k), part)) ==
              OwedIn(OpenAI, Start(k), part)(paid) + OwedIn(OpenAI, Start(k), part)(lost)
    {
      JustTwo(paid, lost, OwedIn(OpenAI, Start(k), part));
    }
    BothAreCharged(k, sys);
    hide ChargedInAll;
  }

  lemma RestartedLine(k: Case, sys: System)
    requires Valid(k) && sys == Restarted(k, Some(Funded(k, 0, map[])))
    ensures BurstUsed(sys.house, OpenAI, Funded(k, 0, map[])) == 1
    ensures Sum(sys.house.commitments, ChargedInAll(sys)) == k.charge + 1
  {
    Calendar.NextMonth(k.month);
    hide Calendar.MonthStart, Sum;
    var paid, lost, since := PaidRow(k, Some(1)), LostRow(k, Some(0)), Calendar.MonthStart(k.month + 1);
    assert RowsAfter(sys.house.commitments, 0) == [paid, lost];
    forall part: Part
      ensures Sum([paid, lost], OwedIn(OpenAI, since, part)) ==
              OwedIn(OpenAI, since, part)(paid) + OwedIn(OpenAI, since, part)(lost)
    {
      JustTwo(paid, lost, OwedIn(OpenAI, since, part));
    }
    BothAreCharged(k, sys);
    hide ChargedInAll;
  }
}
