/** Why OpenAI's stale holds may be absorbed into the gateway's month (league/campaigns.py
    `observe_month`, `_absorb_into_month`): the House's store and the gateway's month run side by side
    on one clock, and what the meter has measured is never less than what the gateway had charged, at the
    last reading, for every call made since the meter covers. */
module Absorption {
  import opened Wrappers
  import opened Sums
  import opened CampaignStore
  import Calendar
  import Gateway
  import CampaignRuns

  type Call = Gateway.Call

  /** `seen` is the history the last reading read; `covered` the month `covers_from` begins;
      `absorbed` the identities an absorption has zeroed. */
  datatype System = System(house: Store, gate: Gateway.Gate, now: int, month: nat, seen: seq<Call>, covered: nat,
                           absorbed: set<Ident>)

  datatype Event =
    | House(policy: Policy, step: Step)
    | Read(withPrevious: bool, cap: nat)
    | Take(ident: Option<Ident>, worst: nat)
    | Answer(i: nat, cost: nat)
    | Tick(now: int, month: nat)

  function ReadingOf(sys: System, withPrevious: bool, cap: nat): CampaignStore.Reading {
    var row := Gateway.FrontierMonth(sys.gate, sys.month);
    CampaignStore.Reading(sys.month, row.spent, Some(Max(row.spent - row.inflight, 0)), Some(cap),
                          if withPrevious then Gateway.FrontierPrevious(sys.gate, sys.month) else None)
  }

  predicate OnTheClock(step: Step, now: int) {
    match step
    case Reserve(at, _, _, _, _) => at == now
    case ObserveSpend(at, kind, _) => at == now && kind != OpenAI
    case ObserveBalance(at, kind, _) => at == now && kind != OpenAI
    case ObserveMonth(at, kind, _) => at == now && kind != OpenAI
    case AbsorbStale(at, kind, older) => at == now && (kind == OpenAI ==> older >= METER_FRESH + CALL_LIFE)
    case MirrorBonus(at, _) => at == now
    case ActivateBurst(at, _, _, _) => at == now
    case _ => true
  }

  /** The House's reservation a call is made under. */
  ghost predicate Licensed(sys: System, ident: Option<Ident>, worst: nat) {
    ident.Some? ==>
      (forall i :: 0 <= i < |sys.gate.calls| ==> sys.gate.calls[i].ident != ident) &&
      exists j :: 0 <= j < |sys.house.commitments| && MayCall(sys.house.commitments[j], ident.value, worst, sys.now)
  }

  predicate MayCall(c: Commitment, ident: Ident, worst: nat, now: int) {
    c.id == ident && worst <= c.reserved && c.created <= now <= c.created + CALL_LIFE
  }

  /** The House reserves a call's worst case before it asks the gateway, which takes it within the
      call's life and holds the same worst case; a call settles once, at or below it. */
  ghost predicate Enabled(sys: System, event: Event) {
    match event
    case House(_, step) => OnTheClock(step, sys.now)
    case Read(_, _) => true
    case Take(ident, worst) => worst > 0 && Licensed(sys, ident, worst)
    case Answer(i, cost) => i < |sys.gate.calls| && cost <= sys.gate.calls[i].worst
    case Tick(now, month) => sys.now <= now && Calendar.MonthStart(month) <= now < Calendar.MonthStart(month + 1)
  }

  /** The identities an absorption step zeroes now. */
  ghost function Zeroed(p: Policy, s: Store, step: Step): set<Ident> {
    if step.AbsorbStale? && step.kind == OpenAI && Absorbs(p, s, step.now, OpenAI)
    then set i | 0 <= i < |s.commitments| && Absorbable(s, s.commitments[i], OpenAI, step.now - step.older) ::
              s.commitments[i].id
    else {}
  }

  ghost function AfterHouse(p: Policy, sys: System, step: Step): System {
    sys.(house := Next(p, sys.house, step), absorbed := sys.absorbed + Zeroed(p, sys.house, step))
  }

  /** A later month the gateway did not close for the House: coverage begins again with it. */
  predicate StartsCoverage(sys: System, r: CampaignStore.Reading) {
    OpenAI !in sys.house.months || (sys.house.months[OpenAI].month < sys.month && !Closes(sys.house.months[OpenAI], r))
  }

  function AfterRead(sys: System, withPrevious: bool, cap: nat): System {
    var r := ReadingOf(sys, withPrevious, cap);
    sys.(house := AfterMonth(sys.house, sys.now, OpenAI, r), seen := sys.gate.calls,
    covered := if StartsCoverage(sys, r) then sys.month else sys.covered)
  }

  function AfterTake(sys: System, ident: Option<Ident>, worst: nat): System {
    sys.(gate := Gateway.Reserve(sys.gate, sys.month, Gateway.Call(ident, sys.month, worst, None, sys.now)))
  }

  function AfterAnswer(sys: System, i: nat, cost: nat): System {
    if i < |sys.gate.calls| then sys.(gate := Gateway.Settle(sys.gate, sys.month, i, cost)) else sys
  }

  ghost function After(sys: System, event: Event): System {
    match event
    case House(p, step) => AfterHouse(p, sys, step)
    case Read(withPrevious, cap) => AfterRead(sys, withPrevious, cap)
    case Take(ident, worst) => AfterTake(sys, ident, worst)
    case Answer(i, cost) => AfterAnswer(sys, i, cost)
    case Tick(now, month) => sys.(now := now, month := month)
  }

  // ------------------------------------------------------------------ the simulation

  ghost predicate ClockAgrees(sys: System) {
    Calendar.YEAR_ONE <= sys.month && Calendar.MonthStart(sys.month) <= sys.now < Calendar.MonthStart(sys.month + 1)
  }

  /** Every House call in the gateway's history belongs to one commitment, made no later than it. */
  ghost predicate CallsAreReserved(sys: System) {
    var rows, calls := sys.house.commitments, sys.gate.calls;
    DistinctIds(rows) &&
    (forall i, j :: 0 <= i < j < |calls| && calls[i].ident.Some? ==> calls[i].ident != calls[j].ident) &&
    (forall i :: 0 <= i < |calls| ==> Charge(calls[i]) <= calls[i].worst) &&
    (forall i, j :: 0 <= i < |calls| && 0 <= j < |rows| && calls[i].ident == Some(rows[j].id) ==>
                      Fits(rows[j], calls[i])) &&
    (forall i :: 0 <= i < |calls| && calls[i].ident.Some? ==> Known(rows, calls[i].ident.value))
  }

  function Charge(c: Call): nat {
    Gateway.Charge(c)
  }

  predicate Fits(c: Commitment, call: Call) {
    call.worst <= c.reserved && c.created <= call.at <= c.created + CALL_LIFE &&
    call.at < Calendar.MonthStart(call.month + 1)
  }

  /** The last reading's history against today's: a month that ended is as it was read. */
  ghost predicate SeenIsPrefix(sys: System, month: nat, at: int) {
    var calls, seen := sys.gate.calls, sys.seen;
    |seen| <= |calls| &&
    (forall i :: 0 <= i < |seen| ==>
                   calls[i] == seen[i].(cost := calls[i].cost) && Charge(calls[i]) <= Charge(seen[i]) &&
                   seen[i].month <= month &&
                   (seen[i].month < month ==> calls[i] == seen[i])) &&
    (forall i :: |seen| <= i < |calls| ==> month <= calls[i].month && at <= calls[i].at)
  }

  /** What the meter carries for the months it covers, and for the month on record. */
  ghost predicate MeterCarries(sys: System) {
    OpenAI in sys.house.months && OpenAI in sys.house.meters && OpenAI in sys.house.health &&
    var m, meter := sys.house.months[OpenAI], sys.house.meters[OpenAI];
    meter.baseline == 0 && meter.latest == m.carried + m.high && m.base <= m.carried &&
    sys.covered <= m.month <= sys.month && m.coversFrom == Calendar.MonthStart(sys.covered) && m.at <= sys.now &&
    sys.house.health[OpenAI].checked == m.at &&
    SeenIsPrefix(sys, m.month, m.at) &&
    Sum(sys.seen, Gateway.InMonths(sys.covered, m.month - 1)) <= m.carried - m.base &&
    Sum(sys.seen, Gateway.InMonths(m.month, m.month)) <= m.high
  }

  ghost predicate Unread(sys: System) {
    OpenAI !in sys.house.months && OpenAI !in sys.house.meters && OpenAI !in sys.house.health && sys.seen == []
  }

  /** An absorbed hold's call, if there was one, was inside the reading it was absorbed against; its
      life is over, so there will be none. */
  ghost predicate AbsorbedWereRead(sys: System) {
    (forall i, ident :: |sys.seen| <= i < |sys.gate.calls| && ident in sys.absorbed ==>
                          sys.gate.calls[i].ident != Some(ident)) &&
    (forall j :: 0 <= j < |sys.house.commitments| && sys.house.commitments[j].id in sys.absorbed ==>
                   sys.house.commitments[j].created + CALL_LIFE < sys.now &&
                   sys.house.commitments[j].cost == Some(0)) &&
    (forall ident :: ident in sys.absorbed ==> Known(sys.house.commitments, ident))
  }

  ghost predicate Inv(sys: System) {
    ClockAgrees(sys) && Gateway.UpTo(sys.gate, sys.month) && CallsAreReserved(sys) &&
    (MeterCarries(sys) || Unread(sys)) && AbsorbedWereRead(sys) &&
    (forall i :: 0 <= i < |sys.gate.calls| ==> sys.gate.calls[i].at <= sys.now)
  }

  // ------------------------------------------------------------------ the gateway's own steps

  lemma ClockNeverRunsBack(sys: System, now: int, month: nat)
    requires ClockAgrees(sys) && sys.now <= now && Calendar.MonthStart(month) <= now < Calendar.MonthStart(month + 1)
    ensures sys.month <= month
  {
    hide Calendar.MonthStart, Sum;
    if month < sys.month && month + 1 < sys.month {
      Calendar.MonthsInOrder(month + 1, sys.month);
    }
  }

  lemma TickKeepsInv(sys: System, now: int, month: nat)
    requires Inv(sys) && sys.now <= now && Calendar.MonthStart(month) <= now < Calendar.MonthStart(month + 1)
    ensures Inv(sys.(now := now, month := month))
  {
    hide Calendar.MonthStart, Sum;
    ClockNeverRunsBack(sys, now, month);
    var after := sys.(now := now, month := month);
    assert MeterCarries(sys) ==> SeenIsPrefix(after, sys.house.months[OpenAI].month, sys.house.months[OpenAI].at);
  }

  lemma TakeKeepsCalls(sys: System, ident: Option<Ident>, worst: nat)
    requires CallsAreReserved(sys) && ClockAgrees(sys) && Licensed(sys, ident, worst)
    ensures CallsAreReserved(AfterTake(sys, ident, worst))
  {}

  lemma TakeKeepsAbsorbed(sys: System, ident: Option<Ident>, worst: nat)
    requires AbsorbedWereRead(sys) && Licensed(sys, ident, worst) && |sys.seen| <= |sys.gate.calls|
    ensures AbsorbedWereRead(AfterTake(sys, ident, worst))
  {}

  lemma TakeKeepsInv(sys: System, ident: Option<Ident>, worst: nat)
    requires Inv(sys) && Licensed(sys, ident, worst)
    ensures Inv(AfterTake(sys, ident, worst))
  {
    hide Calendar.MonthStart, Sum, Licensed, Gateway.RowsAgree;
    Gateway.ReserveKeepsRows(sys.gate, sys.month, Gateway.Call(ident, sys.month, worst, None, sys.now));
    TakeKeepsCalls(sys, ident, worst);
    TakeKeepsMeter(sys, ident, worst);
    TakeKeepsAbsorbed(sys, ident, worst);
    hide CallsAreReserved, MeterCarries, Unread, AbsorbedWereRead;
  }

  lemma TakeKeepsMeter(sys: System, ident: Option<Ident>, worst: nat)
    requires (MeterCarries(sys) || Unread(sys)) &&
             forall i :: 0 <= i < |sys.gate.calls| ==> sys.gate.calls[i].at <= sys.now
    ensures var after := AfterTake(sys, ident, worst);
            (MeterCarries(after) || Unread(after)) && |sys.seen| <= |sys.gate.calls|
  {
    hide Calendar.MonthStart, Sum;
    var after := AfterTake(sys, ident, worst);
    assert MeterCarries(sys) ==> SeenIsPrefix(after, sys.house.months[OpenAI].month, sys.house.months[OpenAI].at);
  }

  lemma AnswerKeepsInv(sys: System, i: nat, cost: nat)
    requires Inv(sys) && i < |sys.gate.calls| && cost <= sys.gate.calls[i].worst
    ensures Inv(AfterAnswer(sys, i, cost))
  {
    hide Calendar.MonthStart, Sum, Gateway.RowsAgree, Gateway.Settle, Gateway.Charge;
    Gateway.SettleKeepsRows(sys.gate, sys.month, i, cost);
    AnswerKeepsCalls(sys, i, cost);
    AnswerKeepsAbsorbed(sys, i, cost);
    if MeterCarries(sys) {
      AnswerKeepsSeen(sys, i, cost);
    }
    hide CallsAreReserved, MeterCarries, AbsorbedWereRead;
  }

  lemma AnswerKeepsAbsorbed(sys: System, i: nat, cost: nat)
    requires AbsorbedWereRead(sys) && Gateway.UpTo(sys.gate, sys.month) && i < |sys.gate.calls|
    ensures AbsorbedWereRead(AfterAnswer(sys, i, cost))
  {
    hide Calendar.MonthStart, Sum, Gateway.RowsAgree;
    Gateway.SettleKeepsRows(sys.gate, sys.month, i, cost);
    hide Gateway.Settle;
  }

  lemma AnswerKeepsCalls(sys: System, i: nat, cost: nat)
    requires CallsAreReserved(sys) && Gateway.UpTo(sys.gate, sys.month) && i < |sys.gate.calls| &&
             cost <= sys.gate.calls[i].worst
    ensures CallsAreReserved(AfterAnswer(sys, i, cost))
  {}

  lemma AnswerKeepsSeen(sys: System, i: nat, cost: nat)
    requires MeterCarries(sys) && Gateway.UpTo(sys.gate, sys.month) && i < |sys.gate.calls| &&
             cost <= sys.gate.calls[i].worst
    ensures MeterCarries(AfterAnswer(sys, i, cost))
  {}

  // ------------------------------------------------------------------ a reading

  /** The months that had ended at the last reading are charged today exactly as they were read. */
  lemma EndedMonthsAreFrozen(sys: System, month: nat, at: int, lo: int)
    requires SeenIsPrefix(sys, month, at)
    ensures Sum(sys.gate.calls, Gateway.InMonths(lo, month - 1)) == Sum(sys.seen, Gateway.InMonths(lo, month - 1))
  {
    var w := Gateway.InMonths(lo, month - 1);
    SumToSame(sys.gate.calls, w, sys.seen, w, |sys.seen|);
    LaterAddNothing(sys.gate.calls, w, |sys.seen|, |sys.gate.calls|);
  }

  lemma {:induction false} LaterAddNothing(calls: seq<Call>, w: Call -> int, n: nat, m: nat)
    requires n <= m <= |calls|
    requires forall i :: n <= i < m ==> w(calls[i]) == 0
    ensures SumTo(calls, w, m) == SumTo(calls, w, n)
  {
    if n < m {
      LaterAddNothing(calls, w, n, m - 1);
    }
  }

  /** Months a..c are a..b and b+1..c. */
  lemma MonthsSplit(calls: seq<Call>, a: int, b: int, c: int)
    requires a <= b + 1 <= c + 1
    ensures Sum(calls, Gateway.InMonths(a, c)) ==
            Sum(calls, Gateway.InMonths(a, b)) + Sum(calls, Gateway.InMonths(b + 1, c))
  {
    SumPlus(calls, Gateway.InMonths(a, b), Gateway.InMonths(b + 1, c), Gateway.InMonths(a, c));
  }

  /** A month the gateway closes for the House carries at least every charge of the months it covers. */
  lemma ClosedMonthIsCarried(sys: System, withPrevious: bool, cap: nat)
    requires Gateway.UpTo(sys.gate, sys.month) && MeterCarries(sys)
    requires sys.house.months[OpenAI].month < sys.month &&
             Closes(sys.house.months[OpenAI], ReadingOf(sys, withPrevious, cap))
    ensures var m := RolledOver(sys.house.months[OpenAI], ReadingOf(sys, withPrevious, cap));
            Sum(sys.gate.calls, Gateway.InMonths(sys.covered, sys.month - 1)) <= m.carried - m.base
  {
    hide Calendar.MonthStart, Sum;
    var m := sys.house.months[OpenAI];
    Gateway.ReportsAreTrue(sys.gate, sys.month);
    EndedMonthsAreFrozen(sys, m.month, m.at, sys.covered);
    MonthsSplit(sys.gate.calls, sys.covered, m.month - 1, sys.month - 1);
    MonthsSplit(sys.gate.calls, m.month, m.month, sys.month - 1);
    Gateway.NothingOutside(sys.gate.calls, m.month + 1, sys.month - 1);
  }

  /** A reading within the month on record: the ended months are as they were, and its high is a high. */
  lemma SameMonthIsCarried(sys: System)
    requires MeterCarries(sys) && sys.house.months[OpenAI].month == sys.month
    ensures var m := sys.house.months[OpenAI];
            Sum(sys.gate.calls, Gateway.InMonths(sys.covered, sys.month - 1)) <= m.carried - m.base
  {
    hide Calendar.MonthStart, Sum;
    EndedMonthsAreFrozen(sys, sys.month, sys.house.months[OpenAI].at, sys.covered);
  }

  lemma ReadIsTaken(sys: System, withPrevious: bool, cap: nat)
    requires Inv(sys)
    ensures MonthAnswer(sys.house, OpenAI, ReadingOf(sys, withPrevious, cap)) == Done
  {}

  /** The months before the reading's own, as far as the meter covers them, are carried. */
  lemma {:induction false} EarlierMonthsAreCarried(sys: System, withPrevious: bool, cap: nat)
    requires Inv(sys)
    ensures var m, covered := NextMonthMeter(sys.house, OpenAI, ReadingOf(sys, withPrevious, cap)),
                              AfterRead(sys, withPrevious, cap).covered;
            m.base <= m.carried && m.coversFrom == Calendar.MonthStart(covered) && covered <= m.month == sys.month &&
            Sum(sys.gate.calls, Gateway.InMonths(covered, sys.month - 1)) <= m.carried - m.base
  {
    hide Calendar.MonthStart, Sum;
    if StartsCoverage(sys, ReadingOf(sys, withPrevious, cap)) {
      SumZero(sys.gate.calls, Gateway.InMonths(sys.month, sys.month - 1));
    } else if sys.house.months[OpenAI].month < sys.month {
      ClosedMonthIsCarried(sys, withPrevious, cap);
    } else {
      SameMonthIsCarried(sys);
    }
  }

  lemma ReadCarries(sys: System, withPrevious: bool, cap: nat)
    requires Inv(sys)
    ensures MeterCarries(AfterRead(sys, withPrevious, cap))
  {
    hide Calendar.MonthStart, Sum;
    var after := AfterRead(sys, withPrevious, cap);
    ReadIsTaken(sys, withPrevious, cap);
    EarlierMonthsAreCarried(sys, withPrevious, cap);
    Gateway.ReportsAreTrue(sys.gate, sys.month);
    assert SeenIsPrefix(after, sys.month, sys.now);
  }

  lemma ReadKeepsInv(sys: System, withPrevious: bool, cap: nat)
    requires Inv(sys)
    ensures Inv(AfterRead(sys, withPrevious, cap))
  {
    hide Calendar.MonthStart, Sum, MeterCarries, Unread, Gateway.UpTo, NextMonthMeter, ReadingOf, StartsCoverage,
      MonthAnswer;
    ReadCarries(sys, withPrevious, cap);
    var after := AfterRead(sys, withPrevious, cap);
    assert after.house.commitments == sys.house.commitments && after.gate == sys.gate;
  }

  // ------------------------------------------------------------------ the House's own steps

  lemma RowsKeptKeepsCalls(sys: System, after: System)
    requires CallsAreReserved(sys) && after.gate == sys.gate
    requires CampaignRuns.RowsKept(sys.house.commitments, after.house.commitments) &&
             DistinctIds(after.house.commitments)
    ensures CallsAreReserved(after)
  {}

  /** The House's steps leave OpenAI's meter alone: only the gateway's readings move it. */
  lemma MeterIsLeftAlone(p: Policy, sys: System, step: Step)
    requires OnTheClock(step, sys.now)
    ensures SameMeter(sys.house, Next(p, sys.house, step))
  {
    hide AfterSpend, AfterBalance, AfterMonth, AfterReserve, AfterSettle, AfterAbsorb, AfterActivation;
    match step
    case ObserveSpend(now, kind, amount) => OtherSpendIsApart(sys.house, now, kind, amount);
    case ObserveBalance(now, kind, amount) => OtherBalanceIsApart(sys.house, now, kind, amount);
    case ObserveMonth(now, kind, reading) => OtherMonthIsApart(sys.house, now, kind, reading);
    case _ =>
      hide Next;
      CampaignRuns.OnlyReadingsMoveMeters(p, sys.house, step);
  }

  lemma OtherSpendIsApart(s: Store, now: int, kind: Kind, amount: nat)
    requires kind != OpenAI
    ensures SameMeter(s, AfterSpend(s, now, kind, amount))
  {}

  lemma OtherBalanceIsApart(s: Store, now: int, kind: Kind, amount: nat)
    requires kind != OpenAI
    ensures SameMeter(s, AfterBalance(s, now, kind, amount))
  {}

  lemma OtherMonthIsApart(s: Store, now: int, kind: Kind, reading: CampaignStore.Reading)
    requires kind != OpenAI
    ensures SameMeter(s, AfterMonth(s, now, kind, reading))
  {
    hide NextMonthMeter, Recorded, MonthAnswer;
  }

  predicate SameMeter(before: Store, after: Store) {
    (OpenAI in before.months <==> OpenAI in after.months) &&
    (OpenAI in before.months ==> after.months[OpenAI] == before.months[OpenAI]) &&
    (OpenAI in before.meters <==> OpenAI in after.meters) &&
    (OpenAI in before.meters ==> after.meters[OpenAI] == before.meters[OpenAI]) &&
    (OpenAI in before.health <==> OpenAI in after.health) &&
    (OpenAI in before.health ==> after.health[OpenAI] == before.health[OpenAI])
  }

  lemma HouseKeepsMeter(p: Policy, sys: System, step: Step)
    requires (MeterCarries(sys) || Unread(sys)) && OnTheClock(step, sys.now)
    ensures var after := AfterHouse(p, sys, step); MeterCarries(after) || Unread(after)
  {
    hide Calendar.MonthStart, Sum, Next, Zeroed;
    MeterIsLeftAlone(p, sys, step);
    var after := AfterHouse(p, sys, step);
    assert MeterCarries(sys) ==> SeenIsPrefix(after, sys.house.months[OpenAI].month, sys.house.months[OpenAI].at);
  }

  /** What an absorption zeroes had its call, if any, inside the last reading, and its life is over. */
  lemma AbsorptionReachesOnlyRead(p: Policy, sys: System, older: int)
    requires Inv(sys) && older >= METER_FRESH + CALL_LIFE && Absorbs(p, sys.house, sys.now, OpenAI)
    ensures forall ident, i :: ident in Zeroed(p, sys.house, AbsorbStale(sys.now, OpenAI, older)) &&
                               |sys.seen| <= i < |sys.gate.calls|
                               ==> sys.gate.calls[i].ident != Some(ident)
  {}

  lemma ZeroedAreOver(p: Policy, sys: System, step: Step)
    requires Inv(sys) && OnTheClock(step, sys.now)
    ensures forall j :: 0 <= j < |sys.house.commitments| &&
                        sys.house.commitments[j].id in Zeroed(p, sys.house, step) ==>
                          sys.house.commitments[j].created + CALL_LIFE < sys.now &&
                          Next(p, sys.house, step).commitments[j].cost == Some(0)
    ensures forall ident :: ident in Zeroed(p, sys.house, step) ==> Known(sys.house.commitments, ident)
    ensures forall ident, i :: ident in Zeroed(p, sys.house, step) && |sys.seen| <= i < |sys.gate.calls|
                               ==> sys.gate.calls[i].ident != Some(ident)
  {
    hide Calendar.MonthStart, Sum, ReserveAnswer;
    var rows := sys.house.commitments;
    if step.AbsorbStale? && step.kind == OpenAI && Absorbs(p, sys.house, step.now, OpenAI) {
      AbsorptionReachesOnlyRead(p, sys, step.older);
      forall j | 0 <= j < |rows| && rows[j].id in Zeroed(p, sys.house, step)
        ensures Absorbable(sys.house, rows[j], OpenAI, step.now - step.older)
      {
        var i :| 0 <= i < |rows| && Absorbable(sys.house, rows[i], OpenAI, step.now - step.older) &&
                 rows[i].id == rows[j].id;
        assert i == j;
      }
    }
  }

  /** A row of a later store is the row of the same identity it came from. */
  lemma SameRow(before: seq<Commitment>, after: seq<Commitment>, j: nat)
    requires CampaignRuns.RowsKept(before, after) && DistinctIds(after) && j < |after| && Known(before, after[j].id)
    ensures j < |before| && CampaignRuns.RowKept(before[j], after[j])
  {}

  lemma HouseKeepsAbsorbed(p: Policy, sys: System, step: Step)
    requires Inv(sys) && OnTheClock(step, sys.now)
    ensures AbsorbedWereRead(AfterHouse(p, sys, step))
  {
    hide Calendar.MonthStart, Sum, Next, Zeroed;
    var after := AfterHouse(p, sys, step);
    var rows, rows' := sys.house.commitments, after.house.commitments;
    CampaignRuns.StepKeepsRows(p, sys.house, step);
    ZeroedAreOver(p, sys, step);
    forall ident | ident in after.absorbed ensures Known(rows', ident) {
      assert Known(rows, ident);
      var j :| 0 <= j < |rows| && rows[j].id == ident;
      assert CampaignRuns.RowKept(rows[j], rows'[j]);
    }
    forall j | 0 <= j < |rows'| && rows'[j].id in after.absorbed
      ensures rows'[j].created + CALL_LIFE < sys.now && rows'[j].cost == Some(0)
    {
      SameRow(rows, rows', j);
    }
  }

  lemma HouseKeepsInv(p: Policy, sys: System, step: Step)
    requires Inv(sys) && OnTheClock(step, sys.now)
    ensures Inv(AfterHouse(p, sys, step))
  {
    hide Calendar.MonthStart, Sum, Next, Zeroed;
    CampaignRuns.StepKeepsRows(p, sys.house, step);
    RowsKeptKeepsCalls(sys, AfterHouse(p, sys, step));
    HouseKeepsMeter(p, sys, step);
    HouseKeepsAbsorbed(p, sys, step);
  }

  lemma EventKeepsInv(sys: System, event: Event)
    requires Inv(sys) && Enabled(sys, event)
    ensures Inv(After(sys, event))
  {
    hide Calendar.MonthStart, Sum;
    match event
    case House(p, step) => HouseKeepsInv(p, sys, step);
    case Read(withPrevious, cap) => ReadKeepsInv(sys, withPrevious, cap);
    case Take(ident, worst) => TakeKeepsInv(sys, ident, worst);
    case Answer(i, cost) => AnswerKeepsInv(sys, i, cost);
    case Tick(now, month) => TickKeepsInv(sys, now, month);
  }
}
