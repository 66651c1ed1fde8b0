/** What the simulation of `Absorption` gives over every run of the House beside the gateway: the meter
    covers what the gateway charged, a burst line with its stale holds absorbed still covers the real
    charges of its calls, and where the code falls short of that. */
module AbsorptionRuns {
  import opened Wrappers
  import opened Sums
  import opened CampaignStore
  import opened Absorption
  import Calendar
  import Gateway
  import CampaignRuns

  // ------------------------------------------------------------------ runs

  predicate Started(sys: System) {
    sys.house == EMPTY && sys.gate == Gateway.CLOSED && sys.seen == [] && sys.absorbed == {} &&
    Calendar.YEAR_ONE <= sys.month && Calendar.MonthStart(sys.month) <= sys.now < Calendar.MonthStart(sys.month + 1)
  }

  ghost function RunOf(sys: System, events: seq<Event>): System
    decreases |events|
  {
    if events == [] then sys else RunOf(After(sys, events[0]), events[1..])
  }

  ghost predicate AllEnabled(sys: System, events: seq<Event>)
    decreases |events|
  {
    events != [] ==> Enabled(sys, events[0]) && AllEnabled(After(sys, events[0]), events[1..])
  }

  lemma {:induction false} RunKeepsInv(sys: System, events: seq<Event>)
    requires Inv(sys) && AllEnabled(sys, events)
    ensures Inv(RunOf(sys, events))
    decreases |events|
  {
    hide Inv, Enabled, After;
    if events != [] {
      EventKeepsInv(sys, events[0]);
      RunKeepsInv(After(sys, events[0]), events[1..]);
    }
  }

  lemma StartIsSound(sys: System)
    requires Started(sys)
    ensures Inv(sys)
  {}

  // ------------------------------------------------------------------ the meter covers the gateway

  /** What the meter had counted, above its base, when a burst was funded: a burst funded before the meter
      began, or the phase with none, leaves nothing out. */
  function LeftOut(s: Store, burst: Option<Burst>): nat {
    if burst.Some? && OpenAI in burst.value.meters && OpenAI in s.months
    then Max(0, burst.value.meters[OpenAI] - s.months[OpenAI].base) else 0
  }

  lemma MeasuredCovers(sys: System, burst: Option<Burst>)
    requires Inv(sys)
    ensures Sum(sys.seen, Gateway.FromMonth(sys.covered)) <=
            MeasuredOf(sys.house, OpenAI, burst) + LeftOut(sys.house, burst)
  {
    hide Calendar.MonthStart, Sum;
    if Unread(sys) {
      SumEmpty(Gateway.FromMonth(sys.covered));
    } else {
      var m := sys.house.months[OpenAI];
      SumSame(sys.seen, Gateway.FromMonth(sys.covered), sys.seen, Gateway.InMonths(sys.covered, m.month));
      MonthsSplit(sys.seen, sys.covered, m.month - 1, m.month);
    }
  }

  /** In every run the meter is `carried + high`, its base is carried, and what it measures for any burst, or
      for the phase, is at least every charge the gateway had made, at the last reading, for calls since the
      meter covers, less what it had counted when the burst was funded. */
  lemma {:induction false} MeterCoversGateway(start: System, events: seq<Event>, burst: Option<Burst>)
    requires Started(start) && AllEnabled(start, events)
    ensures var sys := RunOf(start, events);
            Sum(sys.seen, Gateway.FromMonth(sys.covered)) <=
            MeasuredOf(sys.house, OpenAI, burst) + LeftOut(sys.house, burst) &&
            (OpenAI in sys.house.months ==>
               var m := sys.house.months[OpenAI];
               OpenAI in sys.house.meters && sys.house.meters[OpenAI].latest == m.carried + m.high &&
               m.base <= m.carried)
  {
    StartIsSound(start);
    RunKeepsInv(start, events);
    MeasuredCovers(RunOf(start, events), burst);
  }

  lemma EventKeepsMeterRising(sys: System, event: Event)
    requires Inv(sys) && Enabled(sys, event) && OpenAI in sys.house.meters
    ensures var after := After(sys, event).house;
            OpenAI in after.meters && sys.house.meters[OpenAI].latest <= after.meters[OpenAI].latest
  {
    hide Calendar.MonthStart, Sum, Next;
    match event
    case House(p, step) => MeterIsLeftAlone(p, sys, step);
    case Read(withPrevious, cap) =>
    case Take(_, _) =>
    case Answer(_, _) =>
    case Tick(_, _) =>
  }

  /** Once read, the meter never falls, however the gateway's own month rises, falls and starts again. */
  lemma {:induction false} MeterNeverFalls(sys: System, events: seq<Event>)
    requires Inv(sys) && AllEnabled(sys, events) && OpenAI in sys.house.meters
    ensures var after := RunOf(sys, events).house;
            OpenAI in after.meters && sys.house.meters[OpenAI].latest <= after.meters[OpenAI].latest
    decreases |events|
  {
    hide Inv, Enabled, After;
    if events != [] {
      EventKeepsInv(sys, events[0]);
      EventKeepsMeterRising(sys, events[0]);
      MeterNeverFalls(After(sys, events[0]), events[1..]);
    }
  }

  // ------------------------------------------------------------------ the line covers the charges

  function ChargedTo(ident: Ident): Call -> int {
    (c: Call) => if c.ident == Some(ident) then Gateway.Charge(c) else 0
  }

  predicate Counted(c: Commitment, since: int) {
    c.kind == OpenAI && PartOf(c, since) == Inside
  }

  /** What the first `n` calls charged to each commitment the meter stands for. */
  ghost function ReadCharge(calls: seq<Call>, n: nat, since: int): Commitment -> int
    requires n <= |calls|
  {
    (c: Commitment) => if Counted(c, since) then SumTo(calls, ChargedTo(c.id), n) else 0
  }

  function OneCharge(call: Call, since: int): Commitment -> int {
    (c: Commitment) => if Counted(c, since) && call.ident == Some(c.id) then Gateway.Charge(call) else 0
  }

  lemma {:induction false} OneCallOneRow(rows: seq<Commitment>, call: Call, since: int, n: nat)
    requires n <= |rows| && DistinctIds(rows)
    ensures SumTo(rows, OneCharge(call, since), n)
         == (if exists j :: 0 <= j < n && Counted(rows[j], since) && call.ident == Some(rows[j].id)
             then Gateway.Charge(call) else 0)
  {
    if n > 0 {
      OneCallOneRow(rows, call, since, n - 1);
    }
  }

  predicate HasRow(rows: seq<Commitment>, call: Call, since: int) {
    exists j :: 0 <= j < |rows| && Counted(rows[j], since) && call.ident == Some(rows[j].id)
  }

  /** What the gateway charged, in the months the meter covers, for calls of no commitment among `rows`. */
  function Elsewhere(rows: seq<Commitment>, since: int, covered: int): Call -> int {
    (c: Call) => if covered <= c.month && !HasRow(rows, c, since) then Gateway.Charge(c) else 0
  }

  /** Charges summed by commitment, and those of other calls, are the charges summed by call. */
  lemma {:induction false} ByRowIsByCall(rows: seq<Commitment>, calls: seq<Call>, n: nat, since: int, covered: int)
    requires n <= |calls| && DistinctIds(rows)
    requires forall i :: 0 <= i < n && HasRow(rows, calls[i], since) ==> covered <= calls[i].month
    ensures Sum(rows, ReadCharge(calls, n, since)) + SumTo(calls, Elsewhere(rows, since, covered), n)
         == SumTo(calls, Gateway.FromMonth(covered), n)
  {
    if n == 0 {
      SumZero(rows, ReadCharge(calls, 0, since));
    } else {
      ByRowIsByCall(rows, calls, n - 1, since, covered);
      OneCallOneRow(rows, calls[n - 1], since, |rows|);
      SumPlus(rows, ReadCharge(calls, n - 1, since), OneCharge(calls[n - 1], since), ReadCharge(calls, n, since));
    }
  }

  lemma RowsCallIsCovered(sys: System, rows: seq<Commitment>, first: nat, i: nat)
    requires Inv(sys) && rows == RowsAfter(sys.house.commitments, first) && i < |sys.seen|
    requires HasRow(rows, sys.seen[i], CoversFrom(sys.house, OpenAI))
    ensures sys.covered <= sys.seen[i].month
  {
    hide Calendar.MonthStart, Sum;
    var j :| 0 <= j < |rows| && Counted(rows[j], CoversFrom(sys.house, OpenAI)) &&
             sys.seen[i].ident == Some(rows[j].id);
    assert MeterCarries(sys);
    var k := first + j;
    assert sys.house.commitments[k] == rows[j] && sys.gate.calls[i].ident == Some(sys.house.commitments[k].id);
    assert Fits(sys.house.commitments[k], sys.gate.calls[i]);
    CoveredMonth(sys.covered, sys.gate.calls[i].month, rows[j].created);
  }

  lemma ReadChargesAreMeasured(sys: System, rows: seq<Commitment>, burst: Burst)
    requires Inv(sys) && rows == RowsAfter(sys.house.commitments, burst.firstRow)
    ensures var since := CoversFrom(sys.house, OpenAI);
            Sum(rows, ReadCharge(sys.seen, |sys.seen|, since)) + Sum(sys.seen, Elsewhere(rows, since, sys.covered))
            <= MeasuredOf(sys.house, OpenAI, Some(burst)) + LeftOut(sys.house, Some(burst))
  {
    var since := CoversFrom(sys.house, OpenAI);
    forall i | 0 <= i < |sys.seen| && HasRow(rows, sys.seen[i], since) ensures sys.covered <= sys.seen[i].month {
      RowsCallIsCovered(sys, rows, burst.firstRow, i);
    }
    assert DistinctIds(rows);
    hide Inv, Sum, HasRow;
    ByRowIsByCall(rows, sys.seen, |sys.seen|, since, sys.covered);
    MeasuredCovers(sys, Some(burst));
    SumAsTo(sys.seen, Gateway.FromMonth(sys.covered));
    SumAsTo(sys.seen, Elsewhere(rows, since, sys.covered));
  }

  lemma SumAsTo<T>(rows: seq<T>, weight: T -> int)
    ensures Sum(rows, weight) == SumTo(rows, weight, |rows|)
  {}

  lemma CoveredMonth(covered: nat, month: nat, at: int)
    requires Calendar.MonthStart(covered) <= at < Calendar.MonthStart(month + 1)
    ensures covered <= month
  {
    hide Calendar.MonthStart;
    if month + 1 < covered {
      Calendar.MonthsInOrder(month + 1, covered);
    }
  }

  /** What the gateway has charged by now to each commitment that is pending or that the meter stands for. */
  ghost function ChargedNow(sys: System): Commitment -> int {
    (c: Commitment) =>
      if c.kind == OpenAI && (PartOf(c, CoversFrom(sys.house, OpenAI)) == Inside ||
                              PartOf(c, CoversFrom(sys.house, OpenAI)) == Pending)
      then Sum(sys.gate.calls, ChargedTo(c.id)) else 0
  }

  /** The part of it made since the last reading, for a commitment whose hold the House has given up. */
  ghost function Unseen(sys: System): Commitment -> int {
    (c: Commitment) =>
      if Counted(c, CoversFrom(sys.house, OpenAI))
      then Sum(RowsAfter(sys.gate.calls, |sys.seen|), ChargedTo(c.id)) else 0
  }

  lemma {:induction false} OneCallCharge(calls: seq<Call>, ident: Ident, bound: nat, n: nat)
    requires n <= |calls|
    requires forall i, j :: 0 <= i < j < |calls| && calls[i].ident.Some? ==> calls[i].ident != calls[j].ident
    requires forall i :: 0 <= i < |calls| && calls[i].ident == Some(ident) ==> Gateway.Charge(calls[i]) <= bound
    ensures 0 <= SumTo(calls, ChargedTo(ident), n) <= bound
    ensures (forall i :: 0 <= i < n ==> calls[i].ident != Some(ident)) ==> SumTo(calls, ChargedTo(ident), n) == 0
  {
    if n > 0 {
      OneCallCharge(calls, ident, bound, n - 1);
    }
  }

  /** A pending hold is worth at least its call: the gateway holds no more than the House does. */
  lemma PendingCoversItsCall(sys: System, c: Commitment)
    requires Inv(sys) && c in sys.house.commitments
    ensures Sum(sys.gate.calls, ChargedTo(c.id)) <= c.reserved
  {
    hide Calendar.MonthStart;
    var calls := sys.gate.calls;
    var j :| 0 <= j < |sys.house.commitments| && sys.house.commitments[j] == c;
    forall i | 0 <= i < |calls| && calls[i].ident == Some(c.id) ensures Gateway.Charge(calls[i]) <= c.reserved {
      assert Fits(sys.house.commitments[j], calls[i]);
    }
    OneCallCharge(calls, c.id, c.reserved, |calls|);
  }

  lemma {:induction false} SumToTail<T>(rows: seq<T>, weight: T -> int, n: nat, m: nat)
    requires n <= m <= |rows|
    ensures SumTo(rows, weight, m) == SumTo(rows, weight, n) + SumTo(RowsAfter(rows, n), weight, m - n)
  {
    if n < m {
      SumToTail(rows, weight, n, m - 1);
    }
  }

  /** A settled commitment's charge now is its charge at the last reading or less, and what came since. */
  lemma SeenOrUnseen(sys: System, c: Commitment)
    requires Inv(sys)
    ensures Sum(sys.gate.calls, ChargedTo(c.id))
         <= SumTo(sys.seen, ChargedTo(c.id), |sys.seen|) + Sum(RowsAfter(sys.gate.calls, |sys.seen|), ChargedTo(c.id))
  {
    hide Calendar.MonthStart;
    var calls, n := sys.gate.calls, |sys.seen|;
    assert n <= |calls|;
    SumToTail(calls, ChargedTo(c.id), n, |calls|);
    SumToLe(calls, ChargedTo(c.id), sys.seen, ChargedTo(c.id), n);
  }

  /** An absorbed hold has nothing unseen: its call, if it was made, was inside the reading. */
  lemma AbsorbedIsSeen(sys: System, c: Commitment)
    requires Inv(sys) && c.id in sys.absorbed
    ensures Unseen(sys)(c) == 0
  {
    hide Calendar.MonthStart, Sum;
    var tail := RowsAfter(sys.gate.calls, |sys.seen|);
    forall i | 0 <= i < |tail| ensures ChargedTo(c.id)(tail[i]) == 0 {
      assert tail[i] == sys.gate.calls[|sys.seen| + i];
    }
    SumZero(tail, ChargedTo(c.id));
  }

  ghost function Backed(sys: System): Commitment -> int {
    var since := CoversFrom(sys.house, OpenAI);
    (c: Commitment) => ReadCharge(sys.seen, |sys.seen|, since)(c) + OwedIn(OpenAI, since, Pending)(c)
  }

  lemma ChargeIsBacked(sys: System, c: Commitment)
    requires Inv(sys) && c in sys.house.commitments
    ensures ChargedNow(sys)(c) <= Backed(sys)(c) + Unseen(sys)(c)
  {
    hide Calendar.MonthStart, Sum, SumTo, Inv;
    SeenOrUnseen(sys, c);
    PendingCoversItsCall(sys, c);
    var part := PartOf(c, CoversFrom(sys.house, OpenAI));
    if c.kind == OpenAI && part == Pending {
      assert ReadCharge(sys.seen, |sys.seen|, CoversFrom(sys.house, OpenAI))(c) == 0;
      assert OwedIn(OpenAI, CoversFrom(sys.house, OpenAI), Pending)(c) == c.reserved;
    } else if c.kind == OpenAI && part == Inside {
      assert OwedIn(OpenAI, CoversFrom(sys.house, OpenAI), Pending)(c) == 0;
    } else {
      assert !Counted(c, CoversFrom(sys.house, OpenAI));
      assert ChargedNow(sys)(c) == 0 && Unseen(sys)(c) == 0;
      assert ReadCharge(sys.seen, |sys.seen|, CoversFrom(sys.house, OpenAI))(c) == 0;
    }
  }

  lemma ChargesAreBacked(sys: System, rows: seq<Commitment>)
    requires Inv(sys) && forall i :: 0 <= i < |rows| ==> rows[i] in sys.house.commitments
    ensures var since := CoversFrom(sys.house, OpenAI);
            Sum(rows, ChargedNow(sys)) <=
            Sum(rows, ReadCharge(sys.seen, |sys.seen|, since)) + Sum(rows, OwedIn(OpenAI, since, Pending)) +
            Sum(rows, Unseen(sys))
  {
    hide Calendar.MonthStart, Sum, Inv;
    var since := CoversFrom(sys.house, OpenAI);
    var all := (c: Commitment) => Backed(sys)(c) + Unseen(sys)(c);
    forall i | 0 <= i < |rows| ensures ChargedNow(sys)(rows[i]) <= all(rows[i]) {
      ChargeIsBacked(sys, rows[i]);
    }
    SumLe(rows, ChargedNow(sys), rows, all);
    SumPlus(rows, Backed(sys), Unseen(sys), all);
    SumPlus(rows, ReadCharge(sys.seen, |sys.seen|, since), OwedIn(OpenAI, since, Pending), Backed(sys));
  }

  /** What the gateway has charged by now to each commitment made before the meter covers. */
  ghost function ChargedBefore(sys: System): Commitment -> int {
    (c: Commitment) =>
      if c.kind == OpenAI && PartOf(c, CoversFrom(sys.house, OpenAI)) == Before
      then Sum(sys.gate.calls, ChargedTo(c.id)) else 0
  }

  /** The part of it the House does not own up to: the line counts such a commitment at what it owes. */
  ghost function Forgotten(sys: System): Commitment -> int {
    (c: Commitment) => ChargedBefore(sys)(c) - OwedIn(OpenAI, CoversFrom(sys.house, OpenAI), Before)(c)
  }

  /** What the gateway has charged by now to each OpenAI commitment that is pending or that it meters. */
  ghost function ChargedInAll(sys: System): Commitment -> int {
    (c: Commitment) => ChargedNow(sys)(c) + ChargedBefore(sys)(c)
  }

  lemma ChargedSplits(sys: System, rows: seq<Commitment>)
    ensures Sum(rows, ChargedInAll(sys)) == Sum(rows, ChargedNow(sys)) +
                                            Sum(rows, OwedIn(OpenAI, CoversFrom(sys.house, OpenAI), Before))
                                            + Sum(rows, Forgotten(sys))
  {
    hide Sum, PartOf;
    SumPlus(rows, ChargedNow(sys), ChargedBefore(sys), ChargedInAll(sys));
    SumPlus(rows, OwedIn(OpenAI, CoversFrom(sys.house, OpenAI), Before), Forgotten(sys), ChargedBefore(sys));
  }

  lemma AbsorbedAreSeen(sys: System, rows: seq<Commitment>)
    requires Inv(sys) && forall i :: 0 <= i < |rows| ==> rows[i] in sys.house.commitments
    ensures forall c :: c in rows && c.id in sys.absorbed ==> c.cost == Some(0) && Unseen(sys)(c) == 0
  {
    hide Calendar.MonthStart, Sum;
    forall c | c in rows && c.id in sys.absorbed ensures c.cost == Some(0) && Unseen(sys)(c) == 0 {
      AbsorbedIsSeen(sys, c);
      assert c in sys.house.commitments;
    }
  }

  /** Absorption is sound up to three named amounts. In every run of House and gateway, for every burst
      whenever funded, what its OpenAI calls were really charged by now, absorbed holds among them, with
      what the House settled outside the meter and what the meter counts for other calls, is at most the
      burst's line and: what was charged since the last reading to calls whose holds the House has already
      settled (never an absorbed hold's); what the meter had counted when the burst was funded; and what
      commitments made before the meter covers were charged beyond what they owe. */
  lemma {:induction false} AbsorptionIsSound(start: System, events: seq<Event>, burst: Burst)
    requires Started(start) && AllEnabled(start, events)
    ensures var sys := RunOf(start, events);
            var rows, since := RowsAfter(sys.house.commitments, burst.firstRow), CoversFrom(sys.house, OpenAI);
            Sum(rows, ChargedInAll(sys)) + Sum(rows, OwedIn(OpenAI, since, Other)) +
            Sum(sys.seen, Elsewhere(rows, since, sys.covered))
            <= BurstUsed(sys.house, OpenAI, burst) + Sum(rows, Unseen(sys)) + LeftOut(sys.house, Some(burst)) +
            Sum(rows, Forgotten(sys)) &&
            (forall c :: c in rows && c.id in sys.absorbed ==> c.cost == Some(0) && Unseen(sys)(c) == 0)
  {
    hide Calendar.MonthStart, Sum, Enabled, After, Inv, ChargedInAll, ChargedNow, Unseen, Forgotten, Elsewhere,
      LeftOut, MeasuredOf;
    StartIsSound(start);
    RunKeepsInv(start, events);
    var sys := RunOf(start, events);
    var rows := RowsAfter(sys.house.commitments, burst.firstRow);
    ChargesAreBacked(sys, rows);
    ReadChargesAreMeasured(sys, rows, burst);
    ChargedSplits(sys, rows);
    AbsorbedAreSeen(sys, rows);
  }

  // ------------------------------------------------------------------ where the line forgets

  /** The burst was funded by now: it started from what the meter had counted, and the meter never falls. */
  predicate FundedBy(s: Store, burst: Option<Burst>) {
    burst.Some? && OpenAI in burst.value.meters ==>
      OpenAI in s.meters && burst.value.meters[OpenAI] <= s.meters[OpenAI].latest
  }

  lemma EventKeepsFunded(sys: System, event: Event)
    requires Inv(sys) && Enabled(sys, event) && FundedBy(sys.house, sys.house.burst)
    ensures FundedBy(After(sys, event).house, After(sys, event).house.burst)
  {
    hide Calendar.MonthStart, Sum, Inv, Next, Running, Ready;
    if OpenAI in sys.house.meters {
      EventKeepsMeterRising(sys, event);
    }
    if event.House? {
      CampaignRuns.BurstStays(event.policy, sys.house, event.step);
      if event.step.ActivateBurst? {
        StartsFromTheMeter(event.policy, sys.house, event.step);
      }
    }
  }

  lemma StartsFromTheMeter(p: Policy, s: Store, step: Step)
    requires step.ActivateBurst? && FundedBy(s, s.burst)
    ensures FundedBy(Next(p, s, step), Next(p, s, step).burst)
  {
    hide Sum, Running, Ready;
  }

  /** In every run the burst on record was funded from a meter that has not fallen since. */
  lemma {:induction false} BurstsAreFunded(sys: System, events: seq<Event>)
    requires Inv(sys) && AllEnabled(sys, events) && FundedBy(sys.house, sys.house.burst)
    ensures FundedBy(RunOf(sys, events).house, RunOf(sys, events).house.burst)
    decreases |events|
  {
    hide Inv, Enabled, After, FundedBy;
    if events != [] {
      EventKeepsInv(sys, events[0]);
      EventKeepsFunded(sys, events[0]);
      BurstsAreFunded(After(sys, events[0]), events[1..]);
    }
  }

  /** A reading and what a burst's meter measures. Where the gateway closes the month on record, or it has
      not ended, the measure never falls; where coverage begins again, only the new month is measured. */
  lemma ReadingMeasures(sys: System, withPrevious: bool, cap: nat, burst: Option<Burst>)
    requires Inv(sys) && MeterCarries(sys) && FundedBy(sys.house, burst)
    ensures var after := AfterRead(sys, withPrevious, cap);
            if StartsCoverage(sys, ReadingOf(sys, withPrevious, cap))
            then MeasuredOf(after.house, OpenAI, burst) == Gateway.FrontierMonth(sys.gate, sys.month).spent
            else MeasuredOf(sys.house, OpenAI, burst) <= MeasuredOf(after.house, OpenAI, burst)
  {
    hide Calendar.MonthStart, Sum;
    ReadIsTaken(sys, withPrevious, cap);
    EarlierMonthsAreCarried(sys, withPrevious, cap);
  }

  /** Where coverage begins again over a burst whose OpenAI commitments are all settled and older, its line
      falls short of what they were charged by exactly what they were charged beyond what they owe, less
      the new month's spend; an absorbed hold owes nothing. */
  lemma {:induction false} RestartForgetsAbsorbed(sys: System, withPrevious: bool, cap: nat, burst: Burst)
    requires Inv(sys) && MeterCarries(sys) && FundedBy(sys.house, Some(burst))
    requires StartsCoverage(sys, ReadingOf(sys, withPrevious, cap))
    requires forall c :: c in RowsAfter(sys.house.commitments, burst.firstRow) && c.kind == OpenAI ==>
                           c.cost.Some? && MeterCovers(OpenAI, c.id) && c.created < Calendar.MonthStart(sys.month)
    ensures var after := AfterRead(sys, withPrevious, cap);
            var rows := RowsAfter(after.house.commitments, burst.firstRow);
            Sum(rows, ChargedInAll(after)) - BurstUsed(after.house, OpenAI, burst)
            == Sum(rows, Forgotten(after)) - Gateway.FrontierMonth(sys.gate, sys.month).spent
    ensures forall c :: c in sys.house.commitments && c.id in sys.absorbed ==> Owed(c) == 0
  {
    hide Calendar.MonthStart, Sum;
    var after := AfterRead(sys, withPrevious, cap);
    var rows, since := RowsAfter(sys.house.commitments, burst.firstRow), Calendar.MonthStart(sys.month);
    ReadIsTaken(sys, withPrevious, cap);
    ReadingMeasures(sys, withPrevious, cap, Some(burst));
    EarlierMonthsAreCarried(sys, withPrevious, cap);
    assert after.house.commitments == sys.house.commitments && CoversFrom(after.house, OpenAI) == since;
    hide Inv, MeterCarries, AfterRead, StartsCoverage;
    AllBefore(after, rows, since);
    ChargedSplits(after, rows);
  }

  /** With every OpenAI row before the meter covers, nothing else is on the line. */
  lemma AllBefore(sys: System, rows: seq<Commitment>, since: int)
    requires since == CoversFrom(sys.house, OpenAI)
    requires forall c :: c in rows && c.kind == OpenAI ==> PartOf(c, since) == Before
    ensures Sum(rows, OwedIn(OpenAI, since, Inside)) == 0 && Sum(rows, OwedIn(OpenAI, since, Other)) == 0
    ensures Sum(rows, OwedIn(OpenAI, since, Pending)) == 0 && Sum(rows, ChargedNow(sys)) == 0
  {
    hide Sum, PartOf;
    NoneIn(rows, since, Inside);
    NoneIn(rows, since, Other);
    NoneIn(rows, since, Pending);
    SumZero(rows, ChargedNow(sys));
  }

  lemma NoneIn(rows: seq<Commitment>, since: int, part: Part)
    requires forall c :: c in rows && c.kind == OpenAI ==> PartOf(c, since) != part
    ensures Sum(rows, OwedIn(OpenAI, since, part)) == 0
  {
    SumZero(rows, OwedIn(OpenAI, since, part));
  }

  /** A burst funded once the meter runs starts from what it had counted, and where coverage has begun
      again above that, from the meter's base. */
  lemma BurstBaselineHidesMeter(sys: System, burst: Burst)
    requires Inv(sys) && MeterCarries(sys) && OpenAI in burst.meters
    ensures MeasuredOf(sys.house, OpenAI, Some(burst)) ==
            Max(0, MeasuredOf(sys.house, OpenAI, None) - LeftOut(sys.house, Some(burst)))
  {}
}
