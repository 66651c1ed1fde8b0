/** What every run of the campaign guard keeps, whatever order its transactions come in. */
module CampaignRuns {
  import opened Wrappers
  import opened Sums
  import opened CampaignStore
  import Calendar

  // ------------------------------------------------------------------ a commitment's history

  /** A commitment changes once at most: from an unknown charge to a known one. */
  predicate RowKept(before: Commitment, after: Commitment) {
    after == before || (before.cost.None? && after.cost.Some? && after == before.(cost := after.cost))
  }

  predicate RowsKept(before: seq<Commitment>, after: seq<Commitment>) {
    |before| <= |after| && forall i :: 0 <= i < |before| ==> RowKept(before[i], after[i])
  }

  /** Only an admission adds a row; every other step keeps the number of rows. */
  lemma StepKeepsRows(p: Policy, s: Store, step: Step)
    ensures RowsKept(s.commitments, Next(p, s, step).commitments)
    ensures |Next(p, s, step).commitments| == |s.commitments| ||
            (step.Reserve? && ReserveAnswer(p, s, step.now, step.granted, step.ident, step.campaign, step.held) ==
                              Admitted)
    ensures DistinctIds(s.commitments) ==> DistinctIds(Next(p, s, step).commitments)
  {
    hide Calendar.MonthStart, Sum, NextMonthMeter, MonthAnswer, AfterAbsorb;
    match step
    case Reserve(now, granted, ident, campaign, held) =>
      AdmittedIsNew(p, s, now, granted, ident, campaign, held);
    case Settle(ident, cost) =>
    case ObserveSpend(now, kind, amount) =>
    case ObserveBalance(now, kind, amount) =>
    case ObserveMonth(now, kind, reading) =>
    case AbsorbStale(now, kind, older) => AbsorptionKeepsRows(p, s, now, kind, older);
    case TopUpBurst(name, kind, amount) =>
    case MirrorBonus(now, amount) =>
    case ActivateBurst(now, granted, caps, duration) =>
      ActivationFrame(p, s, now, granted, caps, duration);
    case LinkResponse(response, link) =>
  }

  /** A funded burst is never replaced, and nothing but an activation funds one. */
  lemma BurstStays(p: Policy, s: Store, step: Step)
    ensures s.burst.Some? || !step.ActivateBurst? ==> Next(p, s, step).burst == s.burst
  {}

  predicate SameMeters(s: Store, t: Store) {
    t.meters == s.meters && t.health == s.health && t.balances == s.balances && t.months == s.months
  }

  lemma SettleKeepsMeters(s: Store, ident: Ident, cost: nat)
    ensures SameMeters(s, AfterSettle(s, ident, cost))
  {}

  lemma RaisesKeepMeters(s: Store, now: int, name: string, kind: Kind, amount: nat)
    ensures SameMeters(s, AfterTopUp(s, name, kind, amount)) && SameMeters(s, AfterBonus(s, now, amount))
  {}

  lemma LinkKeepsMeters(s: Store, response: string, link: Link)
    ensures SameMeters(s, AfterLink(s, response, link))
  {}

  lemma FramesKeepMeters(s: Store, rows: seq<Commitment>, burst: Option<Burst>)
    ensures SameMeters(s, s.(commitments := rows)) && SameMeters(s, s.(burst := burst))
  {}

  /** Only readings move the meters. */
  lemma OnlyReadingsMoveMeters(p: Policy, s: Store, step: Step)
    requires !step.ObserveSpend? && !step.ObserveBalance? && !step.ObserveMonth?
    ensures var after := Next(p, s, step);
            after.meters == s.meters && after.health == s.health && after.balances == s.balances &&
            after.months == s.months
  {
    StepKeepsMeters(p, s, step);
    hide Next;
  }

  lemma StepKeepsMeters(p: Policy, s: Store, step: Step)
    requires !step.ObserveSpend? && !step.ObserveBalance? && !step.ObserveMonth?
    ensures SameMeters(s, Next(p, s, step))
  {
    hide SameMeters, ReserveAnswer, AfterReserve, AfterSettle, AfterAbsorb, AfterTopUp, AfterBonus, AfterActivation,
      AfterLink;
    hide AfterSpend, AfterBalance, AfterMonth;
    var after := Next(p, s, step);
    FramesKeepMeters(s, after.commitments, after.burst);
    match step
    case Reserve(now, granted, ident, campaign, held) => AdmittedIsNew(p, s, now, granted, ident, campaign, held);
    case Settle(ident, cost) => SettleKeepsMeters(s, ident, cost);
    case AbsorbStale(now, kind, older) => AbsorptionKeepsRows(p, s, now, kind, older);
    case TopUpBurst(name, kind, amount) => RaisesKeepMeters(s, 0, name, kind, amount);
    case MirrorBonus(now, amount) => RaisesKeepMeters(s, now, "", OpenAI, amount);
    case ActivateBurst(now, granted, caps, duration) =>
      ActivationFrame(p, s, now, granted, caps, duration);
    case LinkResponse(response, link) => LinkKeepsMeters(s, response, link);
  }

  lemma ActivationFrame(p: Policy, s: Store, now: int, granted: bool, caps: map<Kind, nat>, duration: nat)
    ensures var after := AfterActivation(p, s, now, granted, caps, duration);
            after == s.(burst := after.burst) && (s.burst.Some? ==> after.burst == s.burst) &&
            (after.burst != s.burst ==> after.burst.Some? && after.burst.value.firstRow == |s.commitments|)
  {}

  lemma AdmittedIsNew(p: Policy, s: Store, now: int, granted: bool, ident: Ident, campaign: string, held: nat)
    ensures AfterReserve(p, s, now, granted, ident, campaign, held)
         == s.(commitments := AfterReserve(p, s, now, granted, ident, campaign, held).commitments)
    ensures ReserveAnswer(p, s, now, granted, ident, campaign, held) == Admitted ==>
              campaign in p.campaigns && !Known(s.commitments, ident)
  {}

  lemma AbsorptionKeepsRows(p: Policy, s: Store, now: int, kind: Kind, older: int)
    ensures RowsKept(s.commitments, AfterAbsorb(p, s, now, kind, older).commitments)
    ensures |AfterAbsorb(p, s, now, kind, older).commitments| == |s.commitments|
    ensures AfterAbsorb(p, s, now, kind, older) == s.(commitments := AfterAbsorb(p, s, now, kind, older).commitments)
  {}

  lemma RowKeptTransitive(a: Commitment, b: Commitment, c: Commitment)
    requires RowKept(a, b) && RowKept(b, c)
    ensures RowKept(a, c)
  {}

  /** Costs are write-once over every run: no method changes a charge once it is known. */
  lemma {:induction false} CostsAreWriteOnce(s: Store, moves: seq<Move>)
    ensures RowsKept(s.commitments, Run(s, moves).commitments)
    decreases |moves|
  {
    if moves != [] {
      var mid := Next(moves[0].policy, s, moves[0].step);
      StepKeepsRows(moves[0].policy, s, moves[0].step);
      CostsAreWriteOnce(mid, moves[1..]);
      var last := Run(mid, moves[1..]);
      forall i | 0 <= i < |s.commitments| ensures RowKept(s.commitments[i], last.commitments[i]) {
        RowKeptTransitive(s.commitments[i], mid.commitments[i], last.commitments[i]);
      }
    }
  }

  lemma BreachSurvives(before: seq<Commitment>, after: seq<Commitment>)
    requires RowsKept(before, after) && Breached(before)
    ensures Breached(after)
  {}

  /** A breach latches: once a charge exceeded its reservation, no continuation admits a new identity of
      any kind, and replaying an admitted one still changes nothing. */
  lemma {:induction false} BreachLatches(s: Store, moves: seq<Move>)
    requires Breached(s.commitments)
    ensures Breached(Run(s, moves).commitments)
    ensures |Run(s, moves).commitments| == |s.commitments|
    ensures forall p, now, granted, ident, campaign, held: nat ::
              var answer := ReserveAnswer(p, Run(s, moves), now, granted, ident, campaign, held);
              answer != Admitted && AfterReserve(p, Run(s, moves), now, granted, ident, campaign, held) == Run(s, moves)
    ensures forall p: Policy, now, granted, i ::
              0 <= i < |s.commitments| && s.commitments[i].campaign in p.campaigns ==>
                var c := s.commitments[i];
                ReserveAnswer(p, Run(s, moves), now, granted, c.id, c.campaign, c.reserved) == Replayed
    decreases |moves|
  {
    if moves == [] {
      forall p: Policy, now, granted, i | 0 <= i < |s.commitments| && s.commitments[i].campaign in p.campaigns
        ensures var c := s.commitments[i]; ReserveAnswer(p, s, now, granted, c.id, c.campaign, c.reserved) == Replayed
      {
        var c := s.commitments[i];
        assert Known(s.commitments, c.id) && Replays(s.commitments, c.id, c.campaign, c.reserved);
      }
    } else {
      var mid := Next(moves[0].policy, s, moves[0].step);
      StepKeepsRows(moves[0].policy, s, moves[0].step);
      BreachSurvives(s.commitments, mid.commitments);
      BreachLatches(mid, moves[1..]);
      forall p: Policy, now, granted, i | 0 <= i < |s.commitments| && s.commitments[i].campaign in p.campaigns
        ensures var c := s.commitments[i];
                ReserveAnswer(p, Run(s, moves), now, granted, c.id, c.campaign, c.reserved) == Replayed
      {
        var c := mid.commitments[i];
        assert c.id == s.commitments[i].id && c.campaign == s.commitments[i].campaign &&
               c.reserved == s.commitments[i].reserved;
      }
    }
  }

  // ------------------------------------------------------------------ the four summands

  /** inside, before, other and pending split what a kind owes, wherever the meter's coverage begins. */
  lemma {:induction false} PartsPartition(rows: seq<Commitment>, kind: Kind, since: int)
    ensures var parts := PartsOf(rows, kind, since);
            parts.inside + parts.before + parts.other + parts.pending == Sum(rows, OwedUnder(kind, false))
    ensures var parts := PartsOf(rows, kind, since);
            0 <= parts.inside && 0 <= parts.before && 0 <= parts.other && 0 <= parts.pending
  {
    PartsPartitionTo(rows, kind, since, |rows|);
  }

  lemma {:induction false} PartsPartitionTo(rows: seq<Commitment>, kind: Kind, since: int, n: nat)
    requires n <= |rows|
    ensures SumTo(rows, OwedIn(kind, since, Inside), n) + SumTo(rows, OwedIn(kind, since, Before), n)
            + SumTo(rows, OwedIn(kind, since, Other), n) + SumTo(rows, OwedIn(kind, since, Pending), n)
         == SumTo(rows, OwedUnder(kind, false), n)
    ensures forall part: Part :: 0 <= SumTo(rows, OwedIn(kind, since, part), n)
  {
    if n > 0 {
      PartsPartitionTo(rows, kind, since, n - 1);
    }
  }

  /** The part of what a commitment owes that its reservation covers. */
  function Covered(c: Commitment): nat {
    if Owed(c) <= c.reserved then Owed(c) else c.reserved
  }

  ghost function CoveredUnder(kind: Kind, metered: bool): Commitment -> int {
    (c: Commitment) => if c.kind == kind && (metered ==> MeterCovers(kind, c.id)) then Covered(c) else 0
  }

  lemma OwedIsCoveredAndOverrun(rows: seq<Commitment>, kind: Kind, metered: bool)
    ensures Sum(rows, OwedUnder(kind, metered)) ==
            Sum(rows, CoveredUnder(kind, metered)) + Sum(rows, OverrunUnder(kind, metered))
    ensures !Breached(rows) ==> Sum(rows, OverrunUnder(kind, metered)) == 0
    ensures 0 <= Sum(rows, OverrunUnder(kind, metered))
  {
    SumPlus(rows, CoveredUnder(kind, metered), OverrunUnder(kind, metered), OwedUnder(kind, metered));
    SumNonNegative(rows, OverrunUnder(kind, metered));
    if !Breached(rows) {
      SumZero(rows, OverrunUnder(kind, metered));
    }
  }

  lemma CoveredNeverGrows(before: seq<Commitment>, after: seq<Commitment>, n: nat, kind: Kind, metered: bool)
    requires RowsKept(before, after) && |before| == |after|
    ensures Sum(RowsAfter(after, n), CoveredUnder(kind, metered)) <=
            Sum(RowsAfter(before, n), CoveredUnder(kind, metered))
  {
    var a, b := RowsAfter(after, n), RowsAfter(before, n);
    forall i | 0 <= i < |a| ensures CoveredUnder(kind, metered)(a[i]) <= CoveredUnder(kind, metered)(b[i]) {
      assert RowKept(before[n + i], after[n + i]);
    }
    SumLe(a, CoveredUnder(kind, metered), b, CoveredUnder(kind, metered));
  }

  lemma RowsAfterAppend<T>(rows: seq<T>, row: T, n: nat)
    requires n <= |rows|
    ensures RowsAfter(rows + [row], n) == RowsAfter(rows, n) + [row]
  {}

  lemma BreachInTail(rows: seq<Commitment>, n: nat)
    requires Breached(RowsAfter(rows, n))
    ensures Breached(rows)
  {}

  /** A settlement at or below its reservation never raises a line, whatever the meter reads. */
  lemma SettleNeverRaisesUsed(s: Store, ident: Ident, cost: nat, kind: Kind, burst: Burst)
    requires forall i :: 0 <= i < |s.commitments| && s.commitments[i].id == ident ==> cost <= s.commitments[i].reserved
    ensures BurstUsed(AfterSettle(s, ident, cost), kind, burst) <= BurstUsed(s, kind, burst)
  {
    var after := AfterSettle(s, ident, cost);
    var since := CoversFrom(s, kind);
    var a, b := RowsAfter(after.commitments, burst.firstRow), RowsAfter(s.commitments, burst.firstRow);
    SettledPartsFall(b, a, kind, since);
    assert MeasuredOf(after, kind, Some(burst)) == MeasuredOf(s, kind, Some(burst));
  }

  lemma SettledPartsFall(before: seq<Commitment>, after: seq<Commitment>, kind: Kind, since: int)
    requires |before| == |after|
    requires forall i :: 0 <= i < |before| ==> RowKept(before[i], after[i]) && Owed(after[i]) <= Owed(before[i])
    ensures var b, a := PartsOf(before, kind, since), PartsOf(after, kind, since);
            b.inside <= a.inside && b.before <= a.before && b.other <= a.other && a.pending <= b.pending &&
            a.inside + a.before + a.other + a.pending <= b.inside + b.before + b.other + b.pending
  {
    forall part: Part, i | part != Pending && 0 <= i < |before|
      ensures OwedIn(kind, since, part)(before[i]) <= OwedIn(kind, since, part)(after[i])
    {
      assert RowKept(before[i], after[i]);
    }
    SumLe(before, OwedIn(kind, since, Inside), after, OwedIn(kind, since, Inside));
    SumLe(before, OwedIn(kind, since, Before), after, OwedIn(kind, since, Before));
    SumLe(before, OwedIn(kind, since, Other), after, OwedIn(kind, since, Other));
    SumLe(after, OwedIn(kind, since, Pending), before, OwedIn(kind, since, Pending));
    SumLe(after, OwedUnder(kind, false), before, OwedUnder(kind, false));
    PartsPartition(before, kind, since);
    PartsPartition(after, kind, since);
  }

  // ------------------------------------------------------------------ obligations stay inside the line

  predicate AdmitsPositive(kind: Kind, p: Policy, step: Step) {
    step.Reserve? && step.held > 0 && step.campaign in p.campaigns && p.campaigns[step.campaign].kind == kind
  }

  ghost predicate IsAdmitted(p: Policy, s: Store, step: Step)
    requires step.Reserve?
  {
    ReserveAnswer(p, s, step.now, step.granted, step.ident, step.campaign, step.held) == Admitted
  }

  /** The burst cap of `kind` in force at its last positive admission under a burst, 0 before the first. */
  ghost function CapAtLastAdmission(s: Store, moves: seq<Move>, kind: Kind, cap: int): int
    decreases |moves|
  {
    if moves == [] then cap
    else
      var p, step := moves[0].policy, moves[0].step;
      var now :=
        if AdmitsPositive(kind, p, step) && s.burst.Some? && IsAdmitted(p, s, step)
        then CapNow(s, step.now, s.burst.value, kind) else cap;
      CapAtLastAdmission(Next(p, s, step), moves[1..], kind, now)
  }

  ghost function BurstRows(s: Store): seq<Commitment> {
    match s.burst
    case Some(burst) => RowsAfter(s.commitments, burst.firstRow)
    case None => []
  }

  ghost predicate BurstRowsExist(s: Store) {
    s.burst.Some? ==> s.burst.value.firstRow <= |s.commitments|
  }

  /** What a burst's admission of a hold says of the kind's line and of the provider's own month. */
  lemma BurstAdmissionFits(p: Policy, s: Store, now: int, granted: bool, ident: Ident, campaign: string, held: nat)
    requires s.burst.Some? && held > 0
    requires ReserveAnswer(p, s, now, granted, ident, campaign, held) == Admitted
    ensures campaign in p.campaigns && !Known(s.commitments, ident) && !Breached(s.commitments)
    ensures var kind := p.campaigns[campaign].kind;
            held <= CapNow(s, now, s.burst.value, kind) - BurstUsed(s, kind, s.burst.value) &&
            Ready(p, s, now, kind) &&
            (ProviderLeft(s, now, kind).Some? ==> held <= ProviderLeft(s, now, kind).value)
  {}

  /** At a positive admission the kind's burst commitments, the new one included, fit the cap in force. */
  lemma AdmissionFitsTheCap(p: Policy, s: Store, step: Step, kind: Kind)
    requires AdmitsPositive(kind, p, step) && s.burst.Some? && IsAdmitted(p, s, step) && BurstRowsExist(s)
    ensures Sum(BurstRows(Next(p, s, step)), OwedUnder(kind, false)) <= CapNow(s, step.now, s.burst.value, kind)
  {
    hide Calendar.MonthStart, Sum, ReserveAnswer, BurstUsed, CapNow, Allowed;
    var row := Commitment(step.ident, step.campaign, kind, step.held, None, step.now);
    BurstAdmissionFits(p, s, step.now, step.granted, step.ident, step.campaign, step.held);
    OwedWithinUsed(s, kind, s.burst.value);
    RowsAfterAppend(s.commitments, row, s.burst.value.firstRow);
    SumAppend(BurstRows(s), row, OwedUnder(kind, false));
    assert BurstRows(Next(p, s, step)) == BurstRows(s) + [row];
  }

  lemma OwedWithinUsed(s: Store, kind: Kind, burst: Burst)
    ensures Sum(RowsAfter(s.commitments, burst.firstRow), OwedUnder(kind, false)) <= BurstUsed(s, kind, burst)
  {
    PartsPartition(RowsAfter(s.commitments, burst.firstRow), kind, CoversFrom(s, kind));
  }

  lemma AdmissionAppends(p: Policy, s: Store, step: Step)
    requires step.Reserve? && IsAdmitted(p, s, step)
    ensures step.campaign in p.campaigns && !Known(s.commitments, step.ident)
    ensures Next(p, s, step) == s.(commitments := s.commitments + [AdmittedRow(p, step)])
  {}

  function AdmittedRow(p: Policy, step: Step): Commitment
    requires step.Reserve? && step.campaign in p.campaigns
  {
    Commitment(step.ident, step.campaign, p.campaigns[step.campaign].kind, step.held, None, step.now)
  }

  /** A burst counts the commitments made after it was funded. */
  lemma BurstBeginsEmpty(p: Policy, s: Store, step: Step)
    requires s.burst.None?
    ensures BurstRows(Next(p, s, step)) == []
    ensures BurstRowsExist(Next(p, s, step))
  {}

  lemma StepKeepsCovered(p: Policy, s: Store, step: Step, kind: Kind, cap: int)
    requires BurstRowsExist(s) && 0 <= cap
    requires Sum(BurstRows(s), CoveredUnder(kind, false)) <= cap
    ensures BurstRowsExist(Next(p, s, step))
    ensures var next := if AdmitsPositive(kind, p, step) && s.burst.Some? && IsAdmitted(p, s, step)
                        then CapNow(s, step.now, s.burst.value, kind) else cap;
            0 <= next && Sum(BurstRows(Next(p, s, step)), CoveredUnder(kind, false)) <= next
  {
    hide Next, CapNow, ReserveAnswer, Calendar.MonthStart;
    var after := Next(p, s, step);
    StepKeepsRows(p, s, step);
    BurstStays(p, s, step);
    if s.burst.None? {
      BurstBeginsEmpty(p, s, step);
    } else if step.Reserve? && IsAdmitted(p, s, step) {
      AdmissionAppends(p, s, step);
      var row := AdmittedRow(p, step);
      RowsAfterAppend(s.commitments, row, s.burst.value.firstRow);
      SumAppend(BurstRows(s), row, CoveredUnder(kind, false));
      if AdmitsPositive(kind, p, step) {
        AdmissionFitsTheCap(p, s, step, kind);
        OwedIsCoveredAndOverrun(BurstRows(after), kind, false);
        SumNonNegative(BurstRows(after), OwedUnder(kind, false));
      }
    } else {
      CoveredNeverGrows(s.commitments, after.commitments, s.burst.value.firstRow, kind, false);
    }
  }

  lemma {:induction false} CoveredStaysInsideTheLine(s: Store, moves: seq<Move>, kind: Kind, cap: int)
    requires BurstRowsExist(s) && 0 <= cap
    requires Sum(BurstRows(s), CoveredUnder(kind, false)) <= cap
    ensures Sum(BurstRows(Run(s, moves)), CoveredUnder(kind, false)) <= CapAtLastAdmission(s, moves, kind, cap)
    decreases |moves|
  {
    if moves != [] {
      var p, step := moves[0].policy, moves[0].step;
      StepKeepsCovered(p, s, step, kind, cap);
      var next := if AdmitsPositive(kind, p, step) && s.burst.Some? && IsAdmitted(p, s, step)
      then CapNow(s, step.now, s.burst.value, kind) else cap;
      CoveredStaysInsideTheLine(Next(p, s, step), moves[1..], kind, next);
    }
  }

  /** Obligations stay inside the line. In every run from an empty store, what a kind's burst commitments
      owe exceeds the cap in force at its last positive admission by at most what charges overran their own
      reservations; with no overrun on record, by nothing. */
  lemma {:induction false} ObligationsStayInsideTheLine(moves: seq<Move>, kind: Kind)
    ensures var s := Run(EMPTY, moves);
            var owed := Sum(BurstRows(s), OwedUnder(kind, false));
            var cap := CapAtLastAdmission(EMPTY, moves, kind, 0);
            owed <= cap + Sum(BurstRows(s), OverrunUnder(kind, false)) &&
            (!Breached(s.commitments) ==> owed <= cap)
  {
    var s := Run(EMPTY, moves);
    assert BurstRows(EMPTY) == [];
    CoveredStaysInsideTheLine(EMPTY, moves, kind, 0);
    OwedIsCoveredAndOverrun(BurstRows(s), kind, false);
    if !Breached(s.commitments) && s.burst.Some? && Breached(BurstRows(s)) {
      BreachInTail(s.commitments, s.burst.value.firstRow);
    }
  }

  // ------------------------------------------------------------------ the provider's own month

  /** The month and its health after readings that all carried a cap and no other feed. */
  ghost predicate FedByMonth(s: Store, kind: Kind) {
    kind in s.months && kind in s.health && s.months[kind].cap.Some? &&
    s.health[kind].checked == s.months[kind].at && s.months[kind].readingRow <= |s.commitments|
  }

  predicate FeedsOnlyMonth(step: Step, kind: Kind) {
    match step
    case ObserveSpend(_, k, _) => k != kind
    case ObserveBalance(_, k, _) => k != kind
    case ObserveMonth(_, k, reading) => k == kind ==> reading.cap.Some?
    case _ => true
  }

  ghost function MonthRows(s: Store, kind: Kind): seq<Commitment>
    requires kind in s.months
  {
    RowsAfter(s.commitments, s.months[kind].readingRow)
  }

  /** An admission whose call the provider's own month may take: metered kind, metered prefix, a hold. */
  predicate TakesTheMonth(p: Policy, step: Step, kind: Kind) {
    AdmitsPositive(kind, p, step) && kind in p.metered && MeterCovers(kind, step.ident)
  }

  ghost predicate MonthHolds(s: Store, kind: Kind) {
    kind in s.months && s.months[kind].cap.Some? &&
    s.months[kind].spent + Sum(MonthRows(s, kind), CoveredUnder(kind, true)) <= s.months[kind].cap.value
  }

  predicate ReadsMonth(s: Store, step: Step, kind: Kind) {
    step.ObserveMonth? && step.kind == kind && MonthAnswer(s, kind, step.reading) == Done
  }

  /** Whether a burst has admitted a hold on the provider's month since its last accepted reading. */
  ghost function TakenSinceReading(s: Store, moves: seq<Move>, kind: Kind, taken: bool): bool
    decreases |moves|
  {
    if moves == [] then taken
    else
      var p, step := moves[0].policy, moves[0].step;
      var now :=
        if ReadsMonth(s, step, kind) then false
        else taken || (TakesTheMonth(p, step, kind) && s.burst.Some? && IsAdmitted(p, s, step));
      TakenSinceReading(Next(p, s, step), moves[1..], kind, now)
  }

  lemma MonthAdmissionFits(p: Policy, s: Store, step: Step, kind: Kind)
    requires FedByMonth(s, kind) && TakesTheMonth(p, step, kind) && s.burst.Some? && IsAdmitted(p, s, step)
    ensures MonthHolds(Next(p, s, step), kind)
  {
    var row := Commitment(step.ident, step.campaign, kind, step.held, None, step.now);
    RowsAfterAppend(s.commitments, row, s.months[kind].readingRow);
    SumAppend(MonthRows(s, kind), row, CoveredUnder(kind, true));
    OwedIsCoveredAndOverrun(MonthRows(s, kind), kind, true);
    BurstAdmissionFits(p, s, step.now, step.granted, step.ident, step.campaign, step.held);
    assert ProviderLeft(s, step.now, kind).Some?;
  }

  lemma ReadingKeepsFeed(s: Store, now: int, kind: Kind, of: Kind, reading: Reading)
    requires of == kind ==> reading.cap.Some?
    requires kind in s.months ==> FedByMonth(s, kind)
    ensures var after := AfterMonth(s, now, of, reading);
            (kind in after.months ==> FedByMonth(after, kind)) &&
            (of != kind || MonthAnswer(s, kind, reading) != Done ==>
               (kind in s.months <==> kind in after.months) &&
               (kind in s.months ==> after.months[kind] == s.months[kind]))
  {}

  lemma StepKeepsFeed(p: Policy, s: Store, step: Step, kind: Kind)
    requires FeedsOnlyMonth(step, kind)
    requires kind in s.months ==> FedByMonth(s, kind)
    ensures kind in Next(p, s, step).months ==> FedByMonth(Next(p, s, step), kind)
    ensures !ReadsMonth(s, step, kind) ==>
              (kind in s.months <==> kind in Next(p, s, step).months) &&
              (kind in s.months ==> Next(p, s, step).months[kind] == s.months[kind])
    ensures s.burst.Some? ==> Next(p, s, step).burst == s.burst
  {
    hide Calendar.MonthStart, Sum, ReserveAnswer, NextMonthMeter, MonthAnswer, AfterMonth;
    BurstStays(p, s, step);
    match step
    case ObserveSpend(_, _, _) =>
    case ObserveBalance(_, _, _) =>
    case ObserveMonth(now, of, reading) => ReadingKeepsFeed(s, now, kind, of, reading);
    case _ =>
      hide Next;
      StepKeepsRows(p, s, step);
      OnlyReadingsMoveMeters(p, s, step);
  }

  lemma StepKeepsMonth(p: Policy, s: Store, step: Step, kind: Kind)
    requires FeedsOnlyMonth(step, kind) && kind in p.metered
    requires FedByMonth(s, kind) && s.burst.Some? && MonthHolds(s, kind) && !ReadsMonth(s, step, kind)
    ensures MonthHolds(Next(p, s, step), kind)
  {
    var after := Next(p, s, step);
    StepKeepsRows(p, s, step);
    StepKeepsFeed(p, s, step, kind);
    if step.Reserve? && IsAdmitted(p, s, step) {
      if TakesTheMonth(p, step, kind) {
        MonthAdmissionFits(p, s, step, kind);
      } else {
        MonthIgnores(p, s, step, kind);
      }
    } else {
      CoveredNeverGrows(s.commitments, after.commitments, s.months[kind].readingRow, kind, true);
    }
  }

  /** With no reading on record nothing else makes a metered kind fed only by its month ready. */
  lemma HealthComesWithMonth(p: Policy, s: Store, step: Step, kind: Kind)
    requires TakesTheMonth(p, step, kind) && s.burst.Some? && IsAdmitted(p, s, step)
    ensures kind in s.health
  {}

  lemma HealthStaysWithMonth(p: Policy, s: Store, step: Step, kind: Kind)
    requires FeedsOnlyMonth(step, kind) && kind !in s.months && kind !in s.health
    ensures kind !in Next(p, s, step).months ==> kind !in Next(p, s, step).health
  {
    if !step.ObserveSpend? && !step.ObserveBalance? && !step.ObserveMonth? {
      OnlyReadingsMoveMeters(p, s, step);
    }
  }

  lemma MonthIgnores(p: Policy, s: Store, step: Step, kind: Kind)
    requires kind in p.metered && FedByMonth(s, kind) && MonthHolds(s, kind)
    requires step.Reserve? && IsAdmitted(p, s, step) && !TakesTheMonth(p, step, kind)
    ensures MonthHolds(Next(p, s, step), kind)
  {
    AdmittedIsNew(p, s, step.now, step.granted, step.ident, step.campaign, step.held);
    var row := Commitment(step.ident, step.campaign, p.campaigns[step.campaign].kind, step.held, None, step.now);
    RowsAfterAppend(s.commitments, row, s.months[kind].readingRow);
    SumAppend(MonthRows(s, kind), row, CoveredUnder(kind, true));
  }

  lemma {:induction false} MonthCoveredStaysInside(s: Store, moves: seq<Move>, kind: Kind, taken: bool)
    requires forall i :: 0 <= i < |moves| ==> FeedsOnlyMonth(moves[i].step, kind) && kind in moves[i].policy.metered
    requires kind in s.months ==> FedByMonth(s, kind)
    requires taken ==> MonthHolds(s, kind) && s.burst.Some?
    requires kind !in s.months ==> kind !in s.health
    ensures TakenSinceReading(s, moves, kind, taken) ==> MonthHolds(Run(s, moves), kind)
    decreases |moves|
  {
    if moves != [] {
      var p, step := moves[0].policy, moves[0].step;
      StepKeepsFeed(p, s, step, kind);
      var now :=
        if ReadsMonth(s, step, kind) then false
        else taken || (TakesTheMonth(p, step, kind) && s.burst.Some? && IsAdmitted(p, s, step));
      if now {
        if taken {
          StepKeepsMonth(p, s, step, kind);
        } else {
          HealthComesWithMonth(p, s, step, kind);
          MonthAdmissionFits(p, s, step, kind);
        }
      }
      if kind !in s.months {
        HealthStaysWithMonth(p, s, step, kind);
      }
      MonthCoveredStaysInside(Next(p, s, step), moves[1..], kind, now);
    }
  }

  /** The provider's own month is never overcommitted. A metered kind fed only by readings that carry a
      cap: from a burst's admission of a hold the month may take until the next reading, the reading's
      spend plus everything committed on that line since stays within the month's cap, up to what charges
      overran their own reservations. */
  lemma {:induction false} ProviderMonthNeverOvercommitted(moves: seq<Move>, kind: Kind)
    requires forall i :: 0 <= i < |moves| ==> FeedsOnlyMonth(moves[i].step, kind) && kind in moves[i].policy.metered
    requires TakenSinceReading(EMPTY, moves, kind, false)
    ensures var s := Run(EMPTY, moves);
            kind in s.months && s.months[kind].cap.Some? &&
            var committed := s.months[kind].spent + Sum(MonthRows(s, kind), OwedUnder(kind, true));
            committed <= s.months[kind].cap.value + Sum(MonthRows(s, kind), OverrunUnder(kind, true)) &&
            (!Breached(s.commitments) ==> committed <= s.months[kind].cap.value)
  {
    var s := Run(EMPTY, moves);
    MonthCoveredStaysInside(EMPTY, moves, kind, false);
    OwedIsCoveredAndOverrun(MonthRows(s, kind), kind, true);
    if Breached(MonthRows(s, kind)) {
      BreachInTail(s.commitments, s.months[kind].readingRow);
    }
  }

  // ------------------------------------------------------------------ the phase's own lines

  lemma OwedWithinLine(p: Policy, s: Store, kind: Kind)
    ensures Get(p.external, kind) + Sum(s.commitments, OwedUnder(kind, false)) <= Used(p, s, kind)
  {
    PartsPartition(s.commitments, kind, CoversFrom(s, kind));
    assert RowsAfter(s.commitments, 0) == s.commitments;
  }

  /** With no burst funded an admission keeps the kind within its cap, the campaign within its own, and the
      kind's commitments since midnight within its day, the new hold included. */
  lemma PhaseAdmissionFits(p: Policy, s: Store, step: Step)
    requires step.Reserve? && IsAdmitted(p, s, step) && s.burst.None?
    ensures step.campaign in p.campaigns
    ensures var rows, rule := Next(p, s, step).commitments, p.campaigns[step.campaign];
            Get(p.external, rule.kind) + Sum(rows, OwedUnder(rule.kind, false)) <= Get(p.caps, rule.kind) &&
            Sum(rows, OwedByCampaign(step.campaign)) <= rule.cap &&
            (rule.kind in p.daily ==> Sum(rows, OwedSince(rule.kind, step.now - step.now % Calendar.DAY)) <=
                                      p.daily[rule.kind])
  {
    AdmissionAppends(p, s, step);
    var row, kind := AdmittedRow(p, step), p.campaigns[step.campaign].kind;
    assert Allowed(p, s, step.now, step.granted, step.campaign, step.held);
    OwedWithinLine(p, s, kind);
    SumAppend(s.commitments, row, OwedUnder(kind, false));
    SumAppend(s.commitments, row, OwedByCampaign(step.campaign));
    SumAppend(s.commitments, row, OwedSince(kind, step.now - step.now % Calendar.DAY));
    hide Next, Sum, Used, Allowed, ReserveAnswer;
  }

  function OwedOf(rows: seq<Commitment>): Kind -> int
  {
    (k: Kind) => OwedTotal(rows, k)
  }

  function OwedTotal(rows: seq<Commitment>, kind: Kind): int {
    if rows == [] then 0
    else OwedTotal(rows[..|rows| - 1], kind) + OwedUnder(kind, false)(rows[|rows| - 1])
  }

  lemma {:induction false} OwedTotalIs(rows: seq<Commitment>, kind: Kind)
    ensures OwedTotal(rows, kind) == Sum(rows, OwedUnder(kind, false))
  {
    if rows == [] {
      SumEmpty(OwedUnder(kind, false));
    } else {
      var front, last := rows[..|rows| - 1], rows[|rows| - 1];
      OwedTotalIs(front, kind);
      SumAppend(front, last, OwedUnder(kind, false));
      assert rows == front + [last];
    }
  }

  /** Burst or none, an admission keeps all that the policy's kinds owe within the phase's total cap and the
      burst's own caps together. */
  lemma AggregateFits(p: Policy, s: Store, step: Step)
    requires step.Reserve? && IsAdmitted(p, s, step)
    ensures Sum(p.kinds, OwedOf(s.commitments)) + step.held <= p.totalCap + BurstExtra(s, step.now)
  {
    forall i | 0 <= i < |p.kinds| ensures OwedOf(s.commitments)(p.kinds[i]) <= UsedEach(p, s)(p.kinds[i]) {
      OwedTotalIs(s.commitments, p.kinds[i]);
      OwedWithinLine(p, s, p.kinds[i]);
    }
    SumLe(p.kinds, OwedOf(s.commitments), p.kinds, UsedEach(p, s));
    assert Allowed(p, s, step.now, step.granted, step.campaign, step.held);
  }

  /** Every commitment of a run without the owner's live grant was made while the phase, and the burst once
      one was funded, was running. */
  ghost predicate MadeInPhase(s: Store, p: Policy) {
    (forall i :: 0 <= i < |s.commitments| ==> p.started <= s.commitments[i].created < p.ends) &&
    (s.burst.Some? ==>
       s.burst.value.ends <= p.ends &&
       forall i :: s.burst.value.firstRow <= i < |s.commitments| ==>
                     s.burst.value.started <= s.commitments[i].created < s.burst.value.ends)
  }

  lemma AdmittedWhileRunning(p: Policy, s: Store, step: Step)
    requires step.Reserve? && IsAdmitted(p, s, step)
    ensures Running(p, s, step.now, step.granted)
  {
    hide Running, LineAdmits, DayAdmits, PhaseAdmits, Ready;
  }

  lemma AdmissionIsInPhase(p: Policy, s: Store, step: Step)
    requires MadeInPhase(s, p) && step.Reserve? && !step.granted && IsAdmitted(p, s, step)
    ensures MadeInPhase(Next(p, s, step), p)
  {
    hide Next, IsAdmitted, ReserveAnswer;
    AdmittedWhileRunning(p, s, step);
    AdmissionAppends(p, s, step);
  }

  lemma BurstEndsInPhase(p: Policy, s: Store, step: Step)
    requires s.burst.None?
    ensures Next(p, s, step).burst.Some? ==> Next(p, s, step).burst.value.ends <= p.ends
    ensures BurstRows(Next(p, s, step)) == []
  {
    BurstBeginsEmpty(p, s, step);
    BurstStays(p, s, step);
    if !step.ActivateBurst? {
      hide Next;
    }
    hide Sum, Running, Ready;
  }

  lemma StepIsInPhase(p: Policy, s: Store, step: Step)
    requires MadeInPhase(s, p) && (step.Reserve? ==> !step.granted)
    ensures MadeInPhase(Next(p, s, step), p)
  {
    hide Next, ReserveAnswer, Sum;
    StepKeepsRows(p, s, step);
    BurstStays(p, s, step);
    if step.Reserve? && IsAdmitted(p, s, step) {
      AdmissionIsInPhase(p, s, step);
    } else if s.burst.None? {
      BurstEndsInPhase(p, s, step);
      var after := Next(p, s, step);
      if after.burst.Some? {
        BurstBeginsEmpty(p, s, step);
        assert |RowsAfter(after.commitments, after.burst.value.firstRow)| == 0;
      }
    }
  }

  lemma {:induction false} RunIsInPhase(p: Policy, s: Store, moves: seq<Move>)
    requires MadeInPhase(s, p)
    requires forall i :: 0 <= i < |moves| ==>
                           moves[i].policy == p && (moves[i].step.Reserve? ==> !moves[i].step.granted)
    ensures MadeInPhase(Run(s, moves), p)
    decreases |moves|
  {
    if moves != [] {
      hide Next;
      StepIsInPhase(p, s, moves[0].step);
      RunIsInPhase(p, Next(p, s, moves[0].step), moves[1..]);
    }
  }

  // ------------------------------------------------------------------ a meter that fell, a cap that rose

  predicate Failed(s: Store, kind: Kind) {
    kind in s.health && s.health[kind].failed
  }

  /** A kind's first balance starts its meter's health afresh: a run with none, or one begun after it. */
  predicate NoFirstBalance(s: Store, moves: seq<Move>, kind: Kind) {
    kind in s.balances || forall i :: 0 <= i < |moves| ==>
                                        !(moves[i].step.ObserveBalance? && moves[i].step.kind == kind)
  }

  lemma StepKeepsFailed(p: Policy, s: Store, step: Step, kind: Kind)
    requires Failed(s, kind) && (kind in s.balances || !(step.ObserveBalance? && step.kind == kind))
    ensures Failed(Next(p, s, step), kind) && (kind in s.balances ==> kind in Next(p, s, step).balances)
  {
    hide Calendar.MonthStart, Sum, NextMonthMeter, Recorded, MonthAnswer, AfterReserve, AfterAbsorb, AfterActivation;
    if !step.ObserveSpend? && !step.ObserveBalance? && !step.ObserveMonth? {
      hide Next;
      OnlyReadingsMoveMeters(p, s, step);
    }
  }

  /** A meter that once fell is failed for good: whatever is read or settled after, no continuation admits
      another hold of its kind while the kind is metered -- but that a kind's first balance clears it. */
  lemma {:induction false} FailedMeterStops(s: Store, moves: seq<Move>, kind: Kind)
    requires Failed(s, kind) && NoFirstBalance(s, moves, kind)
    ensures Failed(Run(s, moves), kind)
    ensures forall p: Policy, now, granted, ident, campaign, held: nat ::
              kind in p.metered && campaign in p.campaigns && p.campaigns[campaign].kind == kind ==>
                ReserveAnswer(p, Run(s, moves), now, granted, ident, campaign, held) != Admitted
    decreases |moves|
  {
    if moves != [] {
      hide Next, ReserveAnswer;
      StepKeepsFailed(moves[0].policy, s, moves[0].step, kind);
      FailedMeterStops(Next(moves[0].policy, s, moves[0].step), moves[1..], kind);
    }
  }

  ghost function LastingCap(s: Store, kind: Kind): int {
    if s.burst.Some? && kind in s.burst.value.caps then s.burst.value.caps[kind] + Sum(s.topUps, ToppedUp(kind)) else 0
  }

  ghost predicate NamedOnce(s: Store) {
    forall i, j :: 0 <= i < j < |s.topUps| ==> s.topUps[i].name != s.topUps[j].name
  }

  lemma TopUpRaises(s: Store, name: string, kind: Kind, amount: nat, of: Kind)
    requires NamedOnce(s)
    ensures var after := AfterTopUp(s, name, kind, amount);
            NamedOnce(after) && s.topUps <= after.topUps && after == s.(topUps := after.topUps) &&
            LastingCap(s, of) <= LastingCap(after, of)
  {
    if AfterTopUp(s, name, kind, amount) != s {
      SumAppend(s.topUps, TopUp(name, kind, amount), ToppedUp(of));
    }
  }

  lemma OnlyTopUpsMove(p: Policy, s: Store, step: Step)
    requires !step.TopUpBurst?
    ensures Next(p, s, step).topUps == s.topUps
  {}

  lemma StepKeepsCap(p: Policy, s: Store, step: Step, kind: Kind)
    requires NamedOnce(s) && s.burst.Some?
    ensures var after := Next(p, s, step);
            NamedOnce(after) && after.burst == s.burst && s.topUps <= after.topUps &&
            LastingCap(s, kind) <= LastingCap(after, kind)
  {
    BurstStays(p, s, step);
    if step.TopUpBurst? {
      TopUpRaises(s, step.name, step.kind, step.amount, kind);
    } else {
      OnlyTopUpsMove(p, s, step);
    }
    hide Next, Sum;
  }

  /** A funded burst's cap only rises, each top-up counted once by its name; the gateway's own raise is the
      one part of it that lapses, half an hour after it was last mirrored. */
  lemma {:induction false} BurstCapOnlyRises(s: Store, moves: seq<Move>, kind: Kind)
    requires NamedOnce(s) && s.burst.Some?
    ensures var after := Run(s, moves);
            NamedOnce(after) && after.burst == s.burst && s.topUps <= after.topUps &&
            LastingCap(s, kind) <= LastingCap(after, kind) &&
            forall now :: CapNow(after, now, s.burst.value, kind) ==
                          LastingCap(after, kind) +
                          (if kind in s.burst.value.caps then BonusNow(after, now, kind) else 0) &&
                          (after.bonus.Some? && now > after.bonus.value.at + BONUS_FRESH ==>
                             BonusNow(after, now, kind) == 0)
    decreases |moves|
  {
    if moves != [] {
      StepKeepsCap(moves[0].policy, s, moves[0].step, kind);
      hide Next, LastingCap;
      BurstCapOnlyRises(Next(moves[0].policy, s, moves[0].step), moves[1..], kind);
    }
  }

  // ------------------------------------------------------------------ when an admission fits the month

  /** At any admission of a hold the provider's month may take, burst or none, the month's spend and all
      committed on its line since stay within its cap exactly when the hold is within what the month had
      left -- which, the reading fresh, is what `_provider_left` says of any hold but an empty one. A burst's
      admission always is. */
  lemma MonthFitsWhatIsLeft(p: Policy, s: Store, step: Step, kind: Kind)
    requires step.Reserve? && IsAdmitted(p, s, step)
    requires p.campaigns[step.campaign].kind == kind && MeterCovers(kind, step.ident)
    requires kind in s.months && s.months[kind].cap.Some? && s.months[kind].readingRow <= |s.commitments|
    ensures kind in Next(p, s, step).months
    ensures var m, after := s.months[kind], Next(p, s, step);
            var left := m.cap.value - m.spent - Sum(MonthRows(s, kind), OwedUnder(kind, true));
            after.months[kind] == m &&
            (m.spent + Sum(MonthRows(after, kind), OwedUnder(kind, true)) <= m.cap.value <==> step.held <= left) &&
            (ProviderLeft(s, step.now, kind).Some? && step.held > 0 ==>
               (step.held <= left <==> step.held <= ProviderLeft(s, step.now, kind).value) &&
               (s.burst.Some? ==> step.held <= left))
  {
    AdmissionAppends(p, s, step);
    RowsAfterAppend(s.commitments, AdmittedRow(p, step), s.months[kind].readingRow);
    SumAppend(MonthRows(s, kind), AdmittedRow(p, step), OwedUnder(kind, true));
    if s.burst.Some? && step.held > 0 {
      BurstAdmissionFits(p, s, step.now, step.granted, step.ident, step.campaign, step.held);
    }
    hide Next, ReserveAnswer, Sum, Calendar.MonthStart;
  }

  const RESEARCH := "research"
  const CALL := Frontier("call")
  const SEPTEMBER := 12 * 2026 + 8
  const SECOND_DAY := Calendar.MonthStart(SEPTEMBER) + Calendar.DAY
  const PHASE := Policy(SECOND_DAY - Calendar.DAY, SECOND_DAY + Calendar.DAY, [OpenAI], map[OpenAI := 20], map[], 20,
                        map[RESEARCH := Campaign(OpenAI, 20)], {OpenAI}, map[])
  const SPENT_MONTH := Reading(SEPTEMBER, 7, Some(7), Some(7), None)

  lemma SecondDayIsInSeptember()
    ensures Calendar.MonthStart(SEPTEMBER) <= SECOND_DAY < Calendar.MonthStart(SEPTEMBER + 1)
  {
    hide Calendar.MonthStart;
    Calendar.NextMonth(SEPTEMBER);
  }

  lemma ReadSpentMonth(s: Store)
    requires s == Run(EMPTY, [Move(PHASE, ObserveMonth(SECOND_DAY, OpenAI, SPENT_MONTH))])
    ensures s.commitments == [] && s.burst.None? && OpenAI in s.months && s.months[OpenAI].base == 0
    ensures s.months[OpenAI].cap == Some(7) && s.months[OpenAI].spent == 7 && s.months[OpenAI].readingRow == 0
    ensures s.months[OpenAI].at == SECOND_DAY && OpenAI in s.meters && s.meters[OpenAI] == Meter(0, 7)
    ensures OpenAI in s.health && s.health[OpenAI] == Health(SECOND_DAY, false)
  {
    hide Calendar.MonthStart;
  }

  lemma MonthUsed(s: Store)
    requires s.commitments == [] && OpenAI in s.meters && s.meters[OpenAI] == Meter(0, 7)
    requires OpenAI in s.months && s.months[OpenAI].base == 0
    ensures Used(PHASE, s, OpenAI) == 7 && Aggregate(PHASE, s) == 7
  {
    hide Calendar.MonthStart, Sum;
    assert RowsAfter(s.commitments, 0) == [];
    forall part: Part ensures Sum([], OwedIn(OpenAI, CoversFrom(s, OpenAI), part)) == 0 {
      SumEmpty(OwedIn(OpenAI, CoversFrom(s, OpenAI), part));
    }
    assert UsedEach(PHASE, s)(OpenAI) == Used(PHASE, s, OpenAI);
    SumEmpty(UsedEach(PHASE, s));
    SumAppend([], OpenAI, UsedEach(PHASE, s));
    assert [] + [OpenAI] == [OpenAI];
  }

  lemma SpentMonthAdmits(s: Store)
    requires s.commitments == [] && s.burst.None? && Used(PHASE, s, OpenAI) == 7 && Aggregate(PHASE, s) == 7
    requires OpenAI in s.health && s.health[OpenAI] == Health(SECOND_DAY, false)
    ensures ReserveAnswer(PHASE, s, SECOND_DAY, false, CALL, RESEARCH, 5) == Admitted
  {
    hide Calendar.MonthStart, Used, Aggregate, Sum;
    SumEmpty(OwedByCampaign(RESEARCH));
    assert Running(PHASE, s, SECOND_DAY, false) && Ready(PHASE, s, SECOND_DAY, OpenAI);
    assert LineAdmits(PHASE, s, SECOND_DAY, false, RESEARCH, 5);
    assert DayAdmits(PHASE, s, SECOND_DAY, RESEARCH, 5) && PhaseAdmits(PHASE, s, SECOND_DAY, 5);
  }

  lemma NothingLeft(s: Store)
    requires s.commitments == [] && s.burst.None? && OpenAI in s.months && s.months[OpenAI].at == SECOND_DAY
    requires s.months[OpenAI].cap == Some(7) && s.months[OpenAI].spent == 7 && s.months[OpenAI].readingRow == 0
    requires Used(PHASE, s, OpenAI) == 7
    ensures ProviderLeft(s, SECOND_DAY, OpenAI) == Some(0) && Remaining(PHASE, s, SECOND_DAY, false, OpenAI) == 0
  {
    hide Calendar.MonthStart, Used, Sum;
    assert RowsAfter(s.commitments, 0) == [];
    SumEmpty(OwedUnder(OpenAI, true));
  }

  /** While no burst is funded nothing asks it: on 2 September 2026, with a fresh reading of a month all
      spent, `remaining` is 0 and a hold of 5 on the very line it meters is admitted. */
  lemma PhaseIgnoresTheMonth(s: Store)
    requires s == Run(EMPTY, [Move(PHASE, ObserveMonth(SECOND_DAY, OpenAI, SPENT_MONTH))])
    ensures Calendar.MonthStart(SEPTEMBER) <= SECOND_DAY < Calendar.MonthStart(SEPTEMBER + 1)
    ensures ProviderLeft(s, SECOND_DAY, OpenAI) == Some(0) && Remaining(PHASE, s, SECOND_DAY, false, OpenAI) == 0
    ensures ReserveAnswer(PHASE, s, SECOND_DAY, false, CALL, RESEARCH, 5) == Admitted
  {
    hide *;
    SecondDayIsInSeptember();
    ReadSpentMonth(s);
    MonthUsed(s);
    SpentMonthAdmits(s);
    NothingLeft(s);
  }
}
