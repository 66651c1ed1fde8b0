/** What a hold is admitted on, both ways (league/campaigns.py `reserve`, `remaining`): what the rows claim, the
    settled charges a meter has already counted, and the owner's and the gateway's raises. */
module CampaignAdmissions {
  import opened Wrappers
  import opened Sums
  import opened CampaignStore
  import CampaignRuns
  import Calendar

  // ------------------------------------------------------------------ what the rows say

  /** A charge that is known, the whole hold of one that is not. */
  function Claim(c: Commitment): nat {
    if c.cost.Some? then c.cost.value else c.reserved
  }

  function Claims(kind: Kind): Commitment -> int {
    (c: Commitment) => if c.kind == kind then Claim(c) else 0
  }

  function ClaimsOf(campaign: string): Commitment -> int {
    (c: Commitment) => if c.campaign == campaign then Claim(c) else 0
  }

  function ClaimsFrom(kind: Kind, start: int): Commitment -> int {
    (c: Commitment) => if c.kind == kind && start <= c.created then Claim(c) else 0
  }

  /** Claims on the provider's own line: of OpenAI's only the gateway's calls are. */
  function ClaimsAtProvider(kind: Kind): Commitment -> int {
    (c: Commitment) => if c.kind == kind && (kind != OpenAI || c.id.Frontier?) then Claim(c) else 0
  }

  /** The known charges a kind's meter has counted too. */
  function Counted(kind: Kind, since: int): Commitment -> int {
    (c: Commitment) =>
      if c.kind == kind && (kind != OpenAI || c.id.Frontier?) && since <= c.created && c.cost.Some?
      then c.cost.value else 0
  }

  /** What a kind has used: all its rows claim, and what its meter shows beyond the charges it counted. */
  ghost function Taken(rows: seq<Commitment>, kind: Kind, since: int, measured: int): int {
    var counted := Sum(rows, Counted(kind, since));
    Sum(rows, Claims(kind)) + if measured > counted then measured - counted else 0
  }

  lemma LineIsTaken(rows: seq<Commitment>, kind: Kind, since: int, measured: int)
    ensures LineUsed(PartsOf(rows, kind, since), measured) == Taken(rows, kind, since, measured)
  {
    CampaignRuns.PartsPartition(rows, kind, since);
    SumSame(rows, OwedUnder(kind, false), rows, Claims(kind));
    SumSame(rows, OwedIn(kind, since, Inside), rows, Counted(kind, since));
  }

  ghost function TakenInPhase(p: Policy, s: Store): Kind -> int {
    (kind: Kind) => (if kind in p.external then p.external[kind] else 0) +
      Taken(s.commitments, kind, if kind in s.months then s.months[kind].coversFrom else 0,
            MeasuredOf(s, kind, None))
  }

  lemma UsedIsTaken(p: Policy, s: Store, kind: Kind)
    ensures Used(p, s, kind) == TakenInPhase(p, s)(kind)
  {
    LineIsTaken(s.commitments, kind, CoversFrom(s, kind), MeasuredOf(s, kind, None));
    assert RowsAfter(s.commitments, 0) == s.commitments;
  }

  /** What a burst funds a kind with: its cap, the owner's top-ups of it, and a bonus told in the last half hour. */
  ghost function Funds(s: Store, now: int): Kind -> int {
    (kind: Kind) =>
      if s.burst.None? || kind !in s.burst.value.caps then 0
      else
        s.burst.value.caps[kind] +
        Sum(s.topUps, (t: TopUp) => if t.kind == kind then t.amount else 0) +
        if kind == OpenAI && s.bonus.Some? && s.bonus.value.at <= now <= s.bonus.value.at + BONUS_FRESH
        then s.bonus.value.amount else 0
  }

  lemma CapIsFunds(s: Store, now: int, burst: Burst, kind: Kind)
    requires s.burst == Some(burst)
    ensures CapNow(s, now, burst, kind) == Funds(s, now)(kind)
  {
    SumSame(s.topUps, ToppedUp(kind), s.topUps, (t: TopUp) => if t.kind == kind then t.amount else 0);
  }

  ghost function TakenInBurst(s: Store, kind: Kind): int
    requires s.burst.Some?
  {
    Taken(RowsAfter(s.commitments, s.burst.value.firstRow), kind,
          if kind in s.months then s.months[kind].coversFrom else 0, MeasuredOf(s, kind, s.burst))
  }

  // ------------------------------------------------------------------ the guards

  /** The phase runs, and a funded burst with it, unless an account holder stands in. */
  predicate InTime(p: Policy, s: Store, now: int, granted: bool) {
    !granted ==>
      p.started <= now && now < p.ends &&
      (s.burst.Some? ==> s.burst.value.started <= now && now < s.burst.value.ends)
  }

  /** No charge exceeded its hold, and a metered kind was read in the last three minutes without failing. */
  predicate Trusted(p: Policy, s: Store, now: int, kind: Kind) {
    (forall i :: 0 <= i < |s.commitments| && s.commitments[i].cost.Some? ==>
                   s.commitments[i].cost.value <= s.commitments[i].reserved) &&
    (kind in p.metered ==>
       kind in s.health && !s.health[kind].failed &&
       s.health[kind].checked <= now <= s.health[kind].checked + METER_FRESH)
  }

  lemma TrustedIsReady(p: Policy, s: Store, now: int, kind: Kind)
    ensures Ready(p, s, now, kind) <==> Trusted(p, s, now, kind)
  {
    if !Breached(s.commitments) {
      forall i | 0 <= i < |s.commitments| && s.commitments[i].cost.Some?
        ensures s.commitments[i].cost.value <= s.commitments[i].reserved {
        assert Owed(s.commitments[i]) <= s.commitments[i].reserved;
      }
    }
  }

  /** A month's line read in the last three minutes holds the claims made since, and the new hold beside them. */
  ghost predicate ProviderHolds(s: Store, now: int, kind: Kind, held: nat) {
    kind in s.months && s.months[kind].cap.Some? &&
    s.months[kind].at <= now <= s.months[kind].at + METER_FRESH && held > 0 ==>
      s.months[kind].spent + Sum(RowsAfter(s.commitments, s.months[kind].readingRow), ClaimsAtProvider(kind)) + held
      <= s.months[kind].cap.value
  }

  lemma AtProvider(rows: seq<Commitment>, kind: Kind)
    ensures Sum(rows, OwedUnder(kind, true)) == Sum(rows, ClaimsAtProvider(kind))
  {
    SumSame(rows, OwedUnder(kind, true), rows, ClaimsAtProvider(kind));
  }

  lemma LeftHolds(s: Store, now: int, kind: Kind, held: nat)
    ensures (match ProviderLeft(s, now, kind) case Some(left) => held <= left case None => true) <==>
            ProviderHolds(s, now, kind, held)
  {
    if kind in s.months {
      var rows := RowsAfter(s.commitments, s.months[kind].readingRow);
      AtProvider(rows, kind);
    }
  }

  lemma AllIsTaken(p: Policy, s: Store)
    ensures Aggregate(p, s) == Sum(p.kinds, TakenInPhase(p, s))
  {
    forall i | 0 <= i < |p.kinds| ensures UsedEach(p, s)(p.kinds[i]) == TakenInPhase(p, s)(p.kinds[i]) {
      UsedIsTaken(p, s, p.kinds[i]);
    }
    SumSame(p.kinds, UsedEach(p, s), p.kinds, TakenInPhase(p, s));
  }

  lemma ExtraIsFunds(s: Store, now: int)
    requires s.burst.Some?
    ensures BurstExtra(s, now) == Sum(s.burst.value.kinds, Funds(s, now))
  {
    var burst := s.burst.value;
    forall i | 0 <= i < |burst.kinds|
      ensures CapEach(s, now, burst)(burst.kinds[i]) == Funds(s, now)(burst.kinds[i]) {
      CapIsFunds(s, now, burst, burst.kinds[i]);
    }
    SumSame(burst.kinds, CapEach(s, now, burst), burst.kinds, Funds(s, now));
  }

  // ------------------------------------------------------------------ admitted, and only then

  /** Before a burst is funded a new identity is admitted exactly where its kind, its campaign, the day and the
      whole phase hold it beside everything claimed and measured. */
  lemma PhaseAdmitsExactly(p: Policy, s: Store, now: int, granted: bool, ident: Ident, campaign: string, held: nat)
    requires s.burst.None? && campaign in p.campaigns
    ensures var kind, midnight := p.campaigns[campaign].kind, now - now % Calendar.DAY;
            ReserveAnswer(p, s, now, granted, ident, campaign, held) == Admitted <==>
            (forall i :: 0 <= i < |s.commitments| ==> s.commitments[i].id != ident) &&
            InTime(p, s, now, granted) && Trusted(p, s, now, kind) &&
            TakenInPhase(p, s)(kind) + held <= (if kind in p.caps then p.caps[kind] else 0) &&
            Sum(s.commitments, ClaimsOf(campaign)) + held <= p.campaigns[campaign].cap &&
            (kind in p.daily ==> Sum(s.commitments, ClaimsFrom(kind, midnight)) + held <= p.daily[kind]) &&
            Sum(p.kinds, TakenInPhase(p, s)) + held <= p.totalCap
  {
    hide Sum, Used, Aggregate, TakenInPhase, Ready, Trusted;
    var kind, midnight := p.campaigns[campaign].kind, now - now % Calendar.DAY;
    TrustedIsReady(p, s, now, kind);
    UsedIsTaken(p, s, kind);
    AllIsTaken(p, s);
    SumSame(s.commitments, OwedByCampaign(campaign), s.commitments, ClaimsOf(campaign));
    SumSame(s.commitments, OwedSince(kind, midnight), s.commitments, ClaimsFrom(kind, midnight));
  }

  /** While a burst is funded a new identity is admitted exactly where the burst's funds hold it beside what was
      claimed and measured since, the provider's month does, and the phase and the burst's funds together do. */
  lemma BurstAdmitsExactly(p: Policy, s: Store, now: int, granted: bool, ident: Ident, campaign: string, held: nat)
    requires s.burst.Some? && campaign in p.campaigns
    ensures var kind := p.campaigns[campaign].kind;
            ReserveAnswer(p, s, now, granted, ident, campaign, held) == Admitted <==>
            (forall i :: 0 <= i < |s.commitments| ==> s.commitments[i].id != ident) &&
            InTime(p, s, now, granted) && Trusted(p, s, now, kind) &&
            (held == 0 || TakenInBurst(s, kind) + held <= Funds(s, now)(kind)) && ProviderHolds(s, now, kind, held) &&
            Sum(p.kinds, TakenInPhase(p, s)) + held <= p.totalCap + Sum(s.burst.value.kinds, Funds(s, now))
  {
    hide Sum, Aggregate, TakenInPhase, TakenInBurst, Ready, Trusted, Funds, CapNow, BurstUsed, Remaining,
      ProviderHolds, BurstExtra, LineAdmits;
    var kind := p.campaigns[campaign].kind;
    TrustedIsReady(p, s, now, kind);
    AllIsTaken(p, s);
    ExtraIsFunds(s, now);
    if Running(p, s, now, granted) {
      LineHolds(p, s, now, granted, campaign, held);
    }
  }

  lemma LineHolds(p: Policy, s: Store, now: int, granted: bool, campaign: string, held: nat)
    requires s.burst.Some? && campaign in p.campaigns && Running(p, s, now, granted)
    ensures var kind := p.campaigns[campaign].kind;
            LineAdmits(p, s, now, granted, campaign, held) <==>
            (held == 0 || TakenInBurst(s, kind) + held <= Funds(s, now)(kind)) && ProviderHolds(s, now, kind, held)
  {
    hide Sum, Funds, CapNow, PartsOf, MeasuredOf, ProviderLeft, ProviderHolds, Taken, Running;
    var kind, burst := p.campaigns[campaign].kind, s.burst.value;
    CapIsFunds(s, now, burst, kind);
    LineIsTaken(RowsAfter(s.commitments, burst.firstRow), kind, CoversFrom(s, kind), MeasuredOf(s, kind, s.burst));
    LeftHolds(s, now, kind, held);
  }

  /** What remains of a kind is the largest hold its line and the provider's month hold, and nothing out of time. */
  lemma RoomIsLargest(p: Policy, s: Store, now: int, granted: bool, kind: Kind, held: nat)
    requires held > 0
    ensures held <= Remaining(p, s, now, granted, kind) <==>
            (if s.burst.Some? then InTime(p, s, now, granted) && TakenInBurst(s, kind) + held <= Funds(s, now)(kind)
             else TakenInPhase(p, s)(kind) + held <= (if kind in p.caps then p.caps[kind] else 0)) &&
            ProviderHolds(s, now, kind, held)
    ensures Remaining(p, s, now, granted, kind) >= 0
  {
    hide Sum, Funds, CapNow, PartsOf, MeasuredOf, ProviderHolds, Taken, TakenInPhase, Used;
    UsedIsTaken(p, s, kind);
    LeftHolds(s, now, kind, held);
    if s.burst.Some? {
      CapIsFunds(s, now, s.burst.value, kind);
      LineIsTaken(RowsAfter(s.commitments, s.burst.value.firstRow), kind, CoversFrom(s, kind),
                  MeasuredOf(s, kind, s.burst));
    }
  }

  /** An unknown campaign is the caller's mistake whatever else holds. */
  lemma UnknownIsMalformed(p: Policy, s: Store, now: int, granted: bool, ident: Ident, campaign: string, held: nat)
    ensures ReserveAnswer(p, s, now, granted, ident, campaign, held) == Malformed <==> campaign !in p.campaigns
  {}

  // ------------------------------------------------------------------ funding

  /** A burst is funded exactly once, for the two paid kinds, inside the owner's bounds and while the phase runs on
      trusted meters; it starts now, with nothing committed and every meter where it stands. */
  lemma FundsExactly(p: Policy, s: Store, now: int, granted: bool, caps: map<Kind, nat>, duration: nat)
    requires s.burst.None?
    ensures var after := AfterActivation(p, s, now, granted, caps, duration);
            after == s.(burst := after.burst) &&
            (after.burst.Some? <==>
             Sail in caps && OpenAI in caps && (forall kind :: kind in caps ==> kind == Sail || kind == OpenAI) &&
             (forall kind :: kind in caps ==> 0 < caps[kind] <= 1_000_000_000) &&
             Calendar.HOUR <= duration && duration <= 8 * Calendar.HOUR &&
             p.totalCap + caps[Sail] + caps[OpenAI] <= 10_000_000_000 &&
             InTime(p, s, now, granted) && Trusted(p, s, now, Sail) && Trusted(p, s, now, OpenAI)) &&
            (after.burst.Some? ==>
               var b := after.burst.value;
               b.started == now && b.ends <= now + duration && b.ends <= p.ends &&
               (b.ends == now + duration || b.ends == p.ends) &&
               b.caps == caps && b.kinds == [Sail, OpenAI] && RowsAfter(after.commitments, b.firstRow) == [] &&
               b.firstRow == |after.commitments| &&
               b.meters.Keys == s.meters.Keys &&
               forall kind :: kind in b.meters ==> b.meters[kind] == s.meters[kind].latest)
  {
    TrustedIsReady(p, s, now, Sail);
    TrustedIsReady(p, s, now, OpenAI);
    hide Ready, Trusted;
    if Sail in caps && OpenAI in caps && forall kind :: kind in caps ==> kind == Sail || kind == OpenAI {
      assert caps.Keys == {Sail, OpenAI};
    }
  }

  /** The owner's top-up is added where a burst is funded, the kind is a paid one, the amount is within the bounds
      and its name is new. */
  lemma ToppedUpExactly(s: Store, name: string, kind: Kind, amount: nat)
    ensures var after := AfterTopUp(s, name, kind, amount);
            after == s.(topUps := after.topUps) &&
            if s.burst.Some? && (kind == Sail || kind == OpenAI) && 0 < amount && amount <= 1_000_000_000 &&
               forall i :: 0 <= i < |s.topUps| ==> s.topUps[i].name != name
            then after.topUps == s.topUps + [TopUp(name, kind, amount)] else after.topUps == s.topUps
  {
    if i :| 0 <= i < |s.topUps| && s.topUps[i].name == name {
      assert AfterTopUp(s, name, kind, amount) == s;
    }
  }

  /** The gateway's raise is what it last told, up to $1,000, and told now unless the same was told within five
      minutes. */
  lemma RaiseIsLastTold(s: Store, now: int, amount: nat)
    ensures var after := AfterBonus(s, now, amount);
            after == s.(bonus := after.bonus) && after.bonus.Some? &&
            after.bonus.value.amount == (if amount > 1_000_000_000 then 1_000_000_000 else amount) &&
            if s.bonus.Some? && s.bonus.value.amount == after.bonus.value.amount && s.bonus.value.at <= now &&
               now < s.bonus.value.at + 300 * Calendar.SECOND
            then after.bonus.value.at == s.bonus.value.at else after.bonus.value.at == now
  {}

  // ------------------------------------------------------------------ what a meter has counted

  /** What a meter shows above a figure, leaving out what a month that could not be closed carried before it. */
  function Above(s: Store, kind: Kind, figure: nat): nat
    requires kind in s.meters
  {
    var carried := if kind in s.months then s.months[kind].base else 0;
    var floor := if carried > figure then carried else figure;
    if s.meters[kind].latest > floor then s.meters[kind].latest - floor else 0
  }

  lemma StepKeepsBaselines(p: Policy, s: Store, step: Step, kind: Kind)
    requires kind in s.meters
    ensures kind in Next(p, s, step).meters && Next(p, s, step).meters[kind].baseline == s.meters[kind].baseline
  {
    hide Next;
    if !step.ObserveSpend? && !step.ObserveBalance? && !step.ObserveMonth? {
      CampaignRuns.OnlyReadingsMoveMeters(p, s, step);
    } else {
      ReadingKeepsBaselines(p, s, step, kind);
    }
  }

  lemma ReadingKeepsBaselines(p: Policy, s: Store, step: Step, kind: Kind)
    requires kind in s.meters && (step.ObserveSpend? || step.ObserveBalance? || step.ObserveMonth?)
    ensures kind in Next(p, s, step).meters && Next(p, s, step).meters[kind].baseline == s.meters[kind].baseline
  {
    hide Calendar.MonthStart, NextMonthMeter, Checked, Recorded, MonthAnswer;
    match step
    case ObserveMonth(now, of, reading) =>
      MonthKeepsBaselines(s, now, of, reading, kind);
      hide AfterMonth;
    case _ =>
  }

  lemma MonthKeepsBaselines(s: Store, now: int, of: Kind, reading: Reading, kind: Kind)
    requires kind in s.meters
    ensures var after := AfterMonth(s, now, of, reading).meters;
            kind in after && after[kind].baseline == s.meters[kind].baseline
  {
    hide Calendar.MonthStart, NextMonthMeter, Checked, Recorded;
  }

  lemma {:induction false} BaselinesStay(s: Store, moves: seq<Move>, kind: Kind)
    requires kind in s.meters
    ensures kind in Run(s, moves).meters && Run(s, moves).meters[kind].baseline == s.meters[kind].baseline
    decreases |moves|
  {
    hide Next;
    if moves != [] {
      StepKeepsBaselines(moves[0].policy, s, moves[0].step, kind);
      BaselinesStay(Next(moves[0].policy, s, moves[0].step), moves[1..], kind);
    }
  }

  lemma {:induction false} BurstStands(s: Store, moves: seq<Move>)
    requires s.burst.Some?
    ensures Run(s, moves).burst == s.burst
    decreases |moves|
  {
    hide Next;
    if moves != [] {
      CampaignRuns.BurstStays(moves[0].policy, s, moves[0].step);
      BurstStands(Next(moves[0].policy, s, moves[0].step), moves[1..]);
    }
  }

  /** From any store on, whatever happens: with no burst funded a kind is measured from the first figure of its
      meter; once one is, from where its meter stood at the funding, however long ago. */
  lemma MeasuredFromItsStart(p: Policy, s: Store, step: Step, moves: seq<Move>, kind: Kind)
    requires s.burst.None?
    ensures var funded, after := Next(p, s, step), Run(Next(p, s, step), moves);
            (kind in s.meters ==> kind in after.meters) &&
            (kind !in after.meters ==> MeasuredOf(after, kind, after.burst) == 0) &&
            (kind in s.meters && after.burst.None? ==>
               MeasuredOf(after, kind, None) == Above(after, kind, s.meters[kind].baseline)) &&
            (kind in s.meters && funded.burst.Some? ==>
               MeasuredOf(after, kind, after.burst) == Above(after, kind, s.meters[kind].latest)) &&
            (kind !in s.meters && kind in after.meters && funded.burst.Some? ==>
               MeasuredOf(after, kind, after.burst) ==
               if kind in after.months then Above(after, kind, after.meters[kind].baseline) else 0)
  {
    var funded, after := Next(p, s, step), Run(Next(p, s, step), moves);
    hide Run;
    if kind in s.meters {
      StepKeepsBaselines(p, s, step, kind);
      BaselinesStay(funded, moves, kind);
    }
    if funded.burst.Some? {
      BurstStands(funded, moves);
      CampaignRuns.BurstStays(p, s, step);
      FundedNow(p, s, step);
    }
    hide Next;
  }

  lemma FundedNow(p: Policy, s: Store, step: Step)
    requires s.burst.None? && Next(p, s, step).burst.Some?
    ensures var b := Next(p, s, step).burst.value;
            b.meters.Keys == s.meters.Keys &&
            forall kind :: kind in b.meters ==> b.meters[kind] == s.meters[kind].latest
  {
    hide Fundable, Running, Ready;
    CampaignRuns.BurstStays(p, s, step);
  }
}
