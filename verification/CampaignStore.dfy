/** The campaign spending guard's store and what each of its transactions does to it
    (league/campaigns.py `CampaignBudget`). Money is whole micro-dollars, time is microseconds. A
    commitment's row number is its index plus one: rows are only ever appended. */
module CampaignStore {
  import opened Wrappers
  import opened Sums
  import Calendar

  const CALL_LIFE := 900 * Calendar.SECOND
  const METER_FRESH := 180 * Calendar.SECOND
  const BONUS_FRESH := 1800 * Calendar.SECOND
  const BONUS_RENEW := 300 * Calendar.SECOND
  const THOUSAND_USD := 1_000_000_000

  /** The providers a commitment may be made with; Sail and OpenAI are metered apart. */
  datatype Kind = Sail | OpenAI | Named(name: string)

  /** A commitment's identity: OpenAI's calls through the gateway are filed under `frontier:`. */
  datatype Ident = Frontier(call: string) | Plain(name: string)

  datatype Campaign = Campaign(kind: Kind, cap: nat)

  datatype Policy = Policy(started: int, ends: int, kinds: seq<Kind>, caps: map<Kind, nat>, external: map<Kind, nat>,
                           totalCap: nat, campaigns: map<string, Campaign>, metered: set<Kind>, daily: map<Kind, nat>)

  datatype Commitment = Commitment(id: Ident, campaign: string, kind: Kind, reserved: nat, cost: Option<nat>,
                                   created: int)

  datatype Meter = Meter(baseline: nat, latest: nat)

  datatype Health = Health(checked: int, failed: bool)

  datatype Anchor = Anchor(at: int, row: nat, settled: nat)

  datatype MonthMeter = MonthMeter(month: nat, high: nat, carried: nat, settledHigh: Option<nat>, settledCarried: nat,
                                   coversFrom: int, anchor: Option<Anchor>, at: int, cap: Option<nat>, spent: nat,
                                   readingRow: nat, base: nat)

  /** One reading of a provider's month: `previous` is the last earlier month the gateway had calls in. */
  datatype Reading = Reading(month: nat, spent: nat, settled: Option<nat>, cap: Option<nat>, previous: Option<Final>)

  datatype Final = Final(month: nat, spent: nat, settled: Option<nat>)

  datatype Burst = Burst(started: int, ends: int, kinds: seq<Kind>, caps: map<Kind, nat>, firstRow: nat,
                         meters: map<Kind, nat>)

  datatype TopUp = TopUp(name: string, kind: Kind, amount: nat)

  datatype Bonus = Bonus(amount: nat, at: int)

  datatype Link = Link(commitment: Ident, profile: string)

  datatype Store = Store(commitments: seq<Commitment>, meters: map<Kind, Meter>, health: map<Kind, Health>,
                         balances: map<Kind, nat>, months: map<Kind, MonthMeter>, burst: Option<Burst>,
                         topUps: seq<TopUp>, bonus: Option<Bonus>, responses: map<string, Link>)

  const EMPTY := Store([], map[], map[], map[], map[], None, [], None, map[])

  /** What a call answers: `Refused` is `CampaignClosed`, `Malformed` a `ValueError` or a `KeyError`. */
  datatype Answer = Admitted | Replayed | Done | Refused | Malformed

  function Max(a: int, b: int): int {
    if a < b then b else a
  }

  function Min(a: int, b: int): int {
    if a < b then a else b
  }

  function Get(m: map<Kind, nat>, key: Kind): nat {
    if key in m then m[key] else 0
  }

  /** The commitments a kind's meter records, by identity prefix (`METER_COVERS`). */
  predicate MeterCovers(kind: Kind, ident: Ident) {
    kind == OpenAI ==> ident.Frontier?
  }

  /** The rows after row number `n`. */
  function RowsAfter<T>(rows: seq<T>, n: nat): seq<T> {
    if n <= |rows| then rows[n..] else []
  }

  // ------------------------------------------------------------------ what the commitments add up to

  /** The four summands of a line (`_sums`). */
  datatype Part = Inside | Before | Other | Pending

  datatype Parts = Parts(inside: int, before: int, other: int, pending: int)

  function PartOf(c: Commitment, since: int): Part {
    if c.cost.None? then Pending
    else if !MeterCovers(c.kind, c.id) then Other
    else if c.created >= since then Inside
    else Before
  }

  /** What a commitment still claims: its cost, or its whole reservation while the charge is unknown. */
  function Owed(c: Commitment): nat {
    match c.cost
    case Some(cost) => cost
    case None => c.reserved
  }

  function Overrun(c: Commitment): nat {
    if Owed(c) > c.reserved then Owed(c) - c.reserved else 0
  }

  function OwedUnder(kind: Kind, metered: bool): Commitment -> int {
    (c: Commitment) => if c.kind == kind && (metered ==> MeterCovers(kind, c.id)) then Owed(c) else 0
  }

  function OverrunUnder(kind: Kind, metered: bool): Commitment -> int {
    (c: Commitment) => if c.kind == kind && (metered ==> MeterCovers(kind, c.id)) then Overrun(c) else 0
  }

  function OwedIn(kind: Kind, since: int, part: Part): Commitment -> int {
    (c: Commitment) => if c.kind == kind && PartOf(c, since) == part then Owed(c) else 0
  }

  function OwedByCampaign(campaign: string): Commitment -> int {
    (c: Commitment) => if c.campaign == campaign then Owed(c) else 0
  }

  function OwedSince(kind: Kind, midnight: int): Commitment -> int {
    (c: Commitment) => if c.kind == kind && c.created >= midnight then Owed(c) else 0
  }

  ghost function PartsOf(rows: seq<Commitment>, kind: Kind, since: int): Parts {
    Parts(Sum(rows, OwedIn(kind, since, Inside)), Sum(rows, OwedIn(kind, since, Before)),
          Sum(rows, OwedIn(kind, since, Other)), Sum(rows, OwedIn(kind, since, Pending)))
  }

  predicate Breached(rows: seq<Commitment>) {
    exists i :: 0 <= i < |rows| && Owed(rows[i]) > rows[i].reserved
  }

  predicate Known(rows: seq<Commitment>, ident: Ident) {
    exists i :: 0 <= i < |rows| && rows[i].id == ident
  }

  /** Identities are the table's primary key. */
  ghost predicate DistinctIds(rows: seq<Commitment>) {
    forall i, j :: 0 <= i < j < |rows| ==> rows[i].id != rows[j].id
  }

  // ------------------------------------------------------------------ the lines

  function CoversFrom(s: Store, kind: Kind): int {
    if kind in s.months then s.months[kind].coversFrom else 0
  }

  ghost function SumsOf(s: Store, kind: Kind, afterRow: nat): Parts {
    PartsOf(RowsAfter(s.commitments, afterRow), kind, CoversFrom(s, kind))
  }

  /** What the kind's meter has counted since the burst's baseline (`_measured`). */
  function MeasuredOf(s: Store, kind: Kind, burst: Option<Burst>): nat {
    if kind !in s.meters then 0
    else
      var meter := s.meters[kind];
      var baseline :=
        match burst
        case None => meter.baseline
        case Some(b) =>
          if kind in b.meters then b.meters[kind]
          else if kind in s.months then meter.baseline
          else meter.latest;
      var floor := if kind in s.months then Max(baseline, s.months[kind].base) else baseline;
      Max(0, meter.latest - floor)
  }

  /** max(settled, measured) + before + unmetered + pending. */
  function LineUsed(parts: Parts, measured: int): int {
    Max(parts.inside, measured) + parts.before + parts.other + parts.pending
  }

  ghost function BurstUsed(s: Store, kind: Kind, burst: Burst): int {
    LineUsed(SumsOf(s, kind, burst.firstRow), MeasuredOf(s, kind, Some(burst)))
  }

  ghost function Used(p: Policy, s: Store, kind: Kind): int {
    Get(p.external, kind) + LineUsed(SumsOf(s, kind, 0), MeasuredOf(s, kind, None))
  }

  function ToppedUp(kind: Kind): TopUp -> int {
    (t: TopUp) => if t.kind == kind then t.amount else 0
  }

  function BonusNow(s: Store, now: int, kind: Kind): nat {
    match s.bonus
    case Some(b) => if kind == OpenAI && 0 <= now - b.at <= BONUS_FRESH then b.amount else 0
    case None => 0
  }

  ghost function CapNow(s: Store, now: int, burst: Burst, kind: Kind): int {
    if kind in burst.caps then burst.caps[kind] + Sum(s.topUps, ToppedUp(kind)) + BonusNow(s, now, kind) else 0
  }

  predicate Running(p: Policy, s: Store, now: int, granted: bool) {
    granted ||
    (p.started <= now < p.ends && (s.burst.None? || s.burst.value.started <= now < s.burst.value.ends))
  }

  predicate Ready(p: Policy, s: Store, now: int, kind: Kind) {
    !Breached(s.commitments) &&
    (kind in p.metered ==> kind in s.health && !s.health[kind].failed &&
                           0 <= now - s.health[kind].checked <= METER_FRESH)
  }

  /** What the provider's own month has left at a fresh reading (`_provider_left`). */
  ghost function ProviderLeft(s: Store, now: int, kind: Kind): Option<int> {
    if kind !in s.months || s.months[kind].cap.None? || !(0 <= now - s.months[kind].at <= METER_FRESH) then None
    else
      var m := s.months[kind];
      Some(Max(0, m.cap.value - m.spent - Sum(RowsAfter(s.commitments, m.readingRow), OwedUnder(kind, true))))
  }

  ghost function Remaining(p: Policy, s: Store, now: int, granted: bool, kind: Kind): int {
    var line :=
      match s.burst
      case Some(burst) => if Running(p, s, now, granted)
      then Max(0, CapNow(s, now, burst, kind) - BurstUsed(s, kind, burst)) else 0
      case None => Max(0, Get(p.caps, kind) - Used(p, s, kind));
    match ProviderLeft(s, now, kind)
    case Some(left) => Min(line, left)
    case None => line
  }

  // ------------------------------------------------------------------ reserve and settle

  ghost function Aggregate(p: Policy, s: Store): int {
    Sum(p.kinds, UsedEach(p, s))
  }

  ghost function UsedEach(p: Policy, s: Store): Kind -> int {
    (k: Kind) => Used(p, s, k)
  }

  ghost function CapEach(s: Store, now: int, burst: Burst): Kind -> int {
    (k: Kind) => CapNow(s, now, burst, k)
  }

  ghost function BurstExtra(s: Store, now: int): int {
    match s.burst
    case Some(burst) => Sum(burst.kinds, CapEach(s, now, burst))
    case None => 0
  }

  /** What `reserve` answers; every refusal leaves the store as it was. */
  ghost function ReserveAnswer(p: Policy, s: Store, now: int, granted: bool, ident: Ident, campaign: string,
                               held: nat): Answer {
    if campaign !in p.campaigns then Malformed
    else if Known(s.commitments, ident) then
      if Replays(s.commitments, ident, campaign, held) then Replayed else Refused
    else if Allowed(p, s, now, granted, campaign, held) then Admitted
    else Refused
  }

  /** The checks a new identity passes, in the order they are asked. */
  ghost predicate Allowed(p: Policy, s: Store, now: int, granted: bool, campaign: string, held: nat)
    requires campaign in p.campaigns
  {
    Running(p, s, now, granted) && Ready(p, s, now, p.campaigns[campaign].kind) &&
    LineAdmits(p, s, now, granted, campaign, held) && DayAdmits(p, s, now, campaign, held) &&
    PhaseAdmits(p, s, now, held)
  }

  /** The daily line bounds a kind only while no burst is funded. */
  ghost predicate DayAdmits(p: Policy, s: Store, now: int, campaign: string, held: nat)
    requires campaign in p.campaigns
  {
    var kind := p.campaigns[campaign].kind;
    s.burst.None? && kind in p.daily ==>
      Sum(s.commitments, OwedSince(kind, now - now % Calendar.DAY)) + held <= p.daily[kind]
  }

  ghost predicate PhaseAdmits(p: Policy, s: Store, now: int, held: nat) {
    Aggregate(p, s) + held <= p.totalCap + BurstExtra(s, now)
  }

  predicate Replays(rows: seq<Commitment>, ident: Ident, campaign: string, held: nat) {
    exists i :: 0 <= i < |rows| && rows[i].id == ident && rows[i].campaign == campaign && rows[i].reserved == held
  }

  ghost predicate LineAdmits(p: Policy, s: Store, now: int, granted: bool, campaign: string, held: nat)
    requires campaign in p.campaigns
  {
    var rule := p.campaigns[campaign];
    match s.burst
    case Some(_) => held <= Remaining(p, s, now, granted, rule.kind)
    case None =>
      Used(p, s, rule.kind) + held <= Get(p.caps, rule.kind) &&
      Sum(s.commitments, OwedByCampaign(campaign)) + held <= rule.cap
  }

  ghost function AfterReserve(p: Policy, s: Store, now: int, granted: bool, ident: Ident, campaign: string,
                              held: nat): Store {
    if ReserveAnswer(p, s, now, granted, ident, campaign, held) == Admitted then
      s.(commitments := s.commitments + [Commitment(ident, campaign, p.campaigns[campaign].kind, held, None, now)])
    else s
  }

  predicate Settles(c: Commitment, ident: Ident, cost: nat) {
    c.id == ident && (c.cost.None? || c.cost == Some(cost))
  }

  /** What `settle` answers: done where the identity's charge is unknown or the same. */
  predicate SettleAnswers(s: Store, ident: Ident, cost: nat) {
    exists i :: 0 <= i < |s.commitments| && Settles(s.commitments[i], ident, cost)
  }

  ghost function AfterSettle(s: Store, ident: Ident, cost: nat): Store {
    s.(commitments := seq(|s.commitments|, i requires 0 <= i < |s.commitments| =>
      if Settles(s.commitments[i], ident, cost) then s.commitments[i].(cost := Some(cost)) else s.commitments[i]))
  }

  // ------------------------------------------------------------------ the meters

  function Checked(health: map<Kind, Health>, kind: Kind, now: int): map<Kind, Health> {
    health[kind := Health(now, kind in health && health[kind].failed)]
  }

  function AfterSpend(s: Store, now: int, kind: Kind, amount: nat): Store {
    if kind in s.meters && amount < s.meters[kind].latest then
      s.(health := s.health[kind := Health(if kind in s.health then s.health[kind].checked else now, true)])
    else
      s.(meters := s.meters[kind := if kind in s.meters then s.meters[kind].(latest := amount)
      else Meter(amount, amount)],
           health := Checked(s.health, kind, now))
  }

  function AfterBalance(s: Store, now: int, kind: Kind, amount: nat): Store {
    if kind !in s.balances then
      s.(meters := if kind in s.meters then s.meters else s.meters[kind := Meter(0, 0)],
      balances := s.balances[kind := amount],
      health := s.health[kind := Health(now, false)])
    else
      s.(meters := if kind in s.meters && amount < s.balances[kind]
      then s.meters[kind := s.meters[kind].(latest := s.meters[kind].latest + s.balances[kind] - amount)]
      else s.meters,
        balances := s.balances[kind := amount],
        health := Checked(s.health, kind, now))
  }

  /** Whether the reading closes the month on record: the gateway named it and said how it ended. */
  predicate Closes(m: MonthMeter, r: Reading) {
    r.previous.Some? && r.previous.value.month == m.month
  }

  function Settled(figure: Option<nat>): nat {
    match figure
    case Some(value) => value
    case None => 0
  }

  /** The month a later reading starts: the last one's final is carried (`observe_month`, a rollover). */
  function RolledOver(m: MonthMeter, r: Reading): MonthMeter {
    var oldHigh := if Closes(m, r) then Max(m.high, r.previous.value.spent) else m.high;
    var oldSettled := if Closes(m, r) then Max(Settled(m.settledHigh), Settled(r.previous.value.settled))
                      else Settled(m.settledHigh);
    var unread := r.previous.Some? && m.month < r.previous.value.month;
    var carried := m.carried + oldHigh + if unread then r.previous.value.spent else 0;
    var settledCarried := m.settledCarried + oldSettled + if unread then Settled(r.previous.value.settled) else 0;
    m.(month := r.month, high := r.spent, settledHigh := r.settled, carried := carried, settledCarried :=
    settledCarried,
    coversFrom := if Closes(m, r) then m.coversFrom else Calendar.MonthStart(r.month),
    base := if Closes(m, r) then m.base else carried,
    anchor := None)
  }

  function ReadAgain(m: MonthMeter, r: Reading): MonthMeter {
    m.(high := Max(m.high, r.spent),
    settledHigh := if r.settled.Some? then Some(Max(Settled(m.settledHigh), r.settled.value)) else m.settledHigh)
  }

  function FirstRead(r: Reading): MonthMeter {
    MonthMeter(r.month, r.spent, 0, r.settled, 0, Calendar.MonthStart(r.month), None, 0, None, 0, 0, 0)
  }

  /** What every accepted reading records: the month's own line, and an anchor where there is none. */
  function Recorded(m: MonthMeter, r: Reading, now: int, lastRow: nat): MonthMeter {
    var read := m.(cap := r.cap, spent := r.spent, readingRow := lastRow, at := now);
    if read.anchor.None? && read.settledHigh.Some?
    then read.(anchor := Some(Anchor(now, lastRow, read.settledCarried + read.settledHigh.value)))
    else read
  }

  function MonthAnswer(s: Store, kind: Kind, r: Reading): Answer {
    if r.previous.Some? && r.previous.value.month >= r.month then Malformed
    else if kind !in s.months then (if kind in s.meters || r.month < Calendar.YEAR_ONE then Malformed else Done)
    else if r.month < s.months[kind].month then Refused
    else Done
  }

  function NextMonthMeter(s: Store, kind: Kind, r: Reading): MonthMeter {
    if kind !in s.months then FirstRead(r)
    else if r.month == s.months[kind].month then ReadAgain(s.months[kind], r)
    else RolledOver(s.months[kind], r)
  }

  function AfterMonth(s: Store, now: int, kind: Kind, r: Reading): Store {
    if MonthAnswer(s, kind, r) != Done then s
    else
      var m := Recorded(NextMonthMeter(s, kind, r), r, now, |s.commitments|);
      var meter := if kind in s.months then (if kind in s.meters then s.meters[kind] else Meter(0, 0))
                   else Meter(0, r.spent);
      var meters := if kind in s.months && kind !in s.meters then s.meters
                    else s.meters[kind := meter.(latest := Max(meter.latest, m.carried + m.high))];
      s.(months := s.months[kind := m], meters := meters, health := Checked(s.health, kind, now))
  }

  // ------------------------------------------------------------------ absorption

  predicate Answered(s: Store, ident: Ident) {
    exists r :: r in s.responses && s.responses[r].commitment == ident
  }

  /** The holds an absorption zeroes: unanswered, older than `cutoff`, and recorded by the meter. */
  predicate Absorbable(s: Store, c: Commitment, kind: Kind, cutoff: int) {
    c.kind == kind && c.cost.None? && c.created < cutoff && !Answered(s, c.id) &&
    (kind in s.months ==> c.created >= s.months[kind].coversFrom && MeterCovers(kind, c.id))
  }

  function SettledSince(kind: Kind, before: int): Commitment -> int {
    (c: Commitment) => if c.kind == kind && MeterCovers(kind, c.id) && c.cost.Some? && c.created < before
      then c.cost.value else 0
  }

  function SettledCosts(kind: Kind): Commitment -> int {
    (c: Commitment) => if c.kind == kind && c.cost.Some? then c.cost.value else 0
  }

  /** The check before any release into the gateway's month (`_absorb_into_month`). */
  ghost predicate MonthAgrees(s: Store, kind: Kind)
    requires kind in s.months
  {
    var m := s.months[kind];
    m.anchor.Some? &&
    var since := Sum(RowsAfter(s.commitments, m.anchor.value.row), SettledSince(kind, m.at - CALL_LIFE));
    0 < since <= m.settledCarried + Settled(m.settledHigh) - m.anchor.value.settled
  }

  /** The check before any release into an account balance: the meter must dominate what was settled. */
  ghost predicate BalanceDominates(s: Store, kind: Kind) {
    var first := match s.burst case Some(b) => b.firstRow case None => 0;
    var measured :=
      if kind in s.meters && s.burst.Some? && kind in s.burst.value.meters
      then Max(0, s.meters[kind].latest - s.burst.value.meters[kind]) else 0;
    Sum(RowsAfter(s.commitments, first), SettledCosts(kind)) <= measured
  }

  ghost predicate Absorbs(p: Policy, s: Store, now: int, kind: Kind) {
    kind in p.metered && Ready(p, s, now, kind) &&
    if kind in s.months then MonthAgrees(s, kind) else BalanceDominates(s, kind)
  }

  ghost function AbsorbedRow(s: Store, c: Commitment, kind: Kind, cutoff: int): Commitment {
    if Absorbable(s, c, kind, cutoff) then c.(cost := Some(0)) else c
  }

  ghost function AbsorbedHold(s: Store, kind: Kind, cutoff: int): Commitment -> int {
    (c: Commitment) => if Absorbable(s, c, kind, cutoff) then c.reserved else 0
  }

  ghost function AfterAbsorb(p: Policy, s: Store, now: int, kind: Kind, older: int): Store {
    if !Absorbs(p, s, now, kind) then s
    else
      s.(commitments := seq(|s.commitments|, i requires 0 <= i < |s.commitments| =>
        AbsorbedRow(s, s.commitments[i], kind, now - older)))
  }

  // ------------------------------------------------------------------ the owner's and the gateway's raises

  function AfterTopUp(s: Store, name: string, kind: Kind, amount: nat): Store {
    if kind !in {Sail, OpenAI} || !(0 < amount <= THOUSAND_USD) || s.burst.None? then s
    else if exists i :: 0 <= i < |s.topUps| && s.topUps[i].name == name then s
    else s.(topUps := s.topUps + [TopUp(name, kind, amount)])
  }

  function AfterBonus(s: Store, now: int, amount: nat): Store {
    var value := Min(amount, THOUSAND_USD);
    if s.bonus.Some? && s.bonus.value.amount == value && 0 <= now - s.bonus.value.at < BONUS_RENEW then s
    else s.(bonus := Some(Bonus(value, now)))
  }

  /** What a burst may fund (league/overnight.py `validate`): Sail and OpenAI, each above nothing and up to
      $1,000, for one to eight hours. */
  predicate Fundable(caps: map<Kind, nat>, duration: nat) {
    caps.Keys == {Sail, OpenAI} && 0 < caps[Sail] <= THOUSAND_USD && 0 < caps[OpenAI] <= THOUSAND_USD &&
    Calendar.HOUR <= duration <= 8 * Calendar.HOUR
  }

  function AfterActivation(p: Policy, s: Store, now: int, granted: bool, caps: map<Kind, nat>, duration: nat): Store {
    if !Fundable(caps, duration) || p.totalCap + caps[Sail] + caps[OpenAI] > 10 * THOUSAND_USD then s
    else if s.burst.Some? || !Running(p, s, now, granted) then s
    else if !Ready(p, s, now, Sail) || !Ready(p, s, now, OpenAI) then s
    else s.(burst := Some(Burst(now, Min(p.ends, now + duration), [Sail, OpenAI], caps, |s.commitments|,
                                map k | k in s.meters :: s.meters[k].latest)))
  }

  function AfterLink(s: Store, response: string, link: Link): Store {
    if response in s.responses then s else s.(responses := s.responses[response := link])
  }

  // ------------------------------------------------------------------ runs

  datatype Step =
    | Reserve(now: int, granted: bool, ident: Ident, campaign: string, held: nat)
    | Settle(ident: Ident, cost: nat)
    | ObserveSpend(now: int, kind: Kind, amount: nat)
    | ObserveBalance(now: int, kind: Kind, amount: nat)
    | ObserveMonth(now: int, kind: Kind, reading: Reading)
    | AbsorbStale(now: int, kind: Kind, older: int)
    | TopUpBurst(name: string, kind: Kind, amount: nat)
    | MirrorBonus(now: int, amount: nat)
    | ActivateBurst(now: int, granted: bool, caps: map<Kind, nat>, duration: nat)
    | LinkResponse(response: string, link: Link)

  ghost function Next(p: Policy, s: Store, step: Step): Store {
    match step
    case Reserve(now, granted, ident, campaign, held) => AfterReserve(p, s, now, granted, ident, campaign, held)
    case Settle(ident, cost) => AfterSettle(s, ident, cost)
    case ObserveSpend(now, kind, amount) => AfterSpend(s, now, kind, amount)
    case ObserveBalance(now, kind, amount) => AfterBalance(s, now, kind, amount)
    case ObserveMonth(now, kind, reading) => AfterMonth(s, now, kind, reading)
    case AbsorbStale(now, kind, older) => AfterAbsorb(p, s, now, kind, older)
    case TopUpBurst(name, kind, amount) => AfterTopUp(s, name, kind, amount)
    case MirrorBonus(now, amount) => AfterBonus(s, now, amount)
    case ActivateBurst(now, granted, caps, duration) => AfterActivation(p, s, now, granted, caps, duration)
    case LinkResponse(response, link) => AfterLink(s, response, link)
  }

  /** A step under the policy its process opened the store with: a deployment may amend the policy of a
      running phase, so a run's policies need not be one (`_amend`). */
  datatype Move = Move(policy: Policy, step: Step)

  ghost function Run(s: Store, moves: seq<Move>): Store
    decreases |moves|
  {
    if moves == [] then s else Run(Next(moves[0].policy, s, moves[0].step), moves[1..])
  }
}
