/** The guard itself (league/campaigns.py `CampaignBudget`): tables updated row by row, each transaction
    one atomic step. Every method is held to the step of `CampaignStore` it takes, so what `CampaignRuns`
    and `Absorption` prove of runs holds of this class. */
module CampaignBudgets {
  import opened Wrappers
  import opened Sums
  import opened CampaignStore
  import Calendar

  class CampaignBudget {
    const policy: Policy
    var commitments: seq<Commitment>
    var meters: map<Kind, Meter>
    var health: map<Kind, Health>
    var balances: map<Kind, nat>
    var months: map<Kind, MonthMeter>
    var burst: Option<Burst>
    var topUps: seq<TopUp>
    var bonus: Option<Bonus>
    var responses: map<string, Link>

    function State(): Store
      reads this
    {
      Store(commitments, meters, health, balances, months, burst, topUps, bonus, responses)
    }

    /** The identity of a commitment is its table's primary key. */
    ghost predicate Valid()
      reads this
    {
      DistinctIds(commitments)
    }

    constructor (policy: Policy)
      ensures this.policy == policy && Valid() && State() == EMPTY
    {
      this.policy := policy;
      commitments, meters, health, balances, months := [], map[], map[], map[], map[];
      burst, topUps, bonus, responses := None, [], None, map[];
    }

    // ---------------------------------------------------------------- what a query reads

    /** `SELECT COALESCE(SUM(...),0) FROM commitments WHERE rowid > ?` */
    method Total(afterRow: nat, weight: Commitment -> int) returns (total: int)
      ensures total == Sum(RowsAfter(commitments, afterRow), weight)
    {
      total := 0;
      ghost var tail := RowsAfter(commitments, afterRow);
      var i := afterRow;
      while i < |commitments|
        invariant afterRow <= |commitments| ==>
                    afterRow <= i <= |commitments| && total == SumTo(tail, weight, i - afterRow)
        invariant afterRow > |commitments| ==> total == 0 && tail == []
        decreases |commitments| - i
      {
        assert tail[i - afterRow] == commitments[i];
        total := total + weight(commitments[i]);
        i := i + 1;
      }
    }

    /** The four summands of a line in one scan (`_sums`). */
    method SumsAfter(kind: Kind, afterRow: nat) returns (parts: Parts)
      ensures parts == SumsOf(State(), kind, afterRow)
    {
      var since := CoversFrom(State(), kind);
      var inside, before, other, pending := 0, 0, 0, 0;
      ghost var tail := RowsAfter(commitments, afterRow);
      var i := afterRow;
      while i < |commitments|
        invariant afterRow <= |commitments| ==> afterRow <= i <= |commitments|
        invariant afterRow > |commitments| ==> tail == [] && i == afterRow
        invariant var n := i - afterRow;
                  0 <= n <= |tail| &&
                  inside == SumTo(tail, OwedIn(kind, since, Inside), n) &&
                  before == SumTo(tail, OwedIn(kind, since, Before), n) &&
                  other == SumTo(tail, OwedIn(kind, since, Other), n) &&
                  pending == SumTo(tail, OwedIn(kind, since, Pending), n)
        decreases |commitments| - i
      {
        var c := commitments[i];
        assert tail[i - afterRow] == c;
        if c.kind == kind {
          match PartOf(c, since)
          case Inside => inside := inside + Owed(c);
          case Before => before := before + Owed(c);
          case Other => other := other + Owed(c);
          case Pending => pending := pending + Owed(c);
        }
        i := i + 1;
      }
      parts := Parts(inside, before, other, pending);
    }

    method Find(ident: Ident) returns (row: Option<nat>)
      ensures row.Some? ==> row.value < |commitments| && commitments[row.value].id == ident
      ensures row.None? ==> !Known(commitments, ident)
    {
      for i := 0 to |commitments|
        invariant forall j :: 0 <= j < i ==> commitments[j].id != ident
      {
        if commitments[i].id == ident {
          return Some(i);
        }
      }
      row := None;
    }

    method ToppedUpTotal(kind: Kind) returns (total: int)
      ensures total == Sum(topUps, ToppedUp(kind))
    {
      total := 0;
      for i := 0 to |topUps|
        invariant total == SumTo(topUps, ToppedUp(kind), i)
      {
        total := total + ToppedUp(kind)(topUps[i]);
      }
    }

    /** A kind's burst cap now: the policy's, the owner's top-ups and the gateway's own raise (`burst`). */
    method Cap(now: int, funded: Burst, kind: Kind) returns (cap: int)
      ensures cap == CapNow(State(), now, funded, kind)
    {
      if kind !in funded.caps {
        return 0;
      }
      var added := ToppedUpTotal(kind);
      cap := funded.caps[kind] + added + BonusNow(State(), now, kind);
    }

    method Line(kind: Kind, funded: Burst) returns (used: int)
      ensures used == BurstUsed(State(), kind, funded)
    {
      hide SumsOf, MeasuredOf, LineUsed;
      var parts := SumsAfter(kind, funded.firstRow);
      used := LineUsed(parts, MeasuredOf(State(), kind, Some(funded)));
    }

    method UsedBy(kind: Kind) returns (used: int)
      ensures used == Used(policy, State(), kind)
    {
      hide SumsOf, MeasuredOf, LineUsed, Get;
      var parts := SumsAfter(kind, 0);
      used := Get(policy.external, kind) + LineUsed(parts, MeasuredOf(State(), kind, None));
    }

    method LeftAtProvider(now: int, kind: Kind) returns (left: Option<int>)
      ensures left == ProviderLeft(State(), now, kind)
    {
      if kind !in months || months[kind].cap.None? || !(0 <= now - months[kind].at <= METER_FRESH) {
        return None;
      }
      var since := Total(months[kind].readingRow, OwedUnder(kind, true));
      left := Some(Max(0, months[kind].cap.value - months[kind].spent - since));
    }

    method RemainingFor(now: int, granted: bool, kind: Kind) returns (left: int)
      ensures left == Remaining(policy, State(), now, granted, kind)
    {
      if burst.Some? {
        var cap := Cap(now, burst.value, kind);
        var used := Line(kind, burst.value);
        left := if Running(policy, State(), now, granted) then Max(0, cap - used) else 0;
      } else {
        var used := UsedBy(kind);
        left := Max(0, Get(policy.caps, kind) - used);
      }
      var bound := LeftAtProvider(now, kind);
      if bound.Some? {
        left := Min(left, bound.value);
      }
    }

    // ---------------------------------------------------------------- reserve and settle

    method LineHasRoom(now: int, granted: bool, campaign: string, held: nat) returns (room: bool)
      requires campaign in policy.campaigns
      ensures room == LineAdmits(policy, State(), now, granted, campaign, held)
    {
      var rule := policy.campaigns[campaign];
      if burst.Some? {
        var left := RemainingFor(now, granted, rule.kind);
        return held <= left;
      }
      var used := UsedBy(rule.kind);
      var campaigned := Total(0, OwedByCampaign(campaign));
      assert RowsAfter(commitments, 0) == commitments;
      room := used + held <= Get(policy.caps, rule.kind) && campaigned + held <= rule.cap;
    }

    method DayHasRoom(now: int, campaign: string, held: nat) returns (room: bool)
      requires campaign in policy.campaigns
      ensures room == DayAdmits(policy, State(), now, campaign, held)
    {
      var kind := policy.campaigns[campaign].kind;
      if burst.Some? || kind !in policy.daily {
        return true;
      }
      var today := Total(0, OwedSince(kind, now - now % Calendar.DAY));
      assert RowsAfter(commitments, 0) == commitments;
      room := today + held <= policy.daily[kind];
    }

    method PhaseHasRoom(now: int, held: nat) returns (room: bool)
      ensures room == PhaseAdmits(policy, State(), now, held)
    {
      var committed := 0;
      ghost var each := UsedEach(policy, State());
      for i := 0 to |policy.kinds|
        invariant committed == SumTo(policy.kinds, each, i)
      {
        var used := UsedBy(policy.kinds[i]);
        assert used == each(policy.kinds[i]);
        committed := committed + used;
      }
      var extra := BurstCaps(now);
      room := committed + held <= policy.totalCap + extra;
    }

    method BurstCaps(now: int) returns (extra: int)
      ensures extra == BurstExtra(State(), now)
    {
      extra := 0;
      if burst.Some? {
        var funded := burst.value;
        ghost var each := CapEach(State(), now, funded);
        for i := 0 to |funded.kinds|
          invariant extra == SumTo(funded.kinds, each, i)
        {
          var cap := Cap(now, funded, funded.kinds[i]);
          assert cap == each(funded.kinds[i]);
          extra := extra + cap;
        }
      }
    }

    method Reserve(now: int, granted: bool, ident: Ident, campaign: string, held: nat) returns (answer: Answer)
      requires Valid()
      modifies this`commitments
      ensures Valid()
      ensures answer == old(ReserveAnswer(policy, State(), now, granted, ident, campaign, held))
      ensures State() == old(AfterReserve(policy, State(), now, granted, ident, campaign, held))
      ensures answer == Replayed ==>
                exists i :: 0 <= i < |commitments| && old(commitments)[i].id == ident &&
                            old(commitments)[i].campaign == campaign && old(commitments)[i].reserved == held
      ensures (exists i :: 0 <= i < |commitments| && commitments[i].id == ident &&
                           (commitments[i].campaign != campaign || commitments[i].reserved != held)) ==>
                answer == Refused || answer == Malformed
    {
      hide LineAdmits, DayAdmits, PhaseAdmits, Running, Ready, Sum;
      if campaign !in policy.campaigns {
        return Malformed;
      }
      var kind := policy.campaigns[campaign].kind;
      var row := Find(ident);
      if row.Some? {
        var known := commitments[row.value];
        return if known.campaign == campaign && known.reserved == held then Replayed else Refused;
      }
      if !Running(policy, State(), now, granted) || !Ready(policy, State(), now, kind) {
        return Refused;
      }
      var line := LineHasRoom(now, granted, campaign, held);
      if !line {
        return Refused;
      }
      var day := DayHasRoom(now, campaign, held);
      var phase := PhaseHasRoom(now, held);
      if !day || !phase {
        return Refused;
      }
      commitments := commitments + [Commitment(ident, campaign, kind, held, None, now)];
      answer := Admitted;
    }

    method Settle(ident: Ident, cost: nat) returns (answer: Answer)
      requires Valid()
      modifies this`commitments
      ensures Valid()
      ensures State() == old(AfterSettle(State(), ident, cost))
      ensures answer == Done <==> old(SettleAnswers(State(), ident, cost))
    {
      var row := Find(ident);
      if row.None? {
        assert forall i :: 0 <= i < |commitments| ==> !Settles(commitments[i], ident, cost);
        return Refused;
      }
      var i := row.value;
      if commitments[i].cost.Some? && commitments[i].cost.value != cost {
        assert forall j :: 0 <= j < |commitments| ==> !Settles(commitments[j], ident, cost);
        return Refused;
      }
      assert Settles(commitments[i], ident, cost);
      commitments := commitments[i := commitments[i].(cost := Some(cost))];
      answer := Done;
    }

    // ---------------------------------------------------------------- the meters

    method ObserveSpend(now: int, kind: Kind, amount: nat) returns (answer: Answer)
      modifies this`meters, this`health
      ensures State() == old(AfterSpend(State(), now, kind, amount))
      ensures answer == Refused <==> kind in old(meters) && amount < old(meters)[kind].latest
    {
      if kind in meters && amount < meters[kind].latest {
        health := health[kind := Health(if kind in health then health[kind].checked else now, true)];
        return Refused;
      }
      meters := meters[kind := if kind in meters then meters[kind].(latest := amount) else Meter(amount, amount)];
      health := Checked(health, kind, now);
      answer := Done;
    }

    method ObserveBalance(now: int, kind: Kind, amount: nat) returns (added: nat)
      modifies this`meters, this`health, this`balances
      ensures State() == old(AfterBalance(State(), now, kind, amount))
      ensures added == if kind in old(balances) && amount < old(balances)[kind] then old(balances)[kind] - amount else 0
    {
      added := if kind in balances then Max(0, balances[kind] - amount) else 0;
      if kind !in balances {
        if kind !in meters {
          meters := meters[kind := Meter(0, 0)];
        }
        health := health[kind := Health(now, false)];
      } else {
        if added > 0 && kind in meters {
          meters := meters[kind := meters[kind].(latest := meters[kind].latest + added)];
        }
        health := Checked(health, kind, now);
      }
      balances := balances[kind := amount];
    }

    /** What a reading starts the month's row from: its first row, another reading of it, or a rollover. */
    method StartFrom(kind: Kind, reading: Reading) returns (state: MonthMeter)
      ensures state == NextMonthMeter(State(), kind, reading)
    {
      if kind !in months {
        return FirstRead(reading);
      }
      state := months[kind];
      state := if reading.month == state.month then ReadAgain(state, reading) else RolledOver(state, reading);
    }

    method ObserveMonth(now: int, kind: Kind, reading: Reading) returns (answer: Answer)
      modifies this`meters, this`health, this`months
      ensures answer == old(MonthAnswer(State(), kind, reading))
      ensures State() == old(AfterMonth(State(), now, kind, reading))
    {
      hide Calendar.MonthStart, NextMonthMeter, Recorded;
      if reading.previous.Some? && reading.previous.value.month >= reading.month {
        return Malformed;
      }
      if kind !in months && (kind in meters || reading.month < Calendar.YEAR_ONE) {
        return Malformed;
      }
      if kind in months && reading.month < months[kind].month {
        return Refused;
      }
      var state := StartFrom(kind, reading);
      state := Recorded(state, reading, now, |commitments|);
      if kind !in months {
        meters := meters[kind := Meter(0, Max(reading.spent, state.carried + state.high))];
      } else if kind in meters {
        meters := meters[kind := meters[kind].(latest := Max(meters[kind].latest, state.carried + state.high))];
      }
      months, health := months[kind := state], Checked(health, kind, now);
      answer := Done;
    }

    // ---------------------------------------------------------------- absorption

    method MayAbsorb(kind: Kind) returns (may: bool)
      ensures may == if kind in months then MonthAgrees(State(), kind) else BalanceDominates(State(), kind)
    {
      if kind in months {
        var m := months[kind];
        if m.anchor.None? {
          return false;
        }
        var since := Total(m.anchor.value.row, SettledSince(kind, m.at - CALL_LIFE));
        return 0 < since <= m.settledCarried + Settled(m.settledHigh) - m.anchor.value.settled;
      }
      var first := if burst.Some? then burst.value.firstRow else 0;
      var settled := Total(first, SettledCosts(kind));
      var measured := if kind in meters && burst.Some? && kind in burst.value.meters
      then Max(0, meters[kind].latest - burst.value.meters[kind]) else 0;
      may := settled <= measured;
    }

    /** Zero every unanswered hold older than `cutoff`; what they held in all. */
    method Release(kind: Kind, cutoff: int) returns (released: int)
      requires Valid()
      modifies this`commitments
      ensures Valid()
      ensures State() == old(State()).(commitments := commitments)
      ensures |commitments| == |old(commitments)|
      ensures forall j :: 0 <= j < |commitments| ==>
                            commitments[j] == AbsorbedRow(old(State()), old(commitments)[j], kind, cutoff)
      ensures released == old(Sum(commitments, AbsorbedHold(State(), kind, cutoff)))
    {
      hide Calendar.MonthStart, Absorbable;
      released := 0;
      var was := State();
      ghost var holds := AbsorbedHold(was, kind, cutoff);
      for i := 0 to |commitments|
        invariant |commitments| == |was.commitments|
        invariant forall j :: 0 <= j < i ==> commitments[j] == AbsorbedRow(was, was.commitments[j], kind, cutoff)
        invariant forall j :: i <= j < |commitments| ==> commitments[j] == was.commitments[j]
        invariant released == SumTo(was.commitments, holds, i)
      {
        if Absorbable(was, commitments[i], kind, cutoff) {
          released := released + commitments[i].reserved;
          commitments := commitments[i := commitments[i].(cost := Some(0))];
        }
      }
    }

    /** Absorb a metered kind's stale holds, where the meter is healthy and vouches for them. */
    method AbsorbStale(now: int, kind: Kind, older: int) returns (released: int)
      requires Valid()
      modifies this`commitments
      ensures Valid()
      ensures State() == old(AfterAbsorb(policy, State(), now, kind, older))
      ensures released == if old(Absorbs(policy, State(), now, kind))
                          then old(Sum(commitments, AbsorbedHold(State(), kind, now - older))) else 0
    {
      if kind !in policy.metered || !Ready(policy, State(), now, kind) {
        return 0;
      }
      var may := MayAbsorb(kind);
      if !may {
        return 0;
      }
      hide Calendar.MonthStart, Sum, Absorbable, Ready, MonthAgrees, BalanceDominates;
      released := Release(kind, now - older);
    }

    // ---------------------------------------------------------------- the owner's and the gateway's raises

    method TopUpBurst(name: string, kind: Kind, amount: nat)
      modifies this`topUps
      ensures State() == old(AfterTopUp(State(), name, kind, amount))
    {
      if kind !in {Sail, OpenAI} || !(0 < amount <= THOUSAND_USD) || burst.None? {
        return;
      }
      for i := 0 to |topUps|
        invariant topUps == old(topUps)
        invariant forall j :: 0 <= j < i ==> topUps[j].name != name
      {
        if topUps[i].name == name {
          return;
        }
      }
      topUps := topUps + [TopUp(name, kind, amount)];
    }

    method MirrorBonus(now: int, amount: nat)
      modifies this`bonus
      ensures State() == old(AfterBonus(State(), now, amount))
    {
      var value := Min(amount, THOUSAND_USD);
      if bonus.Some? && bonus.value.amount == value && 0 <= now - bonus.value.at < BONUS_RENEW {
        return;
      }
      bonus := Some(Bonus(value, now));
    }

    method ActivateBurst(now: int, granted: bool, caps: map<Kind, nat>, duration: nat)
      modifies this`burst
      ensures State() == old(AfterActivation(policy, State(), now, granted, caps, duration))
    {
      if !Fundable(caps, duration) || policy.totalCap + caps[Sail] + caps[OpenAI] > 10 * THOUSAND_USD {
        return;
      }
      if burst.Some? || !Running(policy, State(), now, granted) {
        return;
      }
      if !Ready(policy, State(), now, Sail) || !Ready(policy, State(), now, OpenAI) {
        return;
      }
      burst := Some(Burst(now, Min(policy.ends, now + duration), [Sail, OpenAI], caps, |commitments|,
                          map k | k in meters :: meters[k].latest));
    }

    method LinkResponse(response: string, link: Link) returns (answer: Answer)
      modifies this`responses
      ensures State() == old(AfterLink(State(), response, link))
      ensures answer == Refused <==> response in old(responses) && old(responses)[response] != link
    {
      if response in responses {
        return if responses[response] == link then Done else Refused;
      }
      responses := responses[response := link];
      answer := Done;
    }
  }
}
