/** What a commitment's identity and its hold are worth over a run (league/campaigns.py `reserve`, `settle`,
    `absorb_stale`): an identity means one campaign and one hold for good, a hold a response was linked to
    waits for its own settlement, and what an absorption zeroes is told row by row. */
module CampaignHolds {
  import opened Wrappers
  import opened Sums
  import opened CampaignStore
  import opened CampaignRuns
  import Calendar

  // ------------------------------------------------------------------ an identity

  /** A replay is of a commitment on record with that identity, that campaign and that reservation. */
  lemma ReplayedIsOnRecord(p: Policy, s: Store, now: int, granted: bool, ident: Ident, campaign: string, held: nat)
    ensures ReserveAnswer(p, s, now, granted, ident, campaign, held) == Replayed <==>
            campaign in p.campaigns &&
            exists i :: 0 <= i < |s.commitments| && s.commitments[i].id == ident &&
                        s.commitments[i].campaign == campaign && s.commitments[i].reserved == held
  {
    if exists i :: 0 <= i < |s.commitments| && s.commitments[i].id == ident &&
                   s.commitments[i].campaign == campaign && s.commitments[i].reserved == held {
      assert Known(s.commitments, ident) && Replays(s.commitments, ident, campaign, held);
    }
    hide Allowed;
  }

  /** An identity once admitted means its campaign and its hold in every continuation: asked with another of
      either it is refused, asked with its own it is a replay, and neither changes anything. */
  lemma IdentityIsBinding(s: Store, moves: seq<Move>, i: nat, p: Policy, now: int, granted: bool, campaign: string,
                          held: nat)
    requires DistinctIds(s.commitments) && i < |s.commitments| && campaign in p.campaigns
    ensures var end, c := Run(s, moves), s.commitments[i];
            var answer := ReserveAnswer(p, end, now, granted, c.id, campaign, held);
            (answer == Replayed <==> campaign == c.campaign && held == c.reserved) &&
            (answer == Refused <==> campaign != c.campaign || held != c.reserved) &&
            AfterReserve(p, end, now, granted, c.id, campaign, held) == end
  {
    hide ReserveAnswer, Run, Allowed;
    CostsAreWriteOnce(s, moves);
    RunKeepsIds(s, moves);
    var end := Run(s, moves);
    assert RowKept(s.commitments[i], end.commitments[i]);
    OneRowAnswers(p, end, i, now, granted, campaign, held);
  }

  lemma OneRowAnswers(p: Policy, s: Store, i: nat, now: int, granted: bool, campaign: string, held: nat)
    requires DistinctIds(s.commitments) && i < |s.commitments| && campaign in p.campaigns
    ensures var c := s.commitments[i];
            var answer := ReserveAnswer(p, s, now, granted, c.id, campaign, held);
            answer == (if campaign == c.campaign && held == c.reserved then Replayed else Refused) &&
            AfterReserve(p, s, now, granted, c.id, campaign, held) == s
  {
    hide Allowed;
    assert Known(s.commitments, s.commitments[i].id);
  }

  lemma {:induction false} RunKeepsIds(s: Store, moves: seq<Move>)
    requires DistinctIds(s.commitments)
    ensures DistinctIds(Run(s, moves).commitments)
    decreases |moves|
  {
    hide Next, DistinctIds;
    if moves != [] {
      StepKeepsRows(moves[0].policy, s, moves[0].step);
      RunKeepsIds(Next(moves[0].policy, s, moves[0].step), moves[1..]);
    }
  }

  // ------------------------------------------------------------------ what an absorption zeroes

  /** An absorption changes a row exactly where nothing answered it and the meter stands for it: a hold of the
      kind made before the cutoff, no response linked to it and, where the kind is metered by the month, one
      the month covers, while the meter is healthy and vouches. It then costs nothing. */
  lemma AbsorbedExactly(p: Policy, s: Store, now: int, kind: Kind, older: int, i: nat)
    requires i < |s.commitments|
    ensures var after, c := Next(p, s, AbsorbStale(now, kind, older)), s.commitments[i];
            |after.commitments| == |s.commitments| &&
            (after.commitments[i] != c <==>
             Vouched(p, s, now, kind) && c.kind == kind && c.cost.None? && c.created < now - older &&
             (forall r :: r in s.responses ==> s.responses[r].commitment != c.id) &&
             (kind in s.months ==>
                s.months[kind].coversFrom <= c.created && (kind == OpenAI ==> c.id.Frontier?))) &&
            (after.commitments[i] != c ==> after.commitments[i] == c.(cost := Some(0)))
  {
    VouchedIs(p, s, now, kind);
    hide Absorbs, Vouched, Sum, Calendar.MonthStart;
  }

  /** What an absorption says it released is what the kind owes less. */
  lemma ReleasedIsFreed(p: Policy, s: Store, now: int, kind: Kind, older: int)
    requires Absorbs(p, s, now, kind)
    ensures Sum(s.commitments, AbsorbedHold(s, kind, now - older)) ==
            Sum(s.commitments, OwedUnder(kind, false)) -
            Sum(Next(p, s, AbsorbStale(now, kind, older)).commitments, OwedUnder(kind, false))
  {
    FreedTo(s, Next(p, s, AbsorbStale(now, kind, older)).commitments, kind, now - older, |s.commitments|);
  }

  lemma {:induction false} FreedTo(s: Store, after: seq<Commitment>, kind: Kind, cutoff: int, n: nat)
    requires n <= |s.commitments| == |after|
    requires forall i :: 0 <= i < |after| ==> after[i] == AbsorbedRow(s, s.commitments[i], kind, cutoff)
    ensures SumTo(s.commitments, OwedUnder(kind, false), n) ==
            SumTo(after, OwedUnder(kind, false), n) + SumTo(s.commitments, AbsorbedHold(s, kind, cutoff), n)
  {
    if n > 0 {
      FreedTo(s, after, kind, cutoff, n - 1);
    }
  }

  /** The meter was checked within three minutes, has not failed and no charge on record exceeded its hold;
      and it has measured what the House settled: by the month, what the gateway settled since the anchor is
      at least what the House did on calls old enough to be in the reading, and that is something; by the
      balance, what the meter rose since the burst began is at least all the House settled since. */
  ghost predicate Vouched(p: Policy, s: Store, now: int, kind: Kind) {
    kind in p.metered && kind in s.health && !s.health[kind].failed &&
    0 <= now - s.health[kind].checked <= 180 * Calendar.SECOND &&
    (forall i :: 0 <= i < |s.commitments| && s.commitments[i].cost.Some? ==>
                   s.commitments[i].cost.value <= s.commitments[i].reserved) &&
    if kind in s.months then
      var m := s.months[kind];
      m.anchor.Some? &&
      var grown := m.settledCarried + (if m.settledHigh.Some? then m.settledHigh.value else 0) - m.anchor.value.settled;
      var settled := Sum(RowsAfter(s.commitments, m.anchor.value.row),
                         SettledBefore(kind, m.at - 900 * Calendar.SECOND));
      0 < settled && settled <= grown
    else
      Sum(RowsAfter(s.commitments, if s.burst.Some? then s.burst.value.firstRow else 0), SettledEver(kind)) <=
      (if s.burst.Some? && kind in s.burst.value.meters && kind in s.meters &&
          s.meters[kind].latest >= s.burst.value.meters[kind]
       then s.meters[kind].latest - s.burst.value.meters[kind] else 0)
  }

  /** What the House settled on calls the meter records, made before then. */
  function SettledBefore(kind: Kind, before: int): Commitment -> int {
    (c: Commitment) =>
      if c.kind == kind && c.cost.Some? && c.created < before && (kind == OpenAI ==> c.id.Frontier?)
      then c.cost.value else 0
  }

  function SettledEver(kind: Kind): Commitment -> int {
    (c: Commitment) => if c.kind == kind && c.cost.Some? then c.cost.value else 0
  }

  lemma VouchedIs(p: Policy, s: Store, now: int, kind: Kind)
    ensures Absorbs(p, s, now, kind) <==> Vouched(p, s, now, kind)
  {
    hide Sum, Calendar.MonthStart;
    if kind in s.months {
      var m := s.months[kind];
      if m.anchor.Some? {
        SumSame(RowsAfter(s.commitments, m.anchor.value.row), SettledSince(kind, m.at - CALL_LIFE),
                RowsAfter(s.commitments, m.anchor.value.row), SettledBefore(kind, m.at - 900 * Calendar.SECOND));
      }
    } else {
      var tail := RowsAfter(s.commitments, if s.burst.Some? then s.burst.value.firstRow else 0);
      SumSame(tail, SettledCosts(kind), tail, SettledEver(kind));
    }
  }

  // ------------------------------------------------------------------ a linked hold

  ghost predicate Linked(s: Store, response: string, ident: Ident) {
    response in s.responses && s.responses[response].commitment == ident
  }

  predicate SettlesIt(step: Step, ident: Ident) {
    step.Settle? && step.ident == ident
  }

  lemma StepKeepsLinkedHold(p: Policy, s: Store, step: Step, response: string, i: nat)
    requires DistinctIds(s.commitments) && i < |s.commitments| && !SettlesIt(step, s.commitments[i].id)
    requires Linked(s, response, s.commitments[i].id)
    ensures var after := Next(p, s, step);
            i < |after.commitments| && after.commitments[i] == s.commitments[i] &&
            Linked(after, response, s.commitments[i].id) && DistinctIds(after.commitments)
  {
    hide DistinctIds, Next, Linked;
    StepKeepsRows(p, s, step);
    StepKeepsLinks(p, s, step, response, s.commitments[i].id);
    if step.AbsorbStale? {
      AbsorbedExactly(p, s, step.now, step.kind, step.older, i);
      LinkedIsAnswered(s, response, s.commitments[i].id);
    } else {
      OtherStepsKeepRow(p, s, step, i);
    }
  }

  lemma LinkedIsAnswered(s: Store, response: string, ident: Ident)
    requires Linked(s, response, ident)
    ensures exists r :: r in s.responses && s.responses[r].commitment == ident
  {}

  lemma OtherStepsKeepRow(p: Policy, s: Store, step: Step, i: nat)
    requires i < |s.commitments| && !SettlesIt(step, s.commitments[i].id) && !step.AbsorbStale?
    ensures var after := Next(p, s, step); i < |after.commitments| && after.commitments[i] == s.commitments[i]
  {
    hide ReserveAnswer, Running, Ready, Fundable, NextMonthMeter, MonthAnswer, Checked;
  }

  lemma StepKeepsLinks(p: Policy, s: Store, step: Step, response: string, ident: Ident)
    requires Linked(s, response, ident)
    ensures Linked(Next(p, s, step), response, ident)
  {
    StepKeepsResponse(p, s, step, response);
    hide Next;
  }

  lemma StepKeepsResponse(p: Policy, s: Store, step: Step, response: string)
    requires response in s.responses
    ensures response in Next(p, s, step).responses && Next(p, s, step).responses[response] == s.responses[response]
  {
    hide ReserveAnswer, Running, Ready, Fundable, NextMonthMeter, MonthAnswer, Checked, Absorbs;
    if step.AbsorbStale? {
      AbsorptionKeepsLinks(p, s, step.now, step.kind, step.older);
      hide Next;
    }
  }

  lemma {:induction false} ResponseStays(s: Store, moves: seq<Move>, response: string)
    requires response in s.responses
    ensures response in Run(s, moves).responses && Run(s, moves).responses[response] == s.responses[response]
    decreases |moves|
  {
    hide Next;
    if moves != [] {
      StepKeepsResponse(moves[0].policy, s, moves[0].step, response);
      ResponseStays(Next(moves[0].policy, s, moves[0].step), moves[1..], response);
    }
  }

  /** A response is linked to what it was linked to first, in every continuation, and linking it moves nothing
      else. */
  lemma FirstLinkStands(s: Store, response: string, link: Link, moves: seq<Move>)
    ensures var linked := AfterLink(s, response, link);
            var end := Run(linked, moves);
            response in end.responses &&
            end.responses[response] == (if response in s.responses then s.responses[response] else link) &&
            linked == s.(responses := linked.responses) &&
            forall other :: other != response ==>
                              ((other in linked.responses <==> other in s.responses) &&
                               (other in s.responses ==> linked.responses[other] == s.responses[other]))
  {
    ResponseStays(AfterLink(s, response, link), moves, response);
    hide Run;
  }

  lemma AbsorptionKeepsLinks(p: Policy, s: Store, now: int, kind: Kind, older: int)
    ensures Next(p, s, AbsorbStale(now, kind, older)).responses == s.responses
  {}

  /** A hold some response was linked to waits for its own settlement: through any run in which it is not
      settled it stays the row it was, absorbed by no meter of either kind, and a settlement of it then is
      done and leaves exactly that charge. */
  lemma {:induction false} LinkedHoldWaits(s: Store, moves: seq<Move>, response: string, i: nat)
    requires DistinctIds(s.commitments) && i < |s.commitments| && s.commitments[i].cost.None?
    requires Linked(s, response, s.commitments[i].id)
    requires forall k :: 0 <= k < |moves| ==> !SettlesIt(moves[k].step, s.commitments[i].id)
    ensures var end, c := Run(s, moves), s.commitments[i];
            i < |end.commitments| && end.commitments[i] == c && Linked(end, response, c.id) &&
            forall cost: nat ::
              SettleAnswers(end, c.id, cost) && AfterSettle(end, c.id, cost).commitments[i] == c.(cost := Some(cost))
    decreases |moves|
  {
    if moves == [] {
      forall cost: nat ensures SettleAnswers(s, s.commitments[i].id, cost) {
        assert Settles(s.commitments[i], s.commitments[i].id, cost);
      }
    } else {
      hide Next, AfterSettle, SettleAnswers, DistinctIds, Linked;
      StepKeepsLinkedHold(moves[0].policy, s, moves[0].step, response, i);
      LinkedHoldWaits(Next(moves[0].policy, s, moves[0].step), moves[1..], response, i);
    }
  }

  /** A charge is known for good: what was not known or is the same settles, leaves exactly that charge on its own
      row and no other changed, and in every continuation settles again and as nothing else; what no row names
      never settles. */
  lemma ChargeStands(s: Store, moves: seq<Move>, i: nat, cost: nat)
    requires DistinctIds(s.commitments) && i < |s.commitments|
    ensures var c := s.commitments[i];
            SettleAnswers(s, c.id, cost) <==> c.cost == None || c.cost == Some(cost)
    ensures var c := s.commitments[i];
            SettleAnswers(s, c.id, cost) ==>
              var settled := AfterSettle(s, c.id, cost);
              settled.commitments == s.commitments[i := c.(cost := Some(cost))] &&
              forall other: nat :: SettleAnswers(Run(settled, moves), c.id, other) <==> other == cost
    ensures forall ident, charge ::
              (forall k :: 0 <= k < |s.commitments| ==> s.commitments[k].id != ident) ==>
                !SettleAnswers(s, ident, charge)
  {
    hide Run;
    var c := s.commitments[i];
    AnswersByRow(s, i);
    if c.cost == None || c.cost == Some(cost) {
      var settled := AfterSettle(s, c.id, cost);
      assert settled.commitments == s.commitments[i := c.(cost := Some(cost))];
      assert DistinctIds(settled.commitments);
      CostsAreWriteOnce(settled, moves);
      RunKeepsIds(settled, moves);
      assert RowKept(settled.commitments[i], Run(settled, moves).commitments[i]);
      AnswersByRow(Run(settled, moves), i);
    }
  }

  lemma AnswersByRow(s: Store, i: nat)
    requires DistinctIds(s.commitments) && i < |s.commitments|
    ensures var c := s.commitments[i];
            forall cost: nat :: SettleAnswers(s, c.id, cost) <==> c.cost == None || c.cost == Some(cost)
  {
    var c := s.commitments[i];
    forall cost: nat ensures SettleAnswers(s, c.id, cost) <==> c.cost == None || c.cost == Some(cost) {
      if c.cost == None || c.cost == Some(cost) {
        assert Settles(s.commitments[i], c.id, cost);
      }
    }
  }
}
