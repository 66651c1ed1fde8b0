/** What every run of passes, verdicts, written rows and lost state keeps of a family's swing: one approval
    licenses one stay, an approval prepared ahead licenses nothing before its look passes, and exactly where
    a stay rests on no approval, or on one for a look that did not come or did not pass. */
module SwingRuns {
  import opened Wrappers
  import opened Swings

  /** `Persist` writes the family's `family.record` row; `Lose` is a start without `allocator.json`, which
      restores the state the last row says where the ledger can be read (`restore_states`). */
  datatype Event = Pass(record: Record, asking: Asking) | Verdict(approve: bool) | Persist | Lose(readable: bool)

  /** `entered` is the audit each entry into the swing rested on, `asked` how many passes could have asked
      for one, `row` what the family's last row says, and `count` the real settlements on record when the
      audit now on record was asked for. */
  datatype Run = Run(family: Family, asked: nat, entered: seq<nat>, row: Option<State>, count: nat)

  const NEW := Run(Family(None, NoAudit), 0, [], None, 0)

  predicate Enters(f: Family, r: Record, rule: Rule, a: Asking, id: nat) {
    Before(f, r) != Swing && AfterPass(f, r, rule, a, id).state == Some(Swing)
  }

  /** An entry, condition by condition. */
  predicate Licensed(f: Family, r: Record, rule: Rule) {
    r.proven && r.released && Ready(r, rule) && Approved(f.audit) &&
    (f.audit.status == Prepared ==> LookCame(f.audit, r, rule)) &&
    forall i :: 0 <= i < |r.members| ==> r.members[i].program <= f.audit.started && r.members[i].born <= f.audit.started
  }

  /** A family enters the swing at a pass exactly when it is proven, the grant releases it, its entry look
      passes at its checkpoint, and an approved audit stands that no member's new program or birth came
      after, whose look has come if it was prepared ahead of it. */
  lemma EntryIsLicensed(f: Family, r: Record, rule: Rule, a: Asking, id: nat)
    ensures Enters(f, r, rule, a, id) <==> Before(f, r) != Swing && Licensed(f, r, rule)
  {}

  function IdOf(audit: Audit): Option<nat> {
    match audit
    case Running(id, _, _, _) => Some(id)
    case Judged(id, _, _, _, _) => Some(id)
    case _ => None
  }

  function After(run: Run, e: Event, rule: Rule): Run {
    match e
    case Pass(r, a) =>
      var f := AfterPass(run.family, r, rule, a, run.asked);
      var entry := Enters(run.family, r, rule, a, run.asked) && run.family.audit.Judged?;
      Run(f, run.asked + 1, if entry then run.entered + [run.family.audit.id] else run.entered, run.row,
          if IdOf(f.audit) == Some(run.asked) then r.n else run.count)
    case Verdict(approve) => run.(family := AfterVerdict(run.family, approve))
    case Persist => run.(row := if run.family.state.Some? then run.family.state else run.row)
    case Lose(readable) => run.(family := Family(if readable then run.row else None, NoAudit))
  }

  function Ran(run: Run, events: seq<Event>, rule: Rule): Run {
    if events == [] then run else After(Ran(run, events[..|events| - 1], rule), events[|events| - 1], rule)
  }

  // ------------------------------------------------------------------ one pass

  /** Leaving the swing leaves no approval on record. */
  lemma LeavingLapses(f: Family, r: Record, rule: Rule, a: Asking, id: nat)
    requires Before(f, r) == Swing && AfterPass(f, r, rule, a, id).state != Some(Swing)
    ensures var after := AfterPass(f, r, rule, a, id).audit;
            (Approved(f.audit) ==> after == Lapsed || IdOf(after) == Some(id)) && (Approved(after) ==> f.audit.Running?)
  {}

  /** The audit a pass leaves is the one it found, or a new one. */
  lemma PassKeepsOrAsks(f: Family, r: Record, rule: Rule, a: Asking, id: nat)
    ensures var after := AfterPass(f, r, rule, a, id).audit;
            IdOf(after).Some? ==> IdOf(after) == IdOf(f.audit) || (IdOf(after) == Some(id) && after.Running?)
    ensures Enters(f, r, rule, a, id) ==> Approved(f.audit) &&
                                          IdOf(AfterPass(f, r, rule, a, id).audit) == IdOf(f.audit) &&
                                          Approved(AfterPass(f, r, rule, a, id).audit)
  {}

  /** While a family stays in the swing nothing is asked for: its approval stands or lapses. */
  lemma StayingKeeps(f: Family, r: Record, rule: Rule, a: Asking, id: nat)
    ensures AfterPass(f, r, rule, a, id).state.Some?
    ensures AfterPass(f, r, rule, a, id).state == Some(Swing) && Before(f, r) == Swing ==>
              AfterPass(f, r, rule, a, id).audit == f.audit ||
              (Approved(f.audit) && AfterPass(f, r, rule, a, id).audit == Lapsed)
    ensures Before(f, r) == Swing ==> f.state == Some(Swing)
  {}

  // ------------------------------------------------------------------ one approval, one stay

  /** Outside the swing no approval on record has been entered on. */
  ghost predicate Fresh(run: Run) {
    (forall i :: 0 <= i < |run.entered| ==> run.entered[i] < run.asked) &&
    (forall i, j :: 0 <= i < j < |run.entered| ==> run.entered[i] < run.entered[j]) &&
    (IdOf(run.family.audit).Some? ==>
       IdOf(run.family.audit).value < run.asked &&
       forall i :: 0 <= i < |run.entered| ==>
                     run.entered[i] < IdOf(run.family.audit).value ||
                     (run.entered[i] == IdOf(run.family.audit).value && run.family.state == Some(Swing) &&
                      Approved(run.family.audit)))
  }

  lemma PassKeepsFresh(run: Run, r: Record, rule: Rule, a: Asking)
    requires Fresh(run)
    ensures Fresh(After(run, Pass(r, a), rule))
  {
    PassKeepsOrAsks(run.family, r, rule, a, run.asked);
    if Before(run.family, r) == Swing && AfterPass(run.family, r, rule, a, run.asked).state != Some(Swing) {
      LeavingLapses(run.family, r, rule, a, run.asked);
    }
    StayingKeeps(run.family, r, rule, a, run.asked);
    hide AfterPass;
  }

  lemma EventKeepsFresh(run: Run, e: Event, rule: Rule)
    requires Fresh(run)
    ensures Fresh(After(run, e, rule)) && run.asked <= After(run, e, rule).asked
  {
    if e.Pass? {
      PassKeepsFresh(run, e.record, rule, e.asking);
    }
    hide AfterPass;
  }

  lemma {:induction false} RunKeepsFresh(run: Run, events: seq<Event>, rule: Rule)
    requires Fresh(run)
    ensures Fresh(Ran(run, events, rule)) && run.asked <= Ran(run, events, rule).asked
  {
    hide Fresh, After;
    if events != [] {
      var front := events[..|events| - 1];
      RunKeepsFresh(run, front, rule);
      EventKeepsFresh(Ran(run, front, rule), events[|events| - 1], rule);
    }
  }

  /** One approval licenses one stay: over every run of passes, verdicts and lost state, whatever state the
      ledger restores, no two entries into the swing rest on the same audit, and each rests on one asked for
      after every entry before it. */
  lemma {:induction false} OneApprovalOneStay(events: seq<Event>, rule: Rule)
    ensures var entered := Ran(NEW, events, rule).entered;
            forall i, j :: 0 <= i < j < |entered| ==> entered[i] < entered[j]
  {
    RunKeepsFresh(NEW, events, rule);
    hide Ran;
  }

  // ------------------------------------------------------------------ a stay that rests on no approval

  /** The stay in the swing, if the family is in it, began with an entry. */
  predicate StayWasEntered(events: seq<Event>, rule: Rule) {
    if events == [] then false
    else
      var front, e := events[..|events| - 1], events[|events| - 1];
      match e
      case Pass(r, a) =>
        var run := Ran(NEW, front, rule);
        Enters(run.family, r, rule, a, run.asked) ||
        (StayWasEntered(front, rule) && AfterPass(run.family, r, rule, a, run.asked).state == Some(Swing))
      case Lose(_) => false
      case _ => StayWasEntered(front, rule)
  }

  /** The state was last lost when the family's last row said "swing", and every pass since has found the
      family proven, released and holding. */
  predicate RestoredAndHeld(events: seq<Event>, rule: Rule) {
    if events == [] then false
    else
      var front, e := events[..|events| - 1], events[|events| - 1];
      match e
      case Lose(readable) => readable && Ran(NEW, front, rule).row == Some(Swing)
      case Pass(r, _) => RestoredAndHeld(front, rule) && r.proven && r.released && r.holds
      case _ => RestoredAndHeld(front, rule)
  }

  /** Every entry is on an approval, but a stay need not be: a family is in the swing on no entry of that stay
      exactly when a lost state was restored from a row that said "swing" and every pass since has held. */
  lemma {:induction false} StaysOnNoApproval(events: seq<Event>, rule: Rule)
    ensures Ran(NEW, events, rule).family.state == Some(Swing) && !StayWasEntered(events, rule) <==>
            RestoredAndHeld(events, rule)
    ensures StayWasEntered(events, rule) ==> Ran(NEW, events, rule).family.state == Some(Swing)
  {
    hide SwingApproval, Request, AuditLook, Lapse, Confirm;
    if events != [] {
      StaysOnNoApproval(events[..|events| - 1], rule);
    }
  }

  // ------------------------------------------------------------------ the look an entry rests on

  lemma CheckpointsRise(n: nat, m: nat, rule: Rule)
    requires n <= m && Checkpoint(n, rule).Some?
    ensures Checkpoint(m, rule).Some? && rule.first <= Checkpoint(n, rule).value <= Checkpoint(m, rule).value
    ensures Checkpoint(m, rule).value <= m && m < NextCheckpoint(m, rule)
  {
    var every := if rule.every < 1 then 1 else rule.every;
    var a, b := (n - rule.first) / every, (m - rule.first) / every;
    DivisionRises(n - rule.first, m - rule.first, every);
    MultiplesRise(every, a, b);
  }

  lemma MultiplesRise(d: nat, a: nat, b: nat)
    requires a <= b
    ensures 0 <= d * a <= d * b
  {
    Multiples(d, 0, a);
    assert d * b == d * a + d * (b - a);
  }

  lemma DivisionRises(x: nat, y: nat, d: nat)
    requires 0 < d && x <= y
    ensures 0 <= x / d <= y / d && d * (y / d) <= y < d * (y / d) + d
  {
    var p, q := x / d, y / d;
    assert x == d * p + x % d && y == d * q + y % d;
    if p > q {
      Multiples(d, q, p - q - 1);
    }
    Multiples(d, 0, p);
  }

  lemma Multiples(d: nat, q: int, k: nat)
    ensures d * (q + 1 + k) == d * q + d + d * k && 0 <= d * k
  {}

  /** An audit asked for at a passing look was asked for that look; one asked ahead was not, and stays
      "prepared" until its look passes and it is entered on. In the swing nothing is asked for. */
  predicate LooksAsked(run: Run, rule: Rule) {
    (run.family.state == Some(Swing) ==> run.family.audit.NoAudit? || run.family.audit.Lapsed? ||
                                         Approved(run.family.audit)) &&
    match run.family.audit
    case Running(_, _, look, ahead) => look.Some? && (!ahead ==> Checkpoint(run.count, rule) == look)
    case Judged(_, status, _, _, look) =>
      look.Some? && (status == Done ==> run.family.state == Some(Swing) || Checkpoint(run.count, rule) == look)
    case _ => true
  }

  lemma PassAsksForLook(run: Run, r: Record, a: Asking, rule: Rule)
    requires LooksAsked(run, rule) && Fresh(run)
    ensures LooksAsked(After(run, Pass(r, a), rule), rule)
  {
    hide Checkpoint, NextCheckpoint;
  }

  lemma {:induction false} RunAsksForLooks(events: seq<Event>, rule: Rule)
    ensures LooksAsked(Ran(NEW, events, rule), rule)
  {
    if events != [] {
      var front, e := events[..|events| - 1], events[|events| - 1];
      RunAsksForLooks(front, rule);
      RunKeepsFresh(NEW, front, rule);
      if e.Pass? {
        PassAsksForLook(Ran(NEW, front, rule), e.record, e.asking, rule);
      } else {
        hide Checkpoint, AfterPass;
      }
    }
  }

  predicate Reached(look: int, n: nat, rule: Rule) {
    Checkpoint(n, rule).Some? && look <= Checkpoint(n, rule).value
  }

  /** The look an entry rests on. In every run an entry's approval was for a look at or below the checkpoint
      that passed exactly when it is still "prepared", or the checkpoint has not fallen below the one its
      audit was asked at. */
  lemma {:induction false} EntryLookIsReached(events: seq<Event>, r: Record, rule: Rule, a: Asking)
    ensures var run := Ran(NEW, events, rule);
            Enters(run.family, r, rule, a, run.asked) ==>
              Approved(run.family.audit) && run.family.audit.look.Some? && Checkpoint(r.n, rule).Some? &&
              (Reached(run.family.audit.look.value, r.n, rule) <==>
               run.family.audit.status == Prepared ||
               (Checkpoint(run.count, rule).Some? && Checkpoint(run.count, rule).value <= Checkpoint(r.n, rule).value))
  {
    var run := Ran(NEW, events, rule);
    RunAsksForLooks(events, rule);
    EntryIsLicensed(run.family, r, rule, a, run.asked);
    hide Ran, AfterPass;
  }

  // ------------------------------------------------------------------ a look that failed

  /** A pass reads an audit's look, or one after it, as failed, whether or not the audit has its verdict. */
  predicate ReadsFailure(audit: Audit, r: Record, rule: Rule) {
    (audit.Running? || audit.Judged?) && audit.look.Some? && Reached(audit.look.value, r.n, rule) && !Ready(r, rule)
  }

  /** Event `k` is a pass that reads the look of the audit now on record as failed. */
  predicate FailedAt(events: seq<Event>, k: nat, rule: Rule) {
    k < |events| && events[k].Pass? && IdOf(Ran(NEW, events, rule).family.audit).Some? &&
    IdOf(Ran(NEW, events[..k], rule).family.audit) == IdOf(Ran(NEW, events, rule).family.audit) &&
    ReadsFailure(Ran(NEW, events[..k], rule).family.audit, events[k].record, rule)
  }

  predicate StillRan(events: seq<Event>, k: nat, rule: Rule) {
    k <= |events| && Ran(NEW, events[..k], rule).family.audit.Running?
  }

  /** An approval whose look a pass reads as failed lapses at that pass, and licenses no entry in it. */
  lemma FailedLookLapses(f: Family, r: Record, rule: Rule, a: Asking, id: nat)
    requires Approved(f.audit) && ReadsFailure(f.audit, r, rule)
    ensures !Approved(AfterPass(f, r, rule, a, id).audit) && !Enters(f, r, rule, a, id)
  {}

  lemma {:induction false} AskedGrows(events: seq<Event>, k: nat, rule: Rule)
    requires k <= |events|
    ensures Ran(NEW, events[..k], rule).asked <= Ran(NEW, events, rule).asked
    ensures Fresh(Ran(NEW, events[..k], rule))
  {
    RunKeepsFresh(NEW, events[..k], rule);
    if k == |events| {
      assert events[..k] == events;
    } else {
      var front := events[..|events| - 1];
      AskedGrows(front, k, rule);
      assert front[..k] == events[..k];
      RunKeepsFresh(NEW, front, rule);
      EventKeepsFresh(Ran(NEW, front, rule), events[|events| - 1], rule);
    }
  }

  /** An audit asked for by the last pass is on record at no event before. */
  lemma NewIdIsNew(events: seq<Event>, k: nat, rule: Rule)
    requires k <= |events|
    ensures IdOf(Ran(NEW, events[..k], rule).family.audit) != Some(Ran(NEW, events, rule).asked)
  {
    AskedGrows(events, k, rule);
  }

  /** An event leaves the audit on record, asks for a new one, or ends it; an approval that stays on record
      was there before it, or came with its verdict. */
  lemma EventKeepsAudit(run: Run, e: Event, rule: Rule)
    requires Fresh(run)
    ensures var before, after := run.family.audit, After(run, e, rule).family.audit;
            (IdOf(after).Some? ==> IdOf(after) == IdOf(before) || (e.Pass? && IdOf(after) == Some(run.asked))) &&
            (IdOf(after).Some? && IdOf(after) == IdOf(before) && after.Running? ==> before.Running?) &&
            (IdOf(after).Some? && IdOf(after) == IdOf(before) && Approved(after) ==>
               before.Running? || Approved(before)) &&
            (e.Pass? && Approved(before) && ReadsFailure(before, e.record, rule) ==> !Approved(after))
  {
    hide Checkpoint, NextCheckpoint;
    if e.Pass? && Approved(run.family.audit) && ReadsFailure(run.family.audit, e.record, rule) {
      FailedLookLapses(run.family, e.record, rule, e.asking, run.asked);
    }
  }

  /** No failure outlives a verdict. In every run, of an audit that is running or approved, every pass that
      read its look as failed came before its verdict. */
  lemma {:induction false} FailuresPrecedeTheVerdict(events: seq<Event>, rule: Rule)
    requires Ran(NEW, events, rule).family.audit.Running? || Approved(Ran(NEW, events, rule).family.audit)
    ensures forall k: nat :: FailedAt(events, k, rule) ==> StillRan(events, k, rule)
  {
    if events != [] {
      var front, e := events[..|events| - 1], events[|events| - 1];
      var run := Ran(NEW, front, rule);
      RunKeepsFresh(NEW, front, rule);
      EventKeepsAudit(run, e, rule);
      hide After, ReadsFailure, Approved, Fresh;
      forall k: nat | FailedAt(events, k, rule) ensures StillRan(events, k, rule) {
        assert front[..k] == events[..k];
        NewIdIsNew(front, k, rule);
        if k < |front| {
          FailuresPrecedeTheVerdict(front, rule);
          assert FailedAt(front, k, rule);
        } else {
          assert front[..k] == front;
        }
      }
    }
  }

  /** What leaves an approval standing: a pass that reads no failure of its look, no change after it once it
      is asked of, and does not leave the swing; anything else but a lost state. */
  predicate Keeps(run: Run, e: Event, rule: Rule) {
    Approved(run.family.audit) &&
    match e
    case Pass(r, a) =>
      !ReadsFailure(run.family.audit, r, rule) &&
      !((run.family.audit.status == Done || LookCame(run.family.audit, r, rule)) && Changed(run.family.audit, r)) &&
      !(run.family.state == Some(Swing) && AfterPass(run.family, r, rule, a, run.asked).state != Some(Swing))
    case Lose(_) => false
    case _ => true
  }

  predicate StandsThrough(run: Run, events: seq<Event>, rule: Rule) {
    events != [] ==>
      StandsThrough(run, events[..|events| - 1], rule) &&
      Keeps(Ran(run, events[..|events| - 1], rule), events[|events| - 1], rule)
  }

  lemma EventKeepsApproval(run: Run, e: Event, rule: Rule)
    requires Approved(run.family.audit)
    ensures var after := After(run, e, rule).family.audit;
            (Approved(after) && IdOf(after) == IdOf(run.family.audit) <==> Keeps(run, e, rule)) &&
            (Keeps(run, e, rule) ==> after.look == run.family.audit.look && after.started == run.family.audit.started)
  {
    hide Checkpoint, NextCheckpoint;
  }

  /** An approval stands exactly through the events that keep it, and once ended its audit is never on record
      again. */
  lemma {:induction false} ApprovalStands(run: Run, events: seq<Event>, rule: Rule)
    requires Fresh(run) && Approved(run.family.audit)
    ensures var after := Ran(run, events, rule);
            Fresh(after) && run.asked <= after.asked &&
            (StandsThrough(run, events, rule) <==> IdOf(after.family.audit) == IdOf(run.family.audit)) &&
            (StandsThrough(run, events, rule) ==>
               Approved(after.family.audit) && after.family.audit.look == run.family.audit.look &&
               after.family.audit.started == run.family.audit.started)
  {
    if events != [] {
      var front, e := events[..|events| - 1], events[|events| - 1];
      ApprovalStands(run, front, rule);
      var before := Ran(run, front, rule);
      EventKeepsFresh(before, e, rule);
      EventKeepsAudit(before, e, rule);
      if Approved(before.family.audit) {
        EventKeepsApproval(before, e, rule);
        EndedStaysEnded(before, e, rule);
      }
      hide After, Keeps, Fresh;
    }
  }

  /** An approval ended leaves no trace of its audit. */
  lemma EndedStaysEnded(run: Run, e: Event, rule: Rule)
    requires Approved(run.family.audit) && Fresh(run)
    ensures var after := After(run, e, rule).family.audit;
            IdOf(after) == IdOf(run.family.audit) ==> Approved(after)
  {
    hide Checkpoint, NextCheckpoint;
  }

  /** Exactly when a failed look is carried over. Whatever passes read before its verdict, an audit approved
      now licenses an entry at a later pass that meets every other condition just when nothing since the
      verdict ended the approval: no pass since has read its look as failed. */
  lemma {:induction false} CarriedOverExactly(events: seq<Event>, later: seq<Event>, r: Record, rule: Rule, a: Asking)
    requires Ran(NEW, events, rule).family.audit.Running?
    requires var run := Ran(NEW, events, rule);
             var end := Ran(After(run, Verdict(true), rule), later, rule);
             Before(end.family, r) != Swing && r.proven && r.released && Ready(r, rule) &&
             run.family.audit.look.Some? && Reached(run.family.audit.look.value, r.n, rule) &&
             forall i :: 0 <= i < |r.members| ==>
                           r.members[i].program <= run.family.audit.started &&
                           r.members[i].born <= run.family.audit.started
    ensures var run := Ran(NEW, events, rule);
            var judged := After(run, Verdict(true), rule);
            var end := Ran(judged, later, rule);
            Enters(end.family, r, rule, a, end.asked) && IdOf(end.family.audit) == IdOf(run.family.audit) <==>
            StandsThrough(judged, later, rule)
  {
    var run := Ran(NEW, events, rule);
    var judged := After(run, Verdict(true), rule);
    RunKeepsFresh(NEW, events, rule);
    EventKeepsFresh(run, Verdict(true), rule);
    ApprovalStands(judged, later, rule);
    var end := Ran(judged, later, rule);
    EntryIsLicensed(end.family, r, rule, a, end.asked);
    hide Ran, Fresh, StandsThrough, Enters;
  }

  // ------------------------------------------------------------------ what the checks let through

  const TABLE := Rule(10, 5, 8, 0)
  const WILLING := Asking(true, false, None, true, true, 1, true)

  function At(n: nat, passes: bool): Record {
    Record(n, passes, true, true, true, 0, [])
  }

  lemma OneMore(run: Run, events: seq<Event>, e: Event, rule: Rule)
    ensures Ran(run, events + [e], rule) == After(Ran(run, events, rule), e, rule)
  {
    assert (events + [e])[..|events|] == events;
  }

  const ASKED_AT_FIFTEEN := [Pass(At(15, true), WILLING)] + [Verdict(true)]

  /** A record that shrinks (a correction moves its evidence forward) can enter at the look at 10 on an
      approval that was asked for at 15: only an approval still "prepared" waits for its own look. */
  lemma ShrunkRecordEntersEarly()
    ensures var run := Ran(NEW, ASKED_AT_FIFTEEN, TABLE);
            run.family.audit.Judged? && run.family.audit.look == Some(15) && run.count == 15 &&
            Checkpoint(10, TABLE) == Some(10) && Enters(run.family, At(10, true), TABLE, WILLING, run.asked)
  {
    OneMore(NEW, [], Pass(At(15, true), WILLING), TABLE);
    OneMore(NEW, [Pass(At(15, true), WILLING)], Verdict(true), TABLE);
    assert [] + [Pass(At(15, true), WILLING)] == [Pass(At(15, true), WILLING)];
    assert Ran(NEW, [Pass(At(15, true), WILLING)], TABLE).family ==
           Family(Some(Proven), Running(0, 1, Some(15), false));
    var run := Ran(NEW, ASKED_AT_FIFTEEN, TABLE);
    EntryIsLicensed(run.family, At(10, true), TABLE, WILLING, run.asked);
  }

  const AHEAD := Pass(At(8, false), WILLING)
  const FAILING := Pass(At(10, false), WILLING.(alive := true))
  const FAILED_MEANWHILE := [AHEAD] + [FAILING] + [Verdict(true)]

  /** A look that fails while its audit still runs lapses nothing: the verdict comes "prepared", and where
      no pass reads the failed look again the approval for the look at 10 licenses the look at 15. */
  lemma CarriedOverAFailedLook()
    ensures var run := Ran(NEW, FAILED_MEANWHILE, TABLE);
            FailedAt(FAILED_MEANWHILE, 1, TABLE) && run.family.audit.Judged? && run.family.audit.look == Some(10) &&
            run.family.audit.status == Prepared && Enters(run.family, At(15, true), TABLE, WILLING, run.asked)
  {
    OneMore(NEW, [], AHEAD, TABLE);
    OneMore(NEW, [AHEAD], FAILING, TABLE);
    OneMore(NEW, [AHEAD] + [FAILING], Verdict(true), TABLE);
    assert [] + [AHEAD] == [AHEAD] && FAILED_MEANWHILE[..1] == [AHEAD];
    var first, second := Ran(NEW, [AHEAD], TABLE), Ran(NEW, [AHEAD] + [FAILING], TABLE);
    assert first.family == Family(Some(Proven), Running(0, 1, Some(10), true));
    assert second.family == first.family;
    var run := Ran(NEW, FAILED_MEANWHILE, TABLE);
    EntryIsLicensed(run.family, At(15, true), TABLE, WILLING, run.asked);
  }

  const ASK := Pass(At(10, true), WILLING)
  const LEAVING := Pass(At(10, true).(holds := false), WILLING)
  const APPROVED := [ASK] + [Verdict(true)]
  const ENTERING := APPROVED + [ASK] + [Persist]
  const LEFT := ENTERING + [LEAVING]
  const RESTORED := LEFT + [Lose(true)] + [ASK]

  lemma ApprovedAtTen()
    ensures Ran(NEW, APPROVED, TABLE).family == Family(Some(Proven), Judged(0, Done, true, 1, Some(10)))
  {
    OneMore(NEW, [], ASK, TABLE);
    OneMore(NEW, [ASK], Verdict(true), TABLE);
    assert [] + [ASK] == [ASK];
    assert Ran(NEW, [ASK], TABLE).family == Family(Some(Proven), Running(0, 1, Some(10), false));
  }

  lemma EnteredAtTen()
    ensures Ran(NEW, ENTERING, TABLE).family == Family(Some(Swing), Judged(0, Done, true, 1, Some(10)))
    ensures Ran(NEW, ENTERING, TABLE).row == Some(Swing)
  {
    ApprovedAtTen();
    OneMore(NEW, APPROVED, ASK, TABLE);
    OneMore(NEW, APPROVED + [ASK], Persist, TABLE);
    hide Ran;
  }

  lemma LeftAtTen()
    ensures Ran(NEW, LEFT, TABLE).family.state == Some(Proven) && Ran(NEW, LEFT, TABLE).row == Some(Swing)
  {
    EnteredAtTen();
    OneMore(NEW, ENTERING, LEAVING, TABLE);
    hide Ran;
  }

  /** A family enters the swing and its row is written; it leaves at a pass that writes none, its approval
      lapsed; the state is lost, and the row restored says "swing": it swings on, on no audit at all. */
  lemma RestoredStayHasNoApproval()
    ensures Ran(NEW, ENTERING, TABLE).family.state == Some(Swing) && Ran(NEW, LEFT, TABLE).family.state == Some(Proven)
    ensures Ran(NEW, RESTORED, TABLE).family == Family(Some(Swing), NoAudit)
  {
    EnteredAtTen();
    LeftAtTen();
    OneMore(NEW, LEFT, Lose(true), TABLE);
    OneMore(NEW, LEFT + [Lose(true)], ASK, TABLE);
    hide Ran;
  }
}
