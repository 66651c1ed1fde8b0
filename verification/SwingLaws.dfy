/** When a pass asks for a swing's audit, takes its verdict, ends or confirms its approval (league/allocator.py
    `_decorate`, `_audit_look`, `_request_family_audit`), each exactly, for any family and any record. */
module SwingLaws {
  import opened Wrappers
  import opened Swings
  import opened SwingRuns

  // ------------------------------------------------------------------ looks

  function Step(rule: Rule): nat {
    if rule.every == 0 then 1 else rule.every
  }

  /** The count of each look: the first, and every so many settlements after it. */
  function LookAt(rule: Rule, k: nat): nat {
    rule.first + Step(rule) * k
  }

  lemma LooksRise(rule: Rule, j: nat, k: nat)
    requires j < k
    ensures LookAt(rule, j) + Step(rule) <= LookAt(rule, k)
  {
    var d := Step(rule);
    assert d * k == d * j + d * (k - j);
    assert d * (k - j) == d + d * (k - j - 1);
    Products(d, k - j - 1);
  }

  lemma Products(a: nat, b: nat)
    ensures a * b >= 0
  {}

  /** The checkpoint of a count is the last look it has reached, and the next the first it has not. */
  lemma CheckpointIsTheLast(n: nat, rule: Rule)
    ensures Checkpoint(n, rule).None? <==> n < rule.first
    ensures Checkpoint(n, rule).Some? ==>
              exists k: nat :: Checkpoint(n, rule).value == LookAt(rule, k) <= n < LookAt(rule, k + 1) ==
                               NextCheckpoint(n, rule)
    ensures Checkpoint(n, rule).None? ==> NextCheckpoint(n, rule) == LookAt(rule, 0)
    ensures n < NextCheckpoint(n, rule)
  {
    if n >= rule.first {
      var step := Step(rule);
      var k := (n - rule.first) / step;
      assert n - rule.first == step * k + (n - rule.first) % step;
      assert step * (k + 1) == step * k + step;
      assert LookAt(rule, k) <= n < LookAt(rule, k + 1);
    }
  }

  /** No look comes between. */
  lemma NoLookBetween(n: nat, rule: Rule, j: nat)
    ensures LookAt(rule, j) <= n ==> Checkpoint(n, rule).Some? && LookAt(rule, j) <= Checkpoint(n, rule).value
    ensures LookAt(rule, j) > n ==> LookAt(rule, j) >= NextCheckpoint(n, rule)
  {
    CheckpointIsTheLast(n, rule);
    hide Checkpoint, NextCheckpoint;
    if Checkpoint(n, rule).Some? {
      var k: nat :| Checkpoint(n, rule).value == LookAt(rule, k) <= n < LookAt(rule, k + 1) == NextCheckpoint(n, rule);
      if j < k {
        LooksRise(rule, j, k);
      } else if k + 1 < j {
        LooksRise(rule, k + 1, j);
      }
    } else if j > 0 {
      LooksRise(rule, 0, j);
    } else {
      Products(Step(rule), j);
    }
  }

  /** The family's look passes now. */
  predicate Passing(r: Record, rule: Rule) {
    r.passes && rule.first <= r.n
  }

  /** The look an audit may be asked for ahead of it: the next, once as many settlements are in as the lead
      allows and the events to come can fill its dates. */
  predicate Nears(r: Record, rule: Rule, look: int) {
    look == NextCheckpoint(r.n, rule) && rule.pre > 0 &&
    r.n + (if rule.first > rule.pre then rule.first - rule.pre else 0) >= look &&
    r.dates + (look - r.n) >= rule.minDates
  }

  lemma LookIs(r: Record, rule: Rule, look: int)
    ensures AuditLook(r, rule, true) == Some(look) <==> Checkpoint(r.n, rule) == Some(look)
    ensures AuditLook(r, rule, false) == Some(look) <==> Nears(r, rule, look)
  {
    CheckpointIsTheLast(r.n, rule);
    hide Checkpoint;
  }

  /** A pass looks for an audit of a look: the one that passes, or the one it nears. */
  predicate Looks(r: Record, rule: Rule, look: int, ahead: bool) {
    if Passing(r, rule) then !ahead && Checkpoint(r.n, rule) == Some(look) else ahead && Nears(r, rule, look)
  }

  // ------------------------------------------------------------------ what a pass does to an approval

  /** An approval that this pass ends: the family leaves the swing, its look failed, or, once it is asked of, a
      member changed after it. */
  predicate Ends(f: Family, r: Record, rule: Rule) {
    Approved(f.audit) &&
    ((f.state == Some(State.Swing) && !(r.proven && r.released && r.holds)) ||
     ReadsFailure(f.audit, r, rule) ||
     ((f.audit.status == Done || (f.audit.look.Some? && Reached(f.audit.look.value, r.n, rule))) &&
      exists i :: 0 <= i < |r.members| &&
                  (r.members[i].program > f.audit.started || r.members[i].born > f.audit.started)))
  }

  /** What stands once the pass has judged it, before anything is asked for. */
  function Standing(f: Family, r: Record, rule: Rule): Audit {
    if Ends(f, r, rule) then Lapsed
    else if f.audit.Judged? && f.state != Some(State.Swing) && Licensed(f, r, rule) then f.audit.(status := Done)
    else f.audit
  }

  /** The family swings after the pass: it entered, or it was there and holds. */
  predicate StaysOrEnters(f: Family, r: Record, rule: Rule) {
    r.proven && r.released && if f.state == Some(State.Swing) then r.holds else Licensed(f, r, rule)
  }

  /** An audit may be asked for again: nothing stands, one running has died without a verdict, or a veto has
      waited out, or was given ahead of a look that now, or a later one, passes. */
  predicate MayAsk(audit: Audit, look: int, ahead: bool, a: Asking) {
    match audit
    case Running(_, _, _, _) => !a.alive && a.found.None?
    case Judged(_, status, approve, _, given) =>
      !approve && (a.cooled || (status == Prepared && !ahead && given.Some? && given.value <= look))
    case _ => true
  }

  /** A pass leaves the audit that stands, unless the family is proven, released, out of the swing, an auditor is
      there and there is a look: then it asks for a new audit of that look where it may, a member is there and
      the job starts, and takes the verdict of one that died with it. */
  lemma PassMovesAudit(f: Family, r: Record, rule: Rule, a: Asking, id: nat, look: int, ahead: bool)
    ensures var after, standing := AfterPass(f, r, rule, a, id), Standing(f, r, rule);
            (after.state == Some(State.Swing) <==> StaysOrEnters(f, r, rule)) &&
            (Looks(r, rule, look, ahead) && a.auditor && r.proven && r.released && !StaysOrEnters(f, r, rule) ==>
               after.audit ==
               if MayAsk(standing, look, ahead, a) && a.member && a.starts then Running(id, a.head, Some(look), ahead)
               else if standing.Running? && !a.alive && a.found.Some? then
                 Judged(standing.id, if standing.ahead then Prepared else Done, a.found.value, standing.started,
                        standing.look)
               else standing)
    ensures (!a.auditor || !r.proven || !r.released || StaysOrEnters(f, r, rule) ||
             forall at, early :: !Looks(r, rule, at, early)) ==>
              AfterPass(f, r, rule, a, id).audit == Standing(f, r, rule)
  {
    StandingIs(f, r, rule, a, id);
    LookIs(r, rule, look);
    CheckpointIsTheLast(r.n, rule);
    var entry := r.released && Ready(r, rule);
    if AuditLook(r, rule, entry).Some? && r.released {
      LookIs(r, rule, AuditLook(r, rule, entry).value);
      assert Looks(r, rule, AuditLook(r, rule, entry).value, !entry);
    }
    hide Checkpoint, AuditLook, NextCheckpoint, Nears, LookFailed, LookCame, Changed, SwingApproval, Standing, Licensed;
  }

  /** What the pass has made of the audit before it asks. */
  function Judgement(f: Family, r: Record, rule: Rule): Audit {
    var license := SwingApproval(f.audit, r, rule);
    var state := NextState(Before(f, r), r.proven, r.released && Ready(r, rule),
                           r.released && r.holds, license.approved);
    if Before(f, r) == State.Swing && state != State.Swing then Lapse(f.audit)
    else if license.lapses then Lapse(f.audit)
    else if state == State.Swing && Before(f, r) != State.Swing then Confirm(f.audit)
    else f.audit
  }

  lemma StandingIs(f: Family, r: Record, rule: Rule, a: Asking, id: nat)
    ensures Judgement(f, r, rule) == Standing(f, r, rule)
    ensures AfterPass(f, r, rule, a, id).state == Some(State.Swing) <==> StaysOrEnters(f, r, rule)
    ensures var entry := r.released && Ready(r, rule);
            var look := if r.proven && r.released && !StaysOrEnters(f, r, rule) then AuditLook(r, rule, entry)
                        else None;
            AfterPass(f, r, rule, a, id).audit ==
            match look
            case Some(at) => Request(Judgement(f, r, rule), at, !entry, a, id)
            case None => Judgement(f, r, rule)
  {
    hide Checkpoint, AuditLook, Request;
  }
}
