/** The family swing's entry and its audit (league/allocator.py `_decorate`, `_swing_approval`,
    `_audit_look`, `_request_family_audit`; league/families.py `next_state`, `entry_checkpoint`): one
    family's state and its audit, pass by pass. Ledger positions and settlement counts are integers; what a
    bound or a drawdown says of a record is read as given. */
module Swings {
  import opened Wrappers

  datatype State = Unproven | Proven | Swing

  datatype Kept = Done | Prepared

  /** `id` numbers the audits asked for, so that two approvals can be told apart. */
  datatype Audit =
    | NoAudit
    | Running(id: nat, started: int, look: Option<int>, ahead: bool)
    | Judged(id: nat, status: Kept, approve: bool, started: int, look: Option<int>)
    | Lapsed

  datatype Rule = Rule(first: nat, every: nat, pre: nat, minDates: nat)

  datatype Member = Member(program: int, born: int)

  /** What a pass reads of a family: `n` independent real settlements; whether the look at the checkpoint
      `n` has reached passes; whether the real record holds; whether the grant releases stakes above a
      bunt; `dates` the events up to the next look span; and the members as the tape has them. */
  datatype Record = Record(n: nat, passes: bool, holds: bool, proven: bool, released: bool, dates: nat,
                           members: seq<Member>)

  /** What asking for an audit meets: an auditor, the job of a running audit still alive or its verdict on
      the ledger, the cooldown over, a member to audit, the ledger's head, and a thread that starts. */
  datatype Asking = Asking(auditor: bool, alive: bool, found: Option<bool>, cooled: bool, member: bool, head: int,
                           starts: bool)

  datatype Family = Family(state: Option<State>, audit: Audit)

  /** The real count the entry is judged at: `first`, then every `every` more that `n` has reached. */
  function Checkpoint(n: nat, rule: Rule): Option<int> {
    var every := if rule.every < 1 then 1 else rule.every;
    if n < rule.first then None else Some(rule.first + every * ((n - rule.first) / every))
  }

  function NextCheckpoint(n: nat, rule: Rule): int {
    match Checkpoint(n, rule)
    case None => rule.first
    case Some(at) => at + if rule.every < 1 then 1 else rule.every
  }

  predicate Ready(r: Record, rule: Rule) {
    Checkpoint(r.n, rule).Some? && r.passes
  }

  function NextState(previous: State, proven: bool, entry: bool, hold: bool, approved: bool): State {
    if !proven then Unproven
    else if previous == Swing then (if hold then Swing else Proven)
    else if entry && approved then Swing
    else Proven
  }

  function Before(f: Family, r: Record): State {
    match f.state
    case Some(s) => s
    case None => if r.proven then Proven else Unproven
  }

  predicate Approved(audit: Audit) {
    audit.Judged? && audit.approve
  }

  /** A look at or after the one it was asked for did not pass. */
  predicate LookFailed(audit: Audit, r: Record, rule: Rule)
    requires audit.Judged?
  {
    audit.look.Some? && Checkpoint(r.n, rule).Some? && Checkpoint(r.n, rule).value >= audit.look.value &&
    !Ready(r, rule)
  }

  predicate LookCame(audit: Audit, r: Record, rule: Rule)
    requires audit.Judged?
  {
    audit.look.Some? && Checkpoint(r.n, rule).Some? && Checkpoint(r.n, rule).value >= audit.look.value
  }

  predicate Changed(audit: Audit, r: Record)
    requires audit.Judged?
  {
    exists i :: 0 <= i < |r.members| && (r.members[i].program > audit.started || r.members[i].born > audit.started)
  }

  datatype License = License(approved: bool, lapses: bool)

  /** Whether an approved audit licenses the entry now, and whether an approval on record no longer does. */
  function SwingApproval(audit: Audit, r: Record, rule: Rule): License {
    if !Approved(audit) then License(false, false)
    else if LookFailed(audit, r, rule) then License(false, true)
    else if audit.status == Prepared && !LookCame(audit, r, rule) then License(false, false)
    else if Changed(audit, r) then License(false, true)
    else License(true, false)
  }

  function Lapse(audit: Audit): Audit {
    if Approved(audit) then Lapsed else audit
  }

  function Confirm(audit: Audit): Audit {
    if Approved(audit) && audit.status == Prepared then audit.(status := Done) else audit
  }

  /** The entry look an audit is asked for now: one that passed, or the next one ahead of it. */
  function AuditLook(r: Record, rule: Rule, entry: bool): Option<int> {
    if entry then Checkpoint(r.n, rule)
    else
      var upcoming := NextCheckpoint(r.n, rule);
      var lead := if rule.first > rule.pre then rule.first - rule.pre else 0;
      if rule.pre == 0 || r.n < upcoming - lead || r.n >= upcoming || r.dates + (upcoming - r.n) < rule.minDates
      then None
      else Some(upcoming)
  }

  /** A veto given ahead of a look is asked again at once where that look, or a later one, has passed. */
  predicate AskedAgain(audit: Audit, look: int, ahead: bool)
    requires audit.Judged?
  {
    audit.status == Prepared && !ahead && audit.look.Some? && look >= audit.look.value
  }

  function Verdict(audit: Audit, approve: bool): Audit
    requires audit.Running?
  {
    Judged(audit.id, if audit.ahead then Prepared else Done, approve, audit.started, audit.look)
  }

  function Request(audit: Audit, look: int, ahead: bool, a: Asking, id: nat): Audit {
    var asked := if a.member && a.starts then Running(id, a.head, Some(look), ahead) else audit;
    if !a.auditor then audit
    else
      match audit
      case Running(_, _, _, _) =>
        if a.alive then audit
        else if a.found.Some? then Verdict(audit, a.found.value)
        else asked
      case Judged(_, _, approve, _, _) =>
        if approve || (!AskedAgain(audit, look, ahead) && !a.cooled) then audit else asked
      case _ => asked
  }

  function AfterPass(f: Family, r: Record, rule: Rule, a: Asking, id: nat): Family {
    var entry, hold := r.released && Ready(r, rule), r.released && r.holds;
    var before, license := Before(f, r), SwingApproval(f.audit, r, rule);
    var state := NextState(before, r.proven, entry, hold, license.approved);
    var audit :=
      if before == Swing && state != Swing then Lapse(f.audit)
      else if license.lapses then Lapse(f.audit)
      else if state == Swing && before != Swing then Confirm(f.audit)
      else f.audit;
    var look := if r.proven && r.released && state != Swing then AuditLook(r, rule, entry) else None;
    Family(Some(state), match look case Some(at) => Request(audit, at, !entry, a, id) case None => audit)
  }

  function AfterVerdict(f: Family, approve: bool): Family {
    if f.audit.Running? then f.(audit := Verdict(f.audit, approve)) else f
  }

  // ------------------------------------------------------------------ the allocator's own dicts

  class Desk {
    const rule: Rule
    var families: map<Name, State>
    var audits: map<Name, Audit>

    function Of(key: Name): Family
      reads this
    {
      Family(if key in families then Some(families[key]) else None, if key in audits then audits[key] else NoAudit)
    }

    constructor (rule: Rule)
      ensures this.rule == rule && forall key :: Of(key) == Family(None, NoAudit)
    {
      this.rule, families, audits := rule, map[], map[];
    }

    method LapseApproval(key: Name)
      modifies this`audits
      ensures Of(key).audit == Lapse(old(Of(key)).audit)
      ensures forall k :: k != key ==> Of(k) == old(Of(k))
    {
      var was := Of(key).audit;
      if !was.Judged? || !was.approve {
        return;
      }
      audits := audits[key := Lapsed];
    }

    method ConfirmPrepared(key: Name)
      modifies this`audits
      ensures Of(key).audit == Confirm(old(Of(key)).audit)
      ensures forall k :: k != key ==> Of(k) == old(Of(k))
    {
      var was := Of(key).audit;
      if was.Judged? && was.status == Prepared && was.approve {
        audits := audits[key := was.(status := Done)];
      }
    }

    method RequestAudit(key: Name, look: int, ahead: bool, a: Asking, id: nat)
      modifies this`audits
      ensures Of(key).audit == Request(old(Of(key)).audit, look, ahead, a, id)
      ensures forall k :: k != key ==> Of(k) == old(Of(k))
    {
      var audit := Of(key).audit;
      if !a.auditor {
        return;
      }
      if audit.Running? {
        if a.alive {
          return;
        }
        if a.found.Some? {
          audits := audits[key := Verdict(audit, a.found.value)];
          return;
        }
      } else if audit.Judged? {
        if audit.approve {
          return;
        }
        if !AskedAgain(audit, look, ahead) && !a.cooled {
          return;
        }
      }
      if !a.member {
        return;
      }
      if a.starts {
        audits := audits[key := Running(id, a.head, Some(look), ahead)];
      }
    }

    /** One pass over one family: its state moves, its approval may lapse or be confirmed, and its audit may
        be asked for. */
    method Decorate(key: Name, r: Record, a: Asking, id: nat) returns (state: State)
      modifies this`families, this`audits
      ensures Of(key) == AfterPass(old(Of(key)), r, rule, a, id) && Of(key).state == Some(state)
      ensures forall k :: k != key ==> Of(k) == old(Of(k))
    {
      hide Checkpoint, LookFailed, LookCame, Changed;
      var entry, hold := r.released && Ready(r, rule), r.released && r.holds;
      var before := Before(Of(key), r);
      var license := SwingApproval(Of(key).audit, r, rule);
      state := NextState(before, r.proven, entry, hold, license.approved);
      families := families[key := state];
      if before == Swing && state != Swing {
        LapseApproval(key);
      } else if license.lapses {
        LapseApproval(key);
      } else if state == Swing && before != Swing {
        ConfirmPrepared(key);
      }
      if r.proven && r.released && state != Swing {
        var look := AuditLook(r, rule, entry);
        if look.Some? {
          RequestAudit(key, look.value, !entry, a, id);
        }
      }
    }

    method RunAudit(key: Name, approve: bool)
      modifies this`audits
      ensures Of(key) == AfterVerdict(old(Of(key)), approve)
      ensures forall k :: k != key ==> Of(k) == old(Of(k))
    {
      var audit := Of(key).audit;
      if audit.Running? {
        audits := audits[key := Verdict(audit, approve)];
      }
    }
  }
}
