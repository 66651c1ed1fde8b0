/** The probe gate (league/allocator.py `fold_demotions`, `_fold_demotions`, `_prune_holds`, `probe_hold`,
    `probe_gate`): every probe demoted from real money holds its family until the family's record of
    blocks begun since that demotion turns. */
module ProbeHolds {
  import opened Wrappers

  datatype FamilyState = Unproven | Proven | Swing

  datatype Home = Home(family: Name, venue: Name)

  datatype Band = Probe | Other

  /** `family.record` rows (a state that is none of the three is None) and `eval.verdict` rows. */
  datatype Row =
    | Record(home: Home, state: Option<FamilyState>)
    | Verdict(agent: Name, demote: bool, unfunded: bool, fromRung: int, toRung: int, band: Option<Band>, why: Name)

  datatype Entry = Entry(seqNo: int, at: int, row: Row)

  datatype Demotion = Demotion(seqNo: int, at: int, agent: Name, why: Name)

  /** What a fold reads of the agents: the family each carries now, None for an agent unknown or without one,
      and the family its rows so far say it was in at a ledger position. A rewrite can change both. */
  datatype Registry = Registry(familyOf: Name -> Option<Home>, familyAt: (Name, int) -> Option<Name>)

  type Holds = map<Name, seq<Demotion>>

  type States = map<Home, FamilyState>

  /** What `allocator.json` keeps: the holds, the states folded beside them, how many rows were read, and
      whether under the bound rule. */
  datatype Kept = Kept(holds: Holds, states: States, cursor: nat, bound: bool)

  const NEW := Kept(map[], map[], 0, false)

  /** One active block of a family's pooled record, by where its first mark stands in the ledger, and the hour
      or the day it is of. */
  datatype Block = Block(began: int, growth: real, period: Name)

  const LEAST := 0.000000001
  const LEAST_BOUND := 0.000000000001

  // ------------------------------------------------------------------ the demotions

  function AfterRecord(states: States, row: Row): States {
    if row.Record? && row.state.Some? then states[row.home := row.state.value] else states
  }

  /** The family a row holds, if it is a funded probe's demotion from real money. */
  function HoldOf(e: Entry, states: States, reg: Registry): Option<Name> {
    match e.row
    case Record(_, _) => None
    case Verdict(agent, demote, unfunded, fromRung, toRung, band, _) =>
      if !demote || unfunded || fromRung != 2 || toRung > 1 then None
      else
        match reg.familyOf(agent)
        case None => None
        case Some(home) =>
          var family := match reg.familyAt(agent, e.seqNo) case Some(family) => family case None => home.family;
          var probe := match band
            case Some(b) => b == Probe
            case None => Home(family, home.venue) in states && states[Home(family, home.venue)] == Unproven;
          if probe then Some(family) else None
  }

  /** A row that holds no family, whatever a fold reads of the agents. */
  predicate NeverHolds(e: Entry) {
    match e.row
    case Record(_, _) => true
    case Verdict(_, demote, unfunded, fromRung, toRung, band, _) =>
      !demote || unfunded || fromRung != 2 || toRung > 1 || band == Some(Other)
  }

  function DemotionOf(e: Entry): Demotion {
    match e.row
    case Verdict(agent, _, _, _, _, _, why) => Demotion(e.seqNo, e.at, agent, why)
    case Record(home, _) => Demotion(e.seqNo, e.at, home.family, home.family)
  }

  predicate HasSeq(kept: seq<Demotion>, seqNo: int) {
    exists i :: 0 <= i < |kept| && kept[i].seqNo == seqNo
  }

  /** Where `sorted` leaves a row added at the end of a sorted list. */
  function Placed(kept: seq<Demotion>, d: Demotion): seq<Demotion> {
    if kept == [] then [d]
    else if kept[|kept| - 1].seqNo <= d.seqNo then kept + [d]
    else Placed(kept[..|kept| - 1], d) + [kept[|kept| - 1]]
  }

  function HeldOn(holds: Holds, family: Name): seq<Demotion> {
    if family in holds then holds[family] else []
  }

  function Inserted(kept: seq<Demotion>, d: Demotion): seq<Demotion> {
    if HasSeq(kept, d.seqNo) then kept else Placed(kept, d)
  }

  function FoldRow(k: Kept, e: Entry, reg: Registry): Kept {
    var holds :=
      match HoldOf(e, k.states, reg)
      case Some(family) => k.holds[family := Inserted(HeldOn(k.holds, family), DemotionOf(e))]
      case None => k.holds;
    Kept(holds, AfterRecord(k.states, e.row), k.cursor + 1, k.bound)
  }

  function FoldRows(k: Kept, rows: seq<Entry>, reg: Registry): Kept {
    if rows == [] then k else FoldRow(FoldRows(k, rows[..|rows| - 1], reg), rows[|rows| - 1], reg)
  }

  // ------------------------------------------------------------------ a record that turned

  function Since(record: seq<Block>, seqNo: int): seq<Block> {
    if record == [] then []
    else Since(record[..|record| - 1], seqNo) +
         if record[|record| - 1].began > seqNo then [record[|record| - 1]] else []
  }

  function Growth(blocks: seq<Block>): real {
    if blocks == [] then 0.0 else Growth(blocks[..|blocks| - 1]) + blocks[|blocks| - 1].growth
  }

  predicate Gaining(blocks: int, growth: real, minimum: int) {
    blocks >= minimum && growth >= LEAST
  }

  predicate Losing(blocks: int, growth: real, minimum: int) {
    blocks >= minimum && growth <= -LEAST
  }

  /** The periods of the blocks, each once, as they first come. */
  function Periods(blocks: seq<Block>): seq<Name> {
    if blocks == [] then []
    else
      var before, period := Periods(blocks[..|blocks| - 1]), blocks[|blocks| - 1].period;
      if period in before then before else before + [period]
  }

  function Of(blocks: seq<Block>, period: Name): seq<Block> {
    if blocks == [] then []
    else Of(blocks[..|blocks| - 1], period) +
         if blocks[|blocks| - 1].period == period then [blocks[|blocks| - 1]] else []
  }

  function Mean(blocks: seq<Block>): real {
    if blocks == [] then 0.0 else Growth(blocks) / |blocks| as real
  }

  /** One observation a period: the mean of its blocks. */
  function Means(blocks: seq<Block>): seq<real> {
    seq(|Periods(blocks)|, i requires 0 <= i < |Periods(blocks)| => Mean(Of(blocks, Periods(blocks)[i])))
  }

  /** When a record has turned (`reseat`): on its summed growth, or on the lower bound of one observation a
      period, at the confidence `lower` takes it at. */
  datatype Rule = GainSince(minimum: int) | BoundSince(minimum: int, lower: seq<real> -> real)

  predicate TurnedUnder(rule: Rule, since: seq<Block>) {
    match rule
    case GainSince(minimum) => Gaining(|since|, Growth(since), minimum)
    case BoundSince(minimum, lower) =>
      var values := Means(since);
      |values| >= 2 && |values| >= minimum && lower(values) > LEAST_BOUND
  }

  /** What a pass reads: every family's record, and the rule in force. */
  datatype Reading = Reading(records: map<Name, seq<Block>>, rule: Rule)

  function RecordOf(reading: Reading, family: Name): seq<Block> {
    if family in reading.records then reading.records[family] else []
  }

  /** Whether a family's record since a ledger position has turned, on the record as a pass reads it. */
  predicate Turned(reading: Reading, family: Name, seqNo: int) {
    TurnedUnder(reading.rule, Since(RecordOf(reading, family), seqNo))
  }

  function Pending(held: seq<Demotion>, reading: Reading, family: Name): seq<Demotion> {
    if held == [] then []
    else
      var last := held[|held| - 1];
      Pending(held[..|held| - 1], reading, family) + if Turned(reading, family, last.seqNo) then [] else [last]
  }

  function Pruned(holds: Holds, reading: Reading): Holds {
    map f | f in holds && Pending(holds[f], reading, f) != [] :: Pending(holds[f], reading, f)
  }

  /** Why no probe may be seated. */
  datatype Closed = Unreadable | LosingFamily | Held(earliest: Demotion, pending: nat)

  function GateOf(holds: Holds, fault: bool, reading: Reading, family: Name): Option<Closed> {
    var record := RecordOf(reading, family);
    var pending := Pending(HeldOn(holds, family), reading, family);
    if fault then Some(Unreadable)
    else if Losing(|record|, Growth(record), reading.rule.minimum) then Some(LosingFamily)
    else if pending != [] then Some(Held(pending[0], |pending|))
    else None
  }

  /** What a fold starts from: the holds as kept, or nothing where they were kept under another rule. */
  function Base(k: Kept, rule: Rule): Kept {
    if k.bound == rule.BoundSince? then k else NEW.(bound := rule.BoundSince?)
  }

  function Refolded(k: Kept, ledger: seq<Entry>, rule: Rule, reg: Registry): Kept {
    var base := Base(k, rule);
    if base.cursor <= |ledger| then FoldRows(base, ledger[base.cursor..], reg) else base
  }

  // ------------------------------------------------------------------ the allocator's state, in place

  class ProbeGate {
    var holds: Holds
    var states: States
    var cursor: nat
    var bound: bool
    /** What the pass reads, and whether anything could not be read. */
    var reading: Reading
    var fault: bool

    function Now(): Kept
      reads this
    {
      Kept(holds, states, cursor, bound)
    }

    constructor (rule: Rule)
      ensures this.reading == Reading(map[], rule) && Now() == NEW
    {
      holds, states, cursor, bound, reading, fault := map[], map[], 0, false, Reading(map[], rule), false;
    }

    method FoldOne(e: Entry, reg: Registry)
      modifies this`holds, this`states, this`cursor
      ensures Now() == FoldRow(old(Now()), e, reg)
    {
      hide HoldOf, AfterRecord, Placed, HasSeq;
      var family := HoldOf(e, states, reg);
      states, cursor := AfterRecord(states, e.row), cursor + 1;
      if family.Some? {
        var kept := HeldOn(holds, family.value);
        if !HasSeq(kept, e.seqNo) {
          kept := Placed(kept, DemotionOf(e));
        }
        holds := holds[family.value := kept];
      }
    }

    /** Fold the rows past the cursor, or the whole ledger again where the holds were kept under another rule;
        a fold that fails closes the gate and leaves the holds as they are. */
    method Refold(ledger: seq<Entry>, readable: bool, reg: Registry)
      requires cursor <= |ledger|
      modifies this`holds, this`states, this`cursor, this`bound, this`fault
      ensures readable ==> Now() == Refolded(old(Now()), ledger, reading.rule, reg) && fault == old(fault)
      ensures !readable ==> Now() == old(Now()) && fault
    {
      hide FoldRow;
      if !readable {
        fault := true;
        return;
      }
      if bound != reading.rule.BoundSince? {
        holds, states, cursor, bound := map[], map[], 0, reading.rule.BoundSince?;
      }
      ghost var base, rows := Now(), ledger[cursor..];
      var i := cursor;
      while i < |ledger|
        invariant base.cursor <= i <= |ledger| && fault == old(fault) && bound == base.bound
        invariant Now() == FoldRows(base, rows[..i - base.cursor], reg)
      {
        assert rows[..i + 1 - base.cursor][..i - base.cursor] == rows[..i - base.cursor];
        FoldOne(ledger[i], reg);
        i := i + 1;
      }
      assert rows[..|ledger| - base.cursor] == rows;
    }

    method PendingOf(family: Name) returns (pending: seq<Demotion>)
      ensures pending == Pending(HeldOn(holds, family), reading, family)
    {
      pending := [];
      var held := HeldOn(holds, family);
      for i := 0 to |held|
        invariant pending == Pending(held[..i], reading, family)
      {
        assert held[..i + 1][..i] == held[..i];
        if !Turned(reading, family, held[i].seqNo) {
          pending := pending + [held[i]];
        }
      }
      assert held[..|held|] == held;
    }

    /** Drop the demotions whose record has turned, and every family left with none. */
    method Prune()
      modifies this`holds
      ensures holds == Pruned(old(holds), reading)
    {
      hide Pending;
      var kept: Holds, left := map[], holds.Keys;
      while left != {}
        invariant left <= holds.Keys && holds == old(holds)
        invariant forall f :: f in kept <==> f in holds && f !in left && Pending(holds[f], reading, f) != []
        invariant forall f :: f in kept ==> kept[f] == Pending(holds[f], reading, f)
        decreases |left|
      {
        var family :| family in left;
        var pending := PendingOf(family);
        if pending != [] {
          kept := kept[family := pending];
        }
        left := left - {family};
      }
      holds := kept;
    }

    /** Why no probe may be seated from the family now: asked of every newcomer before anything else. */
    method Ask(family: Name) returns (closed: Option<Closed>)
      ensures closed == GateOf(holds, fault, reading, family)
    {
      if fault {
        return Some(Unreadable);
      }
      var record := RecordOf(reading, family);
      if Losing(|record|, Growth(record), reading.rule.minimum) {
        return Some(LosingFamily);
      }
      var pending := PendingOf(family);
      closed := if pending == [] then None else Some(Held(pending[0], |pending|));
    }
  }
}
