/** What the probe gate keeps over every run of passes, demotions between them, failed reads and lost state
    (league/allocator.py `_begin_pass`, `rebalance`, `_refold`, `_bunt`). */
module ProbeRuns {
  import opened Wrappers
  import opened ProbeHolds

  // ------------------------------------------------------------------ what the fold keeps

  /** Folding A then B is folding B onto the fold of A. */
  lemma {:induction false} FoldInParts(k: Kept, a: seq<Entry>, b: seq<Entry>, reg: Registry)
    ensures FoldRows(k, a + b, reg) == FoldRows(FoldRows(k, a, reg), b, reg)
  {
    if b == [] {
      assert a + b == a;
    } else {
      FoldInParts(k, a, b[..|b| - 1], reg);
      assert (a + b)[..|a + b| - 1] == a + b[..|b| - 1];
    }
  }

  /** The states the mechanism ledger's rows last gave. */
  function StatesOf(rows: seq<Entry>): States {
    if rows == [] then map[] else AfterRecord(StatesOf(rows[..|rows| - 1]), rows[|rows| - 1].row)
  }

  /** The family the demotion at row `i` holds as a fold reads it, judged by the states on record when it was
      made. */
  function DemotedAt(ledger: seq<Entry>, i: nat, reg: Registry): Option<Name>
    requires i < |ledger|
  {
    HoldOf(ledger[i], StatesOf(ledger[..i]), reg)
  }

  predicate Increasing(held: seq<Demotion>) {
    forall i, j :: 0 <= i < j < |held| ==> held[i].seqNo < held[j].seqNo
  }

  lemma {:induction false} PlacedKeepsOrder(kept: seq<Demotion>, d: Demotion)
    requires Increasing(kept) && !HasSeq(kept, d.seqNo)
    ensures Increasing(Placed(kept, d))
    ensures forall x :: x in Placed(kept, d) <==> x in kept || x == d
  {
    if kept != [] {
      var front, last := kept[..|kept| - 1], kept[|kept| - 1];
      assert kept == front + [last];
      if last.seqNo > d.seqNo {
        assert !HasSeq(front, d.seqNo);
        PlacedKeepsOrder(front, d);
        var placed := Placed(front, d);
        forall i | 0 <= i < |placed| ensures placed[i].seqNo < last.seqNo {
          assert placed[i] in placed;
        }
      } else {
        assert kept[|kept| - 1].seqNo != d.seqNo;
      }
    }
  }

  /** The families a fold of these rows put them under: `marks` those of `rows`, read before, and those of
      `more` as `reg` reads them now. */
  function MarksOf(rows: seq<Entry>, marks: seq<Option<Name>>, more: seq<Entry>, reg: Registry): seq<Option<Name>> {
    if more == [] then marks
    else
      var front := more[..|more| - 1];
      MarksOf(rows, marks, front, reg) + [HoldOf(more[|more| - 1], StatesOf(rows + front), reg)]
  }

  lemma {:induction false} MarksAre(rows: seq<Entry>, marks: seq<Option<Name>>, more: seq<Entry>, reg: Registry)
    requires |marks| == |rows|
    ensures var all := MarksOf(rows, marks, more, reg);
            |all| == |rows| + |more| && all[..|rows|] == marks &&
            forall i :: |rows| <= i < |all| ==> all[i] == DemotedAt(rows + more, i, reg)
  {
    if more != [] {
      var front := more[..|more| - 1];
      MarksAre(rows, marks, front, reg);
      hide HoldOf, StatesOf;
      var all := MarksOf(rows, marks, more, reg);
      forall i | |rows| <= i < |all| ensures all[i] == DemotedAt(rows + more, i, reg) {
        if i < |all| - 1 {
          DemotedStays(rows + front, rows + more, i, reg);
        } else {
          assert (rows + more)[..i] == rows + front;
        }
      }
    }
  }

  /** The holds after these rows: every probe demotion under the family it was read to hold, once, oldest
      first, but for those some pass has found turned; and nothing else. */
  ghost predicate Faithful(k: Kept, rows: seq<Entry>, marks: seq<Option<Name>>, found: set<(Name, int)>) {
    k.cursor == |rows| == |marks| && k.states == StatesOf(rows) &&
    (forall f :: Increasing(HeldOn(k.holds, f))) &&
    (forall f, d :: d in HeldOn(k.holds, f) ==> Made(rows, marks, f, d)) &&
    (forall i :: 0 <= i < |rows| && marks[i].Some? ==> Accounted(k.holds, marks[i].value, rows[i].seqNo, found))
  }

  predicate Accounted(holds: Holds, family: Name, seqNo: int, found: set<(Name, int)>) {
    HasSeq(HeldOn(holds, family), seqNo) || (family, seqNo) in found
  }

  predicate Made(rows: seq<Entry>, marks: seq<Option<Name>>, family: Name, d: Demotion)
    requires |rows| == |marks|
  {
    exists i :: 0 <= i < |rows| && marks[i] == Some(family) && d == DemotionOf(rows[i])
  }

  lemma MadeStays(rows: seq<Entry>, marks: seq<Option<Name>>, e: Entry, mark: Option<Name>, family: Name, d: Demotion)
    requires |rows| == |marks| && Made(rows, marks, family, d)
    ensures Made(rows + [e], marks + [mark], family, d)
  {
    var i :| 0 <= i < |rows| && marks[i] == Some(family) && d == DemotionOf(rows[i]);
    assert (marks + [mark])[i] == Some(family) && d == DemotionOf((rows + [e])[i]);
  }

  lemma InsertedHas(kept: seq<Demotion>, d: Demotion)
    requires Increasing(kept)
    ensures Increasing(Inserted(kept, d)) && HasSeq(Inserted(kept, d), d.seqNo)
    ensures forall x :: x in Inserted(kept, d) ==> x in kept || x == d
    ensures forall x :: x in kept ==> x in Inserted(kept, d)
  {
    if !HasSeq(kept, d.seqNo) {
      PlacedKeepsOrder(kept, d);
      var placed := Placed(kept, d);
      assert d in placed;
      var i :| 0 <= i < |placed| && placed[i] == d;
      assert placed[i].seqNo == d.seqNo;
    }
  }

  lemma HasSeqStays(kept: seq<Demotion>, more: seq<Demotion>, seqNo: int)
    requires HasSeq(kept, seqNo) && forall x :: x in kept ==> x in more
    ensures HasSeq(more, seqNo)
  {
    var i :| 0 <= i < |kept| && kept[i].seqNo == seqNo;
    assert kept[i] in more;
    var j :| 0 <= j < |more| && more[j] == kept[i];
  }

  lemma DemotedStays(rows: seq<Entry>, more: seq<Entry>, i: nat, reg: Registry)
    requires i < |rows| && rows <= more
    ensures DemotedAt(more, i, reg) == DemotedAt(rows, i, reg)
  {
    assert more[..i] == rows[..i];
  }

  lemma FoldedHeld(k: Kept, e: Entry, reg: Registry, family: Name)
    requires Increasing(HeldOn(k.holds, family))
    ensures var held, after := HeldOn(k.holds, family), HeldOn(FoldRow(k, e, reg).holds, family);
            Increasing(after) && (forall d :: d in held ==> d in after) &&
            (forall d :: d in after ==> d in held ||
                                        (d == DemotionOf(e) && HoldOf(e, k.states, reg) == Some(family))) &&
            (HoldOf(e, k.states, reg) == Some(family) ==> HasSeq(after, e.seqNo))
  {
    hide Inserted, HoldOf;
    InsertedHas(HeldOn(k.holds, family), DemotionOf(e));
    assert DemotionOf(e).seqNo == e.seqNo;
  }

  lemma FoldRowIsFaithful(k: Kept, rows: seq<Entry>, marks: seq<Option<Name>>, e: Entry, found: set<(Name, int)>,
                          reg: Registry)
    requires Faithful(k, rows, marks, found)
    ensures Faithful(FoldRow(k, e, reg), rows + [e], marks + [HoldOf(e, StatesOf(rows), reg)], found)
  {
    var after, more, mark := FoldRow(k, e, reg), rows + [e], HoldOf(e, StatesOf(rows), reg);
    assert more[..|rows|] == rows;
    assert StatesOf(more) == AfterRecord(StatesOf(rows), e.row);
    hide HoldOf, AfterRecord, FoldRow, StatesOf, HeldOn;
    FoldRowCursor(k, e, reg);
    forall f ensures Increasing(HeldOn(after.holds, f)) {
      FoldedHeld(k, e, reg, f);
    }
    forall f, d | d in HeldOn(after.holds, f) ensures Made(more, marks + [mark], f, d) {
      FoldedHeld(k, e, reg, f);
      if d in HeldOn(k.holds, f) {
        MadeStays(rows, marks, e, mark, f, d);
      } else {
        assert (marks + [mark])[|rows|] == Some(f) && d == DemotionOf(more[|rows|]);
      }
    }
    forall i | 0 <= i < |more| && (marks + [mark])[i].Some?
      ensures Accounted(after.holds, (marks + [mark])[i].value, more[i].seqNo, found)
    {
      var f := (marks + [mark])[i].value;
      FoldedHeld(k, e, reg, f);
      if i < |rows| && HasSeq(HeldOn(k.holds, f), more[i].seqNo) {
        HasSeqStays(HeldOn(k.holds, f), HeldOn(after.holds, f), more[i].seqNo);
      }
    }
  }

  lemma FoldRowCursor(k: Kept, e: Entry, reg: Registry)
    ensures FoldRow(k, e, reg).cursor == k.cursor + 1 && FoldRow(k, e, reg).states == AfterRecord(k.states, e.row)
  {}

  lemma {:induction false} FoldIsFaithful(k: Kept, rows: seq<Entry>, marks: seq<Option<Name>>, more: seq<Entry>,
                                          found: set<(Name, int)>, reg: Registry)
    requires Faithful(k, rows, marks, found)
    ensures Faithful(FoldRows(k, more, reg), rows + more, MarksOf(rows, marks, more, reg), found)
    decreases |more|
  {
    hide Faithful, HoldOf, StatesOf;
    if more == [] {
      assert rows + more == rows;
    } else {
      var front, last := more[..|more| - 1], more[|more| - 1];
      FoldIsFaithful(k, rows, marks, front, found, reg);
      FoldRowIsFaithful(FoldRows(k, front, reg), rows + front, MarksOf(rows, marks, front, reg), last, found, reg);
      assert rows + more == rows + front + [last];
    }
  }

  lemma {:induction false} PendingIs(held: seq<Demotion>, reading: Reading, family: Name)
    ensures forall d :: d in Pending(held, reading, family) <==> d in held && !Turned(reading, family, d.seqNo)
  {
    hide Turned;
    if held != [] {
      PendingIs(held[..|held| - 1], reading, family);
      assert held == held[..|held| - 1] + [held[|held| - 1]];
    }
  }

  lemma IncreasingAppend(kept: seq<Demotion>, front: seq<Demotion>, last: Demotion)
    requires Increasing(kept) && Increasing(front + [last]) && forall d :: d in kept ==> d in front
    ensures Increasing(kept + [last])
  {
    forall i | 0 <= i < |kept| ensures kept[i].seqNo < last.seqNo {
      assert kept[i] in front;
      var j :| 0 <= j < |front| && front[j] == kept[i];
      assert (front + [last])[j] == front[j] && (front + [last])[|front|] == last;
    }
  }

  lemma {:induction false} PendingInOrder(held: seq<Demotion>, reading: Reading, family: Name)
    requires Increasing(held)
    ensures Increasing(Pending(held, reading, family))
  {
    hide Turned;
    if held != [] {
      var front, last := held[..|held| - 1], held[|held| - 1];
      PendingInOrder(front, reading, family);
      PendingIs(front, reading, family);
      assert held == front + [last];
      hide Increasing;
      if !Turned(reading, family, last.seqNo) {
        IncreasingAppend(Pending(front, reading, family), front, last);
      } else {
        assert Pending(front, reading, family) + [] == Pending(front, reading, family);
      }
    }
  }

  /** The demotions of a set of holds that a pass finds turned. */
  function FoundIn(holds: Holds, reading: Reading): set<(Name, int)> {
    set f, d | f in holds && d in holds[f] && Turned(reading, f, d.seqNo) :: (f, d.seqNo)
  }

  lemma PrunedHeld(holds: Holds, reading: Reading, family: Name)
    ensures HeldOn(Pruned(holds, reading), family) == Pending(HeldOn(holds, family), reading, family)
  {}

  lemma PruneAccounts(holds: Holds, reading: Reading, family: Name, seqNo: int, found: set<(Name, int)>)
    requires Accounted(holds, family, seqNo, found)
    ensures Accounted(Pruned(holds, reading), family, seqNo, found + FoundIn(holds, reading))
  {
    hide Turned, Pending, Pruned;
    PrunedHeld(holds, reading, family);
    PendingIs(HeldOn(holds, family), reading, family);
    if (family, seqNo) !in found {
      var held, pending := HeldOn(holds, family), Pending(HeldOn(holds, family), reading, family);
      var i :| 0 <= i < |held| && held[i].seqNo == seqNo;
      assert held[i] in held;
      if Turned(reading, family, seqNo) {
        assert family in holds && held[i] in holds[family];
      } else {
        assert held[i] in pending;
        var j :| 0 <= j < |pending| && pending[j] == held[i];
      }
    }
  }

  lemma PruneIsFaithful(k: Kept, rows: seq<Entry>, marks: seq<Option<Name>>, found: set<(Name, int)>,
                        reading: Reading)
    requires Faithful(k, rows, marks, found)
    ensures Faithful(k.(holds := Pruned(k.holds, reading)), rows, marks, found + FoundIn(k.holds, reading))
  {
    hide Turned, Pending, Pruned, FoundIn, Made, Accounted, Increasing, StatesOf;
    forall f ensures Increasing(HeldOn(Pruned(k.holds, reading), f))
                     && forall d :: d in HeldOn(Pruned(k.holds, reading), f) ==> d in HeldOn(k.holds, f) {
      PrunedHeld(k.holds, reading, f);
      PendingIs(HeldOn(k.holds, f), reading, f);
      PendingInOrder(HeldOn(k.holds, f), reading, f);
    }
    forall i | 0 <= i < |rows| && marks[i].Some?
      ensures Accounted(Pruned(k.holds, reading), marks[i].value, rows[i].seqNo, found + FoundIn(k.holds, reading))
    {
      PruneAccounts(k.holds, reading, marks[i].value, rows[i].seqNo, found);
    }
  }

  lemma NewIsFaithful(found: set<(Name, int)>, bound: bool)
    ensures Faithful(NEW.(bound := bound), [], [], found)
  {}

  /** What the fold of a whole ledger holds: a family's demotions are exactly the funded probe demotions the
      ledger has under it, each once and in ledger order. */
  lemma FoldHoldsEveryDemotion(ledger: seq<Entry>, reg: Registry, family: Name)
    ensures var held := HeldOn(FoldRows(NEW, ledger, reg).holds, family);
            Increasing(held) &&
            forall seqNo :: HasSeq(held, seqNo) <==>
                            exists i :: 0 <= i < |ledger| && DemotedAt(ledger, i, reg) == Some(family) &&
                                        ledger[i].seqNo == seqNo
  {
    hide FoldRows, StatesOf, HoldOf, HeldOn, Increasing, MarksOf;
    NewIsFaithful({}, false);
    FoldIsFaithful(NEW, [], [], ledger, {}, reg);
    assert [] + ledger == ledger;
    MarksAre([], [], ledger, reg);
    var held, marks := HeldOn(FoldRows(NEW, ledger, reg).holds, family), MarksOf([], [], ledger, reg);
    forall seqNo | HasSeq(held, seqNo)
      ensures exists i :: 0 <= i < |ledger| && DemotedAt(ledger, i, reg) == Some(family) && ledger[i].seqNo == seqNo
    {
      var j :| 0 <= j < |held| && held[j].seqNo == seqNo;
      assert held[j] in held;
      assert Made(ledger, marks, family, held[j]);
      var i :| 0 <= i < |ledger| && marks[i] == Some(family) && held[j] == DemotionOf(ledger[i]);
      assert ledger[i].seqNo == seqNo && DemotedAt(ledger, i, reg) == Some(family);
    }
    forall i | 0 <= i < |ledger| && DemotedAt(ledger, i, reg) == Some(family) ensures HasSeq(held, ledger[i].seqNo) {
      assert marks[i] == Some(family);
    }
  }

  // ------------------------------------------------------------------ passes

  datatype Phase = Between | Downs | Ups

  /** A probe seated: its family, how long the ledger was when its gate was asked, and the families the last
      fold before it had put the rows under. */
  datatype Seating = Seating(family: Name, rows: nat, marks: seq<Option<Name>>)

  /** `marks` are the families the rows read so far were put under; `found` is every demotion some pass has
      found turned; `read` is what the folds read of the agents, one after the other. */
  datatype System = System(ledger: seq<Entry>, kept: Kept, marks: seq<Option<Name>>, fault: bool, reading: Reading,
                           phase: Phase, found: set<(Name, int)>, seated: seq<Seating>, read: seq<Registry>)

  const STARTED := System([], NEW, [], false, Reading(map[], GainSince(1)), Between, {}, [], [])

  /** Each fold reads the agents as they are then: `reg`. */
  datatype Event =
    | Write(entry: Entry)
    | Lose
    | Begin(reading: Reading, tapeFault: bool, reg: Registry, folds: bool, prunes: bool)
    | MoveDown(entry: Entry)
    | Refold(reg: Registry, folds: bool)
    | Seat(family: Name, displaced: Option<Entry>, reg: Registry, folds: bool, funded: bool)
    | Note(entry: Entry)
    | End

  function Marked(k: Kept, marks: seq<Option<Name>>, ledger: seq<Entry>, rule: Rule, reg: Registry):
    seq<Option<Name>>
  {
    var base := Base(k, rule);
    var kept := if k.bound == rule.BoundSince? then marks else [];
    if base.cursor <= |ledger| then MarksOf(ledger[..base.cursor], kept, ledger[base.cursor..], reg) else kept
  }

  function Folded(sys: System, reg: Registry, folds: bool): System {
    if !folds then sys.(fault := true)
    else
      sys.(kept := Refolded(sys.kept, sys.ledger, sys.reading.rule, reg),
      marks := Marked(sys.kept, sys.marks, sys.ledger, sys.reading.rule, reg), read := sys.read + [reg])
  }

  function Prune(sys: System): System {
    sys.(kept := sys.kept.(holds := Pruned(sys.kept.holds, sys.reading)),
    found := sys.found + FoundIn(sys.kept.holds, sys.reading))
  }

  function Append(sys: System, e: Entry): System {
    sys.(ledger := sys.ledger + [e])
  }

  /** What is asked of a probe newcomer: the gate, whose reading finds turns of its own. */
  function Asked(sys: System, family: Name): System {
    sys.(found := sys.found + FoundIn(map[family := HeldOn(sys.kept.holds, family)], sys.reading))
  }

  function Gate(sys: System, family: Name): Option<Closed> {
    GateOf(sys.kept.holds, sys.fault, sys.reading, family)
  }

  function After(sys: System, e: Event): System {
    match e
    case Write(entry) => Append(sys, entry)
    case Lose => sys.(kept := NEW, marks := [])
    case Begin(reading, tapeFault, reg, folds, prunes) =>
      var read := Folded(sys.(reading := reading, fault := tapeFault, phase := Downs), reg, folds);
      if prunes then Prune(read) else read
    case MoveDown(entry) => Append(sys, entry)
    case Refold(reg, folds) => Folded(sys.(phase := Ups), reg, folds)
    case Seat(family, displaced, reg, folds, funded) =>
      if Gate(sys, family).Some? then sys
      else
        var asked := Asked(sys, family);
        var moved := match displaced case Some(entry) => Folded(Append(asked, entry), reg, folds) case None => asked;
        if funded then moved.(seated := moved.seated + [Seating(family, |sys.ledger|, sys.marks)]) else moved
    case Note(entry) => Append(sys, entry)
    case End => sys.(phase := Between)
  }

  /** Passes run under the lifecycle lock, so nothing demotes inside one but the pass itself; the probe a
      newcomer displaces is never of its own family, and what else a pass writes holds no family. */
  predicate Possible(sys: System, e: Event) {
    match e
    case Write(_) => sys.phase == Between
    case Lose => sys.phase == Between
    case Begin(_, _, _, _, _) => sys.phase == Between
    case MoveDown(_) => sys.phase == Downs
    case Refold(_, _) => sys.phase == Downs
    case Seat(family, displaced, reg, _, _) =>
      sys.phase == Ups && (displaced.Some? ==> HoldOf(displaced.value, StatesOf(sys.ledger), reg) != Some(family))
    case Note(entry) => sys.phase == Ups && NeverHolds(entry)
    case End => sys.phase == Ups
  }

  /** Each row was put under the family some fold read it to hold. */
  ghost predicate Authentic(marks: seq<Option<Name>>, ledger: seq<Entry>, read: seq<Registry>) {
    |marks| <= |ledger| && forall i :: 0 <= i < |marks| ==> ReadAs(read, ledger, i, marks[i])
  }

  predicate ReadAs(read: seq<Registry>, ledger: seq<Entry>, i: nat, mark: Option<Name>)
    requires i < |ledger|
  {
    exists j :: 0 <= j < |read| && DemotedAt(ledger, i, read[j]) == mark
  }

  ghost predicate Sound(sys: System) {
    sys.kept.cursor <= |sys.ledger| && Faithful(sys.kept, sys.ledger[..sys.kept.cursor], sys.marks, sys.found) &&
    Authentic(sys.marks, sys.ledger, sys.read) &&
    (sys.phase == Ups && !sys.fault ==>
       forall i :: sys.kept.cursor <= i < |sys.ledger| ==> NeverHolds(sys.ledger[i]))
  }

  lemma MoreFound(k: Kept, rows: seq<Entry>, marks: seq<Option<Name>>, found: set<(Name, int)>,
                  more: set<(Name, int)>)
    requires Faithful(k, rows, marks, found)
    ensures Faithful(k, rows, marks, found + more)
  {}

  lemma ReadAsStays(read: seq<Registry>, more: seq<Registry>, ledger: seq<Entry>, longer: seq<Entry>, i: nat,
                    mark: Option<Name>)
    requires i < |ledger| && ledger <= longer && read <= more && ReadAs(read, ledger, i, mark)
    ensures ReadAs(more, longer, i, mark)
  {
    hide HoldOf, StatesOf;
    var j :| 0 <= j < |read| && DemotedAt(ledger, i, read[j]) == mark;
    DemotedStays(ledger, longer, i, read[j]);
    assert more[j] == read[j];
  }

  lemma AppendIsSound(sys: System, e: Entry)
    requires Sound(sys) && (sys.phase == Ups && !sys.fault ==> NeverHolds(e))
    ensures Sound(Append(sys, e))
  {
    hide Faithful, ReadAs, NeverHolds;
    var more := sys.ledger + [e];
    assert more[..sys.kept.cursor] == sys.ledger[..sys.kept.cursor];
    forall i | 0 <= i < |sys.marks| ensures ReadAs(sys.read, more, i, sys.marks[i]) {
      ReadAsStays(sys.read, sys.read, sys.ledger, more, i, sys.marks[i]);
    }
  }

  /** A fold that succeeds leaves no row unread; one that fails closes the gate. */
  lemma RefoldedIsFaithful(k: Kept, marks: seq<Option<Name>>, ledger: seq<Entry>, rule: Rule,
                           found: set<(Name, int)>, reg: Registry)
    requires k.cursor <= |ledger| && Faithful(k, ledger[..k.cursor], marks, found)
    ensures Faithful(Refolded(k, ledger, rule, reg), ledger, Marked(k, marks, ledger, rule, reg), found)
  {
    var base := Base(k, rule);
    var kept := if k.bound == rule.BoundSince? then marks else [];
    NewIsFaithful(found, base.bound);
    assert ledger[..0] == [] && ledger[..base.cursor] + ledger[base.cursor..] == ledger;
    hide Faithful, FoldRows, MarksOf;
    FoldIsFaithful(base, ledger[..base.cursor], kept, ledger[base.cursor..], found, reg);
  }

  /** A fold keeps the families it read before, and reads the rows past its cursor now. */
  lemma MarkedAre(k: Kept, marks: seq<Option<Name>>, ledger: seq<Entry>, rule: Rule, reg: Registry)
    requires k.cursor == |marks| <= |ledger|
    ensures var all := Marked(k, marks, ledger, rule, reg);
            |all| == |ledger| &&
            forall i :: 0 <= i < |all| ==> all[i] == DemotedAt(ledger, i, reg) || (i < |marks| && all[i] == marks[i])
  {
    hide HoldOf, StatesOf, DemotedAt, MarksOf;
    var base := Base(k, rule);
    var kept := if k.bound == rule.BoundSince? then marks else [];
    MarksAre(ledger[..base.cursor], kept, ledger[base.cursor..], reg);
    assert ledger[..base.cursor] + ledger[base.cursor..] == ledger;
    var all := Marked(k, marks, ledger, rule, reg);
    forall i | 0 <= i < base.cursor ensures all[i] == kept[i] {
      assert all[..base.cursor][i] == kept[i];
    }
  }

  lemma FoldedIsAuthentic(sys: System, reg: Registry)
    requires Authentic(sys.marks, sys.ledger, sys.read) && sys.kept.cursor == |sys.marks|
    ensures var after := Folded(sys, reg, true);
            Authentic(after.marks, after.ledger, after.read)
  {
    hide Refolded, Marked, ReadAs;
    var after := Folded(sys, reg, true);
    MarkedAre(sys.kept, sys.marks, sys.ledger, sys.reading.rule, reg);
    forall i | 0 <= i < |after.marks| ensures ReadAs(after.read, after.ledger, i, after.marks[i]) {
      if i < |sys.marks| && after.marks[i] == sys.marks[i] {
        ReadAsStays(sys.read, after.read, sys.ledger, after.ledger, i, sys.marks[i]);
      } else {
        ReadNow(sys.read, reg, sys.ledger, i);
      }
    }
  }

  lemma ReadNow(read: seq<Registry>, reg: Registry, ledger: seq<Entry>, i: nat)
    requires i < |ledger|
    ensures ReadAs(read + [reg], ledger, i, DemotedAt(ledger, i, reg))
  {
    hide DemotedAt;
    assert (read + [reg])[|read|] == reg;
  }

  lemma FoldedIsSound(sys: System, reg: Registry, folds: bool)
    requires sys.kept.cursor <= |sys.ledger| && Authentic(sys.marks, sys.ledger, sys.read)
    requires Faithful(sys.kept, sys.ledger[..sys.kept.cursor], sys.marks, sys.found)
    ensures Sound(Folded(sys, reg, folds))
    ensures Folded(sys, reg, folds).ledger == sys.ledger && Folded(sys, reg, folds).found == sys.found
  {
    if folds {
      RefoldedIsFaithful(sys.kept, sys.marks, sys.ledger, sys.reading.rule, sys.found, reg);
      FoldedIsAuthentic(sys, reg);
      hide Refolded, Marked, Authentic, NeverHolds;
      assert Refolded(sys.kept, sys.ledger, sys.reading.rule, reg).cursor == |sys.ledger|;
      assert sys.ledger[..|sys.ledger|] == sys.ledger;
    }
  }

  lemma BeginIsSound(sys: System, e: Event)
    requires Sound(sys) && e.Begin?
    ensures Sound(After(sys, e))
  {
    hide Faithful, FoldRows, Pruned, FoundIn, Authentic, Marked, Refolded;
    var begun := sys.(reading := e.reading, fault := e.tapeFault, phase := Downs);
    FoldedIsSound(begun, e.reg, e.folds);
    var read := Folded(begun, e.reg, e.folds);
    if e.prunes {
      PruneIsFaithful(read.kept, read.ledger[..read.kept.cursor], read.marks, read.found, e.reading);
      assert read.reading == e.reading;
    }
  }

  lemma SeatIsSound(sys: System, e: Event)
    requires Sound(sys) && sys.phase == Ups && e.Seat?
    ensures Sound(After(sys, e))
  {
    hide Faithful, FoldRows, FoundIn, GateOf, Authentic, Marked, Refolded, NeverHolds;
    MoreFound(sys.kept, sys.ledger[..sys.kept.cursor], sys.marks, sys.found,
              FoundIn(map[e.family := HeldOn(sys.kept.holds, e.family)], sys.reading));
    var asked := Asked(sys, e.family);
    if e.displaced.Some? {
      var more := Append(asked, e.displaced.value);
      assert more.ledger[..sys.kept.cursor] == sys.ledger[..sys.kept.cursor];
      AuthenticStays(sys.marks, sys.ledger, more.ledger, sys.read);
      FoldedIsSound(more, e.reg, e.folds);
    }
  }

  lemma AuthenticStays(marks: seq<Option<Name>>, ledger: seq<Entry>, longer: seq<Entry>, read: seq<Registry>)
    requires Authentic(marks, ledger, read) && ledger <= longer
    ensures Authentic(marks, longer, read)
  {
    hide ReadAs;
    forall i | 0 <= i < |marks| ensures ReadAs(read, longer, i, marks[i]) {
      ReadAsStays(read, read, ledger, longer, i, marks[i]);
    }
  }

  lemma EventIsSound(sys: System, e: Event)
    requires Sound(sys) && Possible(sys, e)
    ensures Sound(After(sys, e))
  {
    match e
    case Write(entry) => AppendIsSound(sys, entry);
    case Lose => LosingIsSound(sys);
    case Begin(_, _, _, _, _) => BeginIsSound(sys, e);
    case MoveDown(entry) => AppendIsSound(sys, entry);
    case Refold(reg, folds) => FoldedIsSound(sys.(phase := Ups), reg, folds);
    case Seat(_, _, _, _, _) => SeatIsSound(sys, e);
    case Note(entry) => AppendIsSound(sys, entry);
    case End => EndIsSound(sys);
  }

  lemma LosingIsSound(sys: System)
    requires Sound(sys) && sys.phase == Between
    ensures Sound(After(sys, Lose))
  {
    NewIsFaithful(sys.found, false);
    assert sys.ledger[..0] == [];
  }

  lemma EndIsSound(sys: System)
    requires Sound(sys)
    ensures Sound(After(sys, End))
  {}

  // ------------------------------------------------------------------ a demoted probe holds its family

  /** Of the rows when a probe was seated, each that the last fold had put under its family has been found
      turned, each one for itself, and a row no fold had read holds no family. */
  ghost predicate Released(seating: Seating, ledger: seq<Entry>, found: set<(Name, int)>) {
    |seating.marks| <= seating.rows <= |ledger| &&
    (forall i :: 0 <= i < |seating.marks| && seating.marks[i] == Some(seating.family) ==>
                   (seating.family, ledger[i].seqNo) in found) &&
    (forall i :: |seating.marks| <= i < seating.rows ==> NeverHolds(ledger[i]))
  }

  lemma OpenGateHasNone(sys: System, family: Name)
    requires Gate(sys, family).None?
    ensures !sys.fault && Pending(HeldOn(sys.kept.holds, family), sys.reading, family) == []
  {}

  lemma HeldIsFound(holds: Holds, reading: Reading, family: Name, seqNo: int)
    requires Pending(HeldOn(holds, family), reading, family) == [] && HasSeq(HeldOn(holds, family), seqNo)
    ensures (family, seqNo) in FoundIn(map[family := HeldOn(holds, family)], reading)
  {
    hide Turned;
    var held := HeldOn(holds, family);
    PendingIs(held, reading, family);
    var j :| 0 <= j < |held| && held[j].seqNo == seqNo;
    assert held[j] in held && held[j] !in Pending(held, reading, family);
    assert held[j] in map[family := held][family];
  }

  /** The gate lets a probe through only where the pass finds every pending demotion of its family turned. */
  lemma OpenGateFoundAll(sys: System, family: Name)
    requires Sound(sys) && sys.phase == Ups && Gate(sys, family).None?
    ensures Released(Seating(family, |sys.ledger|, sys.marks), sys.ledger, Asked(sys, family).found)
  {
    hide HoldOf, StatesOf, GateOf, FoundIn, Pending, HasSeq, Increasing, Made, NeverHolds, ReadAs;
    OpenGateHasNone(sys, family);
    var rows := sys.ledger[..sys.kept.cursor];
    forall i | 0 <= i < |sys.marks| && sys.marks[i] == Some(family)
      ensures (family, sys.ledger[i].seqNo) in Asked(sys, family).found
    {
      assert Accounted(sys.kept.holds, family, rows[i].seqNo, sys.found);
      if (family, rows[i].seqNo) !in sys.found {
        HeldIsFound(sys.kept.holds, sys.reading, family, rows[i].seqNo);
      }
    }
  }

  lemma LedgerGrows(sys: System, e: Event)
    ensures var after := After(sys, e);
            sys.ledger <= after.ledger && sys.found <= after.found && sys.read <= after.read &&
            (after.seated == sys.seated ||
             (e.Seat? && Gate(sys, e.family).None? &&
              after.seated == sys.seated + [Seating(e.family, |sys.ledger|, sys.marks)] &&
              Asked(sys, e.family).found <= after.found))
  {
    hide Refolded, Marked, Pruned, FoundIn, Gate, HeldOn;
  }

  /** Every seat was taken past a released gate, on families some fold had read. */
  ghost predicate SeatsAreReleased(sys: System) {
    forall i :: 0 <= i < |sys.seated| ==>
                  Released(sys.seated[i], sys.ledger, sys.found) &&
                  Authentic(sys.seated[i].marks, sys.ledger, sys.read)
  }

  lemma ReleasedStays(seating: Seating, ledger: seq<Entry>, more: seq<Entry>, found: set<(Name, int)>,
                      found': set<(Name, int)>)
    requires Released(seating, ledger, found) && ledger <= more && found <= found'
    ensures Released(seating, more, found')
  {
    hide NeverHolds;
  }

  lemma AuthenticGrows(marks: seq<Option<Name>>, ledger: seq<Entry>, longer: seq<Entry>, read: seq<Registry>,
                       more: seq<Registry>)
    requires Authentic(marks, ledger, read) && ledger <= longer && read <= more
    ensures Authentic(marks, longer, more)
  {
    hide ReadAs;
    forall i | 0 <= i < |marks| ensures ReadAs(more, longer, i, marks[i]) {
      ReadAsStays(read, more, ledger, longer, i, marks[i]);
    }
  }

  lemma EventReleases(sys: System, e: Event)
    requires Sound(sys) && Possible(sys, e) && SeatsAreReleased(sys)
    ensures SeatsAreReleased(After(sys, e))
  {
    hide After, Released, Authentic, Asked, Gate, Faithful;
    var after := After(sys, e);
    LedgerGrows(sys, e);
    if after.seated != sys.seated {
      OpenGateFoundAll(sys, e.family);
    }
    forall i | 0 <= i < |after.seated|
      ensures Released(after.seated[i], after.ledger, after.found)
      ensures Authentic(after.seated[i].marks, after.ledger, after.read)
    {
      if i < |sys.seated| {
        assert after.seated[i] == sys.seated[i];
        ReleasedStays(sys.seated[i], sys.ledger, after.ledger, sys.found, after.found);
        AuthenticGrows(sys.seated[i].marks, sys.ledger, after.ledger, sys.read, after.read);
      } else {
        ReleasedStays(after.seated[i], sys.ledger, after.ledger, Asked(sys, e.family).found, after.found);
        AuthenticGrows(sys.marks, sys.ledger, after.ledger, sys.read, after.read);
      }
    }
  }

  function Ran(sys: System, events: seq<Event>): System
    decreases |events|
  {
    if events == [] then sys else Ran(After(sys, events[0]), events[1..])
  }

  predicate AllPossible(sys: System, events: seq<Event>)
    decreases |events|
  {
    events != [] ==> Possible(sys, events[0]) && AllPossible(After(sys, events[0]), events[1..])
  }

  lemma {:induction false} RunReleases(sys: System, events: seq<Event>)
    requires Sound(sys) && SeatsAreReleased(sys) && AllPossible(sys, events)
    ensures Sound(Ran(sys, events)) && SeatsAreReleased(Ran(sys, events))
    decreases |events|
  {
    hide Sound, SeatsAreReleased, Possible, After;
    if events != [] {
      EventIsSound(sys, events[0]);
      EventReleases(sys, events[0]);
      RunReleases(After(sys, events[0]), events[1..]);
    }
  }

  lemma StartIsSound()
    ensures Sound(STARTED) && SeatsAreReleased(STARTED)
  {
    NewIsFaithful({}, false);
    assert STARTED.ledger[..0] == [];
  }

  /** A demoted probe holds its family. In every run of passes, with demotions between them, folds and
      prunes that fail, agents read anew by each fold, and state that is lost: whenever a probe of a family
      is seated, each row before that which the last fold had put under the family -- as some fold read it --
      has had some pass find the family's record since that very demotion turned, and a row not folded yet
      holds no family. */
  lemma DemotedProbeHoldsItsFamily(events: seq<Event>)
    requires AllPossible(STARTED, events)
    ensures var sys := Ran(STARTED, events);
            forall i :: 0 <= i < |sys.seated| ==>
                          Released(sys.seated[i], sys.ledger, sys.found) &&
                          Authentic(sys.seated[i].marks, sys.ledger, sys.read)
  {
    StartIsSound();
    RunReleases(STARTED, events);
  }

  /** Every fold of the run reads the row to hold the family. */
  ghost predicate AlwaysReadAs(read: seq<Registry>, ledger: seq<Entry>, i: nat, family: Name)
    requires i < |ledger|
  {
    read != [] && forall j :: 0 <= j < |read| ==> DemotedAt(ledger, i, read[j]) == Some(family)
  }

  lemma AlwaysIsReleased(seating: Seating, ledger: seq<Entry>, found: set<(Name, int)>, read: seq<Registry>, i: nat)
    requires Released(seating, ledger, found) && Authentic(seating.marks, ledger, read)
    requires i < seating.rows && AlwaysReadAs(read, ledger, i, seating.family)
    ensures (seating.family, ledger[i].seqNo) in found
  {
    hide StatesOf, HoldOf, NeverHolds;
    NeverHeld(ledger, i, read[0]);
    if i < |seating.marks| {
      assert ReadAs(read, ledger, i, seating.marks[i]);
      var j :| 0 <= j < |read| && DemotedAt(ledger, i, read[j]) == seating.marks[i];
    }
  }

  lemma NeverHeld(ledger: seq<Entry>, i: nat, reg: Registry)
    requires i < |ledger|
    ensures NeverHolds(ledger[i]) ==> DemotedAt(ledger, i, reg).None?
  {
    hide StatesOf;
  }

  /** So a funded probe's demotion every fold reads to hold a family -- one no rewrite has touched, or one the
      agent's own rows name -- was found turned before any later seat of that family. */
  lemma NamedDemotionIsReleased(events: seq<Event>)
    requires AllPossible(STARTED, events)
    ensures var sys := Ran(STARTED, events);
            forall s, i :: 0 <= s < |sys.seated| && 0 <= i < sys.seated[s].rows <= |sys.ledger| &&
                           AlwaysReadAs(sys.read, sys.ledger, i, sys.seated[s].family) ==>
                             (sys.seated[s].family, sys.ledger[i].seqNo) in sys.found
  {
    hide Ran, Released, Authentic, AlwaysReadAs, Sound, After, Possible;
    StartIsSound();
    RunReleases(STARTED, events);
    var sys := Ran(STARTED, events);
    forall s, i | 0 <= s < |sys.seated| && 0 <= i < sys.seated[s].rows <= |sys.ledger| &&
                  AlwaysReadAs(sys.read, sys.ledger, i, sys.seated[s].family)
      ensures (sys.seated[s].family, sys.ledger[i].seqNo) in sys.found
    {
      AlwaysIsReleased(sys.seated[s], sys.ledger, sys.found, sys.read, i);
    }
  }

  // ------------------------------------------------------------------ refolding is the safe side

  ghost predicate InSequence(ledger: seq<Entry>) {
    forall i, j :: 0 <= i < j < |ledger| ==> ledger[i].seqNo < ledger[j].seqNo
  }

  /** The demotion of a row that is read to hold the family now. */
  ghost predicate MadeNow(ledger: seq<Entry>, reg: Registry, family: Name, d: Demotion) {
    exists i :: 0 <= i < |ledger| && DemotedAt(ledger, i, reg) == Some(family) && d == DemotionOf(ledger[i])
  }

  /** What a fold of the whole ledger holds, of which no pass has found any turned: every demotion, under the
      family it is read to hold. */
  lemma FoldHasEvery(k: Kept, marks: seq<Option<Name>>, ledger: seq<Entry>, reg: Registry, family: Name, d: Demotion)
    requires InSequence(ledger) && Faithful(k, ledger, marks, {}) && MadeNow(ledger, reg, family, d)
    requires forall i :: 0 <= i < |ledger| ==> marks[i] == DemotedAt(ledger, i, reg)
    ensures d in HeldOn(k.holds, family)
  {
    hide HoldOf, StatesOf, DemotedAt, Increasing, DemotionOf;
    var held := HeldOn(k.holds, family);
    var i :| 0 <= i < |ledger| && DemotedAt(ledger, i, reg) == Some(family) && d == DemotionOf(ledger[i]);
    assert Accounted(k.holds, family, ledger[i].seqNo, {});
    var j :| 0 <= j < |held| && held[j].seqNo == ledger[i].seqNo;
    assert held[j] in held;
    hide Faithful, Made;
    MadeOnce(ledger, marks, family, held[j], i);
  }

  /** Positions are never shared, so a demotion made at a row's position was made by that row. */
  lemma MadeOnce(ledger: seq<Entry>, marks: seq<Option<Name>>, family: Name, d: Demotion, i: nat)
    requires InSequence(ledger) && |marks| == |ledger| && Made(ledger, marks, family, d)
    requires i < |ledger| && ledger[i].seqNo == d.seqNo
    ensures d == DemotionOf(ledger[i])
  {}

  /** And nothing else. */
  lemma FoldHasJust(k: Kept, marks: seq<Option<Name>>, ledger: seq<Entry>, reg: Registry, family: Name, d: Demotion)
    requires InSequence(ledger) && Faithful(k, ledger, marks, {})
    requires forall i :: 0 <= i < |ledger| ==> marks[i] == DemotedAt(ledger, i, reg)
    ensures MadeNow(ledger, reg, family, d) <==> d in HeldOn(k.holds, family)
  {
    hide DemotedAt, Increasing, Accounted, InSequence, StatesOf, DemotionOf, HeldOn;
    if MadeNow(ledger, reg, family, d) {
      FoldHasEvery(k, marks, ledger, reg, family, d);
    }
    if d in HeldOn(k.holds, family) {
      assert Made(ledger, marks, family, d);
    }
  }

  lemma PrunedHas(holds: Holds, more: Holds, reading: Reading, family: Name, d: Demotion)
    ensures d in HeldOn(Pruned(holds, reading), family) ==>
              (d in HeldOn(Pruned(more, reading), family) <==> d in HeldOn(more, family))
  {
    hide Pending, Turned, Pruned;
    PrunedHeld(holds, reading, family);
    PrunedHeld(more, reading, family);
    PendingIs(HeldOn(holds, family), reading, family);
    PendingIs(HeldOn(more, family), reading, family);
  }

  /** A fold of the whole ledger is the fold from nothing. */
  lemma RebuiltIs(ledger: seq<Entry>, rule: Rule, reg: Registry)
    ensures var k, marks := Refolded(NEW, ledger, rule, reg), Marked(NEW, [], ledger, rule, reg);
            Faithful(k, ledger, marks, {}) && forall i :: 0 <= i < |ledger| ==> marks[i] == DemotedAt(ledger, i, reg)
  {
    NewIsFaithful({}, false);
    assert ledger[..0] == [];
    RefoldedIsFaithful(NEW, [], ledger, rule, {}, reg);
    MarkedAre(NEW, [], ledger, rule, reg);
    hide Faithful, Refolded, Marked, DemotedAt;
  }

  /** Refolding is the safe side: after any run, a House that lost its state and reads the whole ledger
      again at its next pass still holds every demotion the uninterrupted one holds, exactly where the pass
      reads the row to hold that family. */
  lemma RebuiltHoldsNoLess(events: seq<Event>, pass: Event)
    requires AllPossible(STARTED, events) && pass.Begin? && pass.folds && pass.prunes
    requires InSequence(Ran(STARTED, events).ledger)
    ensures var sys := Ran(STARTED, events);
            var kept, rebuilt := After(sys, pass).kept, After(After(sys, Lose), pass).kept;
            forall f, d :: d in HeldOn(kept.holds, f) ==>
                             (d in HeldOn(rebuilt.holds, f) <==> MadeNow(sys.ledger, pass.reg, f, d))
  {
    var sys := Ran(STARTED, events);
    var rule := pass.reading.rule;
    var before, whole := Refolded(sys.kept, sys.ledger, rule, pass.reg), Refolded(NEW, sys.ledger, rule, pass.reg);
    RebuiltIs(sys.ledger, rule, pass.reg);
    hide Refolded, Marked, Faithful, Pruned, Ran, MadeNow, InSequence, FoundIn;
    forall f, d
      ensures MadeNow(sys.ledger, pass.reg, f, d) <==> d in HeldOn(whole.holds, f)
      ensures d in HeldOn(Pruned(before.holds, pass.reading), f) ==>
                (d in HeldOn(Pruned(whole.holds, pass.reading), f) <==> d in HeldOn(whole.holds, f))
    {
      FoldHasJust(whole, Marked(NEW, [], sys.ledger, rule, pass.reg), sys.ledger, pass.reg, f, d);
      PrunedHas(before.holds, whole.holds, pass.reading, f, d);
    }
  }
}
