/** What the probe gate reads, told by the rows and the blocks alone (league/allocator.py `fold_demotions`,
    `_turned`, `probe_gate`): which row holds which family, and which blocks a record turns on. */
module ProbeLaws {
  import opened Wrappers
  import opened ProbeHolds
  import opened ProbeRuns
  import opened Totals

  // ------------------------------------------------------------------ which row holds a family

  predicate Gives(row: Row, home: Home) {
    row.Record? && row.home == home && row.state.Some?
  }

  function Given(row: Row): Option<FamilyState> {
    if row.Record? then row.state else None
  }

  /** Row `i` is the last that gives the family a state. */
  predicate GivesLast(rows: seq<Entry>, i: nat, home: Home) {
    i < |rows| && Gives(rows[i].row, home) && forall j :: i < j < |rows| ==> !Gives(rows[j].row, home)
  }

  /** The state the ledger last gave a family at a venue. */
  ghost predicate LastGiven(rows: seq<Entry>, home: Home, state: FamilyState) {
    exists i: nat :: GivesLast(rows, i, home) && Given(rows[i].row) == Some(state)
  }

  lemma RecordIs(states: States, row: Row, home: Home)
    ensures Gives(row, home) ==> home in AfterRecord(states, row) && Given(row) == Some(AfterRecord(states, row)[home])
    ensures !Gives(row, home) ==>
              (home in AfterRecord(states, row) <==> home in states) &&
              (home in states ==> AfterRecord(states, row)[home] == states[home])
  {}

  lemma {:induction false} StatesAreLastGiven(rows: seq<Entry>, home: Home)
    ensures if home in StatesOf(rows) then LastGiven(rows, home, StatesOf(rows)[home])
            else forall i :: 0 <= i < |rows| ==> !Gives(rows[i].row, home)
  {
    hide Gives, Given, AfterRecord;
    if rows != [] {
      var front, e := rows[..|rows| - 1], rows[|rows| - 1];
      StatesAreLastGiven(front, home);
      RecordIs(StatesOf(front), e.row, home);
      if Gives(e.row, home) {
        assert GivesLast(rows, |rows| - 1, home);
      } else if home in StatesOf(front) {
        var i: nat :| GivesLast(front, i, home) && Given(front[i].row) == Some(StatesOf(front)[home]);
        assert GivesLast(rows, i, home);
      }
    }
  }

  /** The family an agent's row is of: the one its own rows name there, or else the one it carries. */
  function FamilyOf(reg: Registry, agent: Name, seqNo: int, carried: Home): Name {
    match reg.familyAt(agent, seqNo)
    case Some(named) => named
    case None => carried.family
  }

  /** A row of the ledger holds a family exactly where it demotes a funded agent from real money to practice and
      the agent was a probe: the row says so, or says no band and the family was last on record as unproven
      at the agent's venue. */
  lemma HoldsExactly(ledger: seq<Entry>, i: nat, reg: Registry, family: Name)
    requires i < |ledger|
    ensures DemotedAt(ledger, i, reg) == Some(family) <==>
            ledger[i].row.Verdict? &&
            var v := ledger[i].row;
            v.demote && !v.unfunded && v.fromRung == 2 && v.toRung <= 1 &&
            reg.familyOf(v.agent).Some? &&
            FamilyOf(reg, v.agent, ledger[i].seqNo, reg.familyOf(v.agent).value) == family &&
            (v.band == Some(Probe) ||
             (v.band.None? && LastGiven(ledger[..i], Home(family, reg.familyOf(v.agent).value.venue), Unproven)))
  {
    hide StatesOf, LastGiven;
    if ledger[i].row.Verdict? && reg.familyOf(ledger[i].row.agent).Some? {
      var home := Home(family, reg.familyOf(ledger[i].row.agent).value.venue);
      StatesAreLastGiven(ledger[..i], home);
      OneLastState(ledger[..i], home);
    }
  }

  /** A row no fold could hold a family by is one of another kind, no demotion, of an agent never funded, not from
      real money to practice, or of a band above a probe's. */
  lemma NeverHoldsExactly(e: Entry)
    ensures NeverHolds(e) <==> forall states, reg :: HoldOf(e, states, reg) == None
  {
    if !NeverHolds(e) {
      var home := Home(e.row.agent, e.row.agent);
      var reg := Registry(_ => Some(home), (_, _) => None);
      assert HoldOf(e, map[home := Unproven], reg) == Some(home.family);
    }
  }

  lemma OneLastState(rows: seq<Entry>, home: Home)
    ensures forall a, b :: LastGiven(rows, home, a) && LastGiven(rows, home, b) ==> a == b
    ensures (forall i :: 0 <= i < |rows| ==> !Gives(rows[i].row, home)) ==> forall a :: !LastGiven(rows, home, a)
  {
    hide Gives, Given;
  }

  // ------------------------------------------------------------------ which blocks a record turns on

  /** The blocks begun after a ledger position, one by one. */
  function Counts(seqNo: int): Block -> real {
    (b: Block) => if b.began > seqNo then 1.0 else 0.0
  }

  function Grows(seqNo: int): Block -> real {
    (b: Block) => if b.began > seqNo then b.growth else 0.0
  }

  lemma {:induction false} SinceIs(record: seq<Block>, seqNo: int, n: nat)
    requires n <= |record|
    ensures |Since(record[..n], seqNo)| as real == TotalTo(record, Counts(seqNo), n)
    ensures Growth(Since(record[..n], seqNo)) == TotalTo(record, Grows(seqNo), n)
  {
    hide Growth, Since, TotalTo;
    if n > 0 {
      SinceIs(record, seqNo, n - 1);
      SinceAppend(record[..n - 1], seqNo, record[n - 1]);
      assert record[..n] == record[..n - 1] + [record[n - 1]];
      NextTo(record, Counts(seqNo), n);
      NextTo(record, Grows(seqNo), n);
    } else {
      NothingSince(seqNo);
      NothingTo(record, Counts(seqNo));
      NothingTo(record, Grows(seqNo));
      assert record[..n] == [];
    }
  }

  lemma NextTo(record: seq<Block>, weight: Block -> real, n: nat)
    requires 0 < n <= |record|
    ensures TotalTo(record, weight, n) == TotalTo(record, weight, n - 1) + weight(record[n - 1])
  {}

  lemma NothingTo(record: seq<Block>, weight: Block -> real)
    ensures TotalTo(record, weight, 0) == 0.0
  {}

  lemma NothingSince(seqNo: int)
    ensures Since([], seqNo) == [] && Growth([]) == 0.0
  {}

  lemma SinceAppend(front: seq<Block>, seqNo: int, b: Block)
    ensures Since(front + [b], seqNo) == if b.began > seqNo then Since(front, seqNo) + [b] else Since(front, seqNo)
    ensures Growth(Since(front + [b], seqNo)) == Growth(Since(front, seqNo)) + if b.began > seqNo then b.growth else 0.0
  {
    assert (front + [b])[..|front|] == front;
    assert Since(front, seqNo) + [] == Since(front, seqNo);
    GrowthAppend(Since(front, seqNo), b);
  }

  /** And they are the blocks themselves. */
  lemma {:induction false} SinceHas(record: seq<Block>, seqNo: int)
    ensures forall b :: b in Since(record, seqNo) <==> b in record && b.began > seqNo
  {
    if record != [] {
      var front, last := record[..|record| - 1], record[|record| - 1];
      SinceHas(front, seqNo);
      assert record == front + [last];
      SinceAppend(front, seqNo, last);
    }
  }

  lemma GrowthAppend(blocks: seq<Block>, b: Block)
    ensures Growth(blocks + [b]) == Growth(blocks) + b.growth
  {
    assert (blocks + [b])[..|blocks|] == blocks;
  }

  /** Under the summed rule a family's record since a demotion has turned exactly where the blocks begun after it
      are enough and have grown together by at least a billionth. */
  lemma TurnedOnItsSum(reading: Reading, family: Name, seqNo: int)
    requires reading.rule.GainSince?
    ensures var record := if family in reading.records then reading.records[family] else [];
            Turned(reading, family, seqNo) <==>
            Total(record, Counts(seqNo)) >= reading.rule.minimum as real &&
            Total(record, Grows(seqNo)) >= 0.000000001
  {
    var record := if family in reading.records then reading.records[family] else [];
    SinceIs(record, seqNo, |record|);
    assert record[..|record|] == record;
  }

  function CountsIn(period: Name): Block -> real {
    (b: Block) => if b.period == period then 1.0 else 0.0
  }

  function GrowsIn(period: Name): Block -> real {
    (b: Block) => if b.period == period then b.growth else 0.0
  }

  lemma {:induction false} OfIs(blocks: seq<Block>, period: Name, n: nat)
    requires n <= |blocks|
    ensures |Of(blocks[..n], period)| as real == TotalTo(blocks, CountsIn(period), n)
    ensures Growth(Of(blocks[..n], period)) == TotalTo(blocks, GrowsIn(period), n)
    ensures Of(blocks[..n], period) != [] <==> exists i :: 0 <= i < n && blocks[i].period == period
  {
    if n > 0 {
      OfIs(blocks, period, n - 1);
      var front, b := blocks[..n - 1], blocks[n - 1];
      assert blocks[..n][..n - 1] == front;
      assert Of(front, period) + [] == Of(front, period);
      GrowthAppend(Of(front, period), b);
    }
  }

  lemma {:induction false} PeriodsAre(blocks: seq<Block>)
    ensures forall p :: p in Periods(blocks) <==> exists i :: 0 <= i < |blocks| && blocks[i].period == p
    ensures forall i, j :: 0 <= i < j < |Periods(blocks)| ==> Periods(blocks)[i] != Periods(blocks)[j]
  {
    if blocks != [] {
      PeriodsAre(blocks[..|blocks| - 1]);
      var last := blocks[|blocks| - 1];
      assert blocks == blocks[..|blocks| - 1] + [last];
    }
  }

  /** The observations of a record: each period of its blocks once, at the mean of the period's blocks. */
  lemma ObservationsAre(blocks: seq<Block>)
    ensures |Means(blocks)| == |Periods(blocks)|
    ensures forall p :: p in Periods(blocks) <==> exists i :: 0 <= i < |blocks| && blocks[i].period == p
    ensures forall i, j :: 0 <= i < j < |Periods(blocks)| ==> Periods(blocks)[i] != Periods(blocks)[j]
    ensures forall i :: 0 <= i < |Periods(blocks)| ==>
                          var period := Periods(blocks)[i];
                          Total(blocks, CountsIn(period)) > 0.0 &&
                          Means(blocks)[i] * Total(blocks, CountsIn(period)) == Total(blocks, GrowsIn(period))
  {
    hide Periods, Of, Means, Growth, Mean, Total;
    PeriodsAre(blocks);
    MeansAt(blocks);
    forall i | 0 <= i < |Periods(blocks)|
      ensures var period := Periods(blocks)[i];
              Total(blocks, CountsIn(period)) > 0.0 &&
              Means(blocks)[i] * Total(blocks, CountsIn(period)) == Total(blocks, GrowsIn(period))
    {
      PeriodIs(blocks, Periods(blocks)[i]);
    }
  }

  lemma MeansAt(blocks: seq<Block>)
    ensures |Means(blocks)| == |Periods(blocks)|
    ensures forall i :: 0 <= i < |Periods(blocks)| ==> Means(blocks)[i] == Mean(Of(blocks, Periods(blocks)[i]))
  {
    hide Mean, Of, Periods;
  }

  lemma PeriodIs(blocks: seq<Block>, period: Name)
    requires period in Periods(blocks)
    ensures Total(blocks, CountsIn(period)) > 0.0
    ensures Mean(Of(blocks, period)) * Total(blocks, CountsIn(period)) == Total(blocks, GrowsIn(period))
  {
    hide Mean, Growth, Of, Periods;
    PeriodsAre(blocks);
    OfIs(blocks, period, |blocks|);
    assert blocks[..|blocks|] == blocks;
    MeanIs(Of(blocks, period));
  }

  lemma MeanIs(blocks: seq<Block>)
    requires blocks != []
    ensures Mean(blocks) * |blocks| as real == Growth(blocks)
  {}

  /** Under the bound rule it has turned exactly where the periods of the blocks begun after it are two or more
      and enough, and the lower bound of one observation a period is above nothing. */
  lemma TurnedOnItsBound(reading: Reading, family: Name, seqNo: int)
    requires reading.rule.BoundSince?
    ensures var record := if family in reading.records then reading.records[family] else [];
            var since := Since(record, seqNo);
            (forall b :: b in since <==> b in record && b.began > seqNo) &&
            (Turned(reading, family, seqNo) <==>
             |Periods(since)| >= 2 && |Periods(since)| >= reading.rule.minimum &&
             reading.rule.lower(Means(since)) > 0.000000000001)
  {
    var record := if family in reading.records then reading.records[family] else [];
    SinceHas(record, seqNo);
    ObservationsAre(Since(record, seqNo));
  }

  /** Why the gate is closed: the record cannot be read; or it lost, over enough blocks of the whole of it, a
      billionth or more; or a demotion of the family has not turned, of which the earliest is said. */
  lemma ClosedExactly(holds: Holds, fault: bool, reading: Reading, family: Name)
    requires Increasing(HeldOn(holds, family))
    ensures var record := if family in reading.records then reading.records[family] else [];
            var losing := |record| >= reading.rule.minimum && Total(record, Own()) <= -0.000000001;
            var closed := GateOf(holds, fault, reading, family);
            (closed == Some(Unreadable) <==> fault) &&
            (closed == Some(LosingFamily) <==> !fault && losing) &&
            (closed.Some? && closed.value.Held? <==>
             !fault && !losing && exists d :: d in HeldOn(holds, family) && !Turned(reading, family, d.seqNo)) &&
            (closed.Some? && closed.value.Held? ==>
               var first := closed.value.earliest;
               first in HeldOn(holds, family) && !Turned(reading, family, first.seqNo) &&
               forall d :: d in HeldOn(holds, family) && !Turned(reading, family, d.seqNo) ==>
                             first.seqNo <= d.seqNo)
  {
    hide Turned;
    var record, held := if family in reading.records then reading.records[family] else [], HeldOn(holds, family);
    GrowthIs(record, |record|);
    assert record[..|record|] == record;
    PendingIs(held, reading, family);
    PendingInOrder(held, reading, family);
    var pending := Pending(held, reading, family);
    forall d | d in pending ensures pending[0].seqNo <= d.seqNo {
      var j :| 0 <= j < |pending| && pending[j] == d;
    }
    if pending != [] {
      assert pending[0] in pending;
    }
  }

  function Own(): Block -> real {
    (b: Block) => b.growth
  }

  lemma {:induction false} GrowthIs(blocks: seq<Block>, n: nat)
    requires n <= |blocks|
    ensures Growth(blocks[..n]) == TotalTo(blocks, Own(), n)
  {
    if n > 0 {
      GrowthIs(blocks, n - 1);
      assert blocks[..n][..n - 1] == blocks[..n - 1];
    }
  }
}
