/** What readings make of a meter (league/campaigns.py `observe_spend`, `observe_month`): a figure that fell
    fails it, a month's reading records its own line, and over every run the monthly meter is the sum, month by
    month, of the largest spend any reading told of it. */
module CampaignMeters {
  import opened Wrappers
  import opened Sums
  import opened CampaignStore
  import opened CampaignRuns
  import Calendar

  // ------------------------------------------------------------------ one reading

  /** Nothing but the kind's own meter, health, balance and month. */
  predicate OnlyThisKind(s: Store, after: Store, kind: Kind) {
    after.commitments == s.commitments && after.burst == s.burst && after.topUps == s.topUps &&
    after.bonus == s.bonus && after.responses == s.responses &&
    after.meters - {kind} == s.meters - {kind} && after.health - {kind} == s.health - {kind} &&
    after.balances - {kind} == s.balances - {kind} && after.months - {kind} == s.months - {kind}
  }

  /** A spend reading sets the meter, or, where the figure fell, fails it and leaves it as it was: not checked
      again, so the kind is not ready. */
  lemma SpendSetsOrFails(s: Store, now: int, kind: Kind, amount: nat)
    ensures var after := AfterSpend(s, now, kind, amount);
            OnlyThisKind(s, after, kind) && after.months == s.months && after.balances == s.balances &&
            kind in after.health &&
            if kind in s.meters && amount < s.meters[kind].latest then
              after.meters == s.meters && Failed(after, kind) &&
              (kind in s.health ==> after.health[kind].checked == s.health[kind].checked)
            else
              kind in after.meters && after.meters[kind].latest == amount &&
              after.meters[kind].baseline == (if kind in s.meters then s.meters[kind].baseline else amount) &&
              after.health[kind].checked == now && (Failed(after, kind) <==> Failed(s, kind))
  {
    SpendLeavesOthers(s, now, kind, amount);
    hide OnlyThisKind;
  }

  lemma OneEntry<T>(m: map<Kind, T>, kind: Kind, value: T)
    ensures m[kind := value] - {kind} == m - {kind}
  {}

  lemma SpendLeavesOthers(s: Store, now: int, kind: Kind, amount: nat)
    ensures OnlyThisKind(s, AfterSpend(s, now, kind, amount), kind)
  {
    hide Checked;
    OneEntry(s.meters, kind, Meter(amount, amount));
    if kind in s.meters {
      OneEntry(s.meters, kind, s.meters[kind].(latest := amount));
    }
    OneEntry(s.health, kind, Health(if kind in s.health then s.health[kind].checked else now, true));
    CheckedIsOne(s.health, kind, now);
  }

  lemma CheckedIsOne(health: map<Kind, Health>, kind: Kind, now: int)
    ensures Checked(health, kind, now) - {kind} == health - {kind}
  {
    OneEntry(health, kind, Health(now, kind in health && health[kind].failed));
  }

  /** A balance is recorded and the kind checked now. The first starts the feed: it starts a meter where there is
      none, and clears a failure once; a later one adds to the meter what the balance fell by, never what it rose. */
  lemma BalanceIsRead(s: Store, now: int, kind: Kind, amount: nat)
    ensures var after := AfterBalance(s, now, kind, amount);
            OnlyThisKind(s, after, kind) && after.months == s.months &&
            kind in after.balances && after.balances[kind] == amount &&
            kind in after.health && after.health[kind].checked == now &&
            (Failed(after, kind) <==> kind in s.balances && Failed(s, kind)) &&
            (kind in after.meters <==> kind in s.meters || kind !in s.balances) &&
            (kind in after.meters ==>
               after.meters[kind] ==
               if kind !in s.meters then Meter(0, 0)
               else
                 Meter(s.meters[kind].baseline,
                       s.meters[kind].latest +
                       if kind in s.balances && s.balances[kind] > amount then s.balances[kind] - amount else 0))
  {
    BalanceLeavesOthers(s, now, kind, amount);
    hide OnlyThisKind;
  }

  lemma BalanceLeavesOthers(s: Store, now: int, kind: Kind, amount: nat)
    ensures OnlyThisKind(s, AfterBalance(s, now, kind, amount), kind)
  {
    hide Checked;
    OneEntry(s.meters, kind, Meter(0, 0));
    if kind in s.meters && kind in s.balances && amount < s.balances[kind] {
      OneEntry(s.meters, kind, s.meters[kind].(latest := s.meters[kind].latest + s.balances[kind] - amount));
    }
    OneEntry(s.balances, kind, amount);
    OneEntry(s.health, kind, Health(now, false));
    CheckedIsOne(s.health, kind, now);
  }

  /** A month's reading is taken unless it is of an earlier month than the one on record, or contradicts itself;
      what it says of the month's own line is recorded as it is, with the commitments made by then, and the
      kind was checked now. */
  lemma MonthIsRecorded(s: Store, now: int, kind: Kind, r: Reading)
    ensures var after := AfterMonth(s, now, kind, r);
            OnlyThisKind(s, after, kind) && after.balances == s.balances &&
            if (r.previous.Some? && r.previous.value.month >= r.month) ||
               (if kind in s.months then r.month < s.months[kind].month
                else kind in s.meters || r.month < Calendar.YEAR_ONE)
            then after == s
            else
              kind in after.months && kind in after.health &&
              after.health[kind].checked == now && (Failed(after, kind) <==> Failed(s, kind)) &&
              var m := after.months[kind];
              m.month == r.month && m.spent == r.spent && m.cap == r.cap && m.at == now &&
              m.readingRow == |s.commitments|
  {
    hide Calendar.MonthStart, NextMonthMeter;
    if MonthAnswer(s, kind, r) == Done {
      NextMonthIs(s, kind, r);
      var after := AfterMonth(s, now, kind, r);
      assert after.meters - {kind} == s.meters - {kind};
      assert after.health - {kind} == s.health - {kind};
      assert after.months - {kind} == s.months - {kind};
    }
  }

  lemma NextMonthIs(s: Store, kind: Kind, r: Reading)
    requires MonthAnswer(s, kind, r) == Done
    ensures NextMonthMeter(s, kind, r).month == r.month
  {
    hide Calendar.MonthStart;
  }

  /** A month's reading raises its meter to what the months come to and never lowers it; the first starts it from
      nothing. The settled part is known once some reading of the month told it. */
  lemma MonthRaisesMeter(s: Store, now: int, kind: Kind, r: Reading)
    requires MonthAnswer(s, kind, r) == Done
    ensures var after := AfterMonth(s, now, kind, r);
            kind in after.months &&
            var m := after.months[kind];
            (kind in after.meters <==> kind in s.meters || kind !in s.months) &&
            (kind in after.meters ==>
               after.meters[kind].latest >= m.carried + m.high &&
               if kind in s.meters then
                 after.meters[kind].baseline == s.meters[kind].baseline &&
                 after.meters[kind].latest in {s.meters[kind].latest, m.carried + m.high} &&
                 after.meters[kind].latest >= s.meters[kind].latest
               else after.meters[kind] == Meter(0, m.carried + m.high)) &&
            (m.settledHigh.Some? <==>
             r.settled.Some? ||
             (kind in s.months && s.months[kind].month == r.month && s.months[kind].settledHigh.Some?))
  {
    hide Calendar.MonthStart;
  }

  /** The anchor a release is checked against stands at the first reading of a month that says what the gateway
      settled, with the commitments made by then, and stays there through the month. */
  lemma AnchorStaysThroughTheMonth(s: Store, now: int, kind: Kind, r: Reading)
    requires MonthAnswer(s, kind, r) == Done
    ensures var m := AfterMonth(s, now, kind, r).months[kind];
            if kind in s.months && s.months[kind].month == r.month && s.months[kind].anchor.Some?
            then m.anchor == s.months[kind].anchor
            else
              (m.anchor.Some? <==> m.settledHigh.Some?) &&
              (m.anchor.Some? ==>
                 m.anchor.value == Anchor(now, |s.commitments|, m.settledCarried + m.settledHigh.value))
  {
    hide Calendar.MonthStart;
  }

  // ------------------------------------------------------------------ a month's figure

  /** The reading turned the month: what it says of the month before is taken where that is the month on record
      or a later one. */
  predicate Turned(front: seq<Reading>, r: Reading) {
    front != [] && front[|front| - 1].month < r.month && r.previous.Some? &&
    front[|front| - 1].month <= r.previous.value.month
  }

  /** The two figures a reading tells of a month: its whole spend, and the settled part of it. */
  datatype Figure = Spend | SettledPart

  function Own(figure: Figure, r: Reading): nat {
    match figure
    case Spend => r.spent
    case SettledPart => if r.settled.Some? then r.settled.value else 0
  }

  function Ended(figure: Figure, f: Final): nat {
    match figure
    case Spend => f.spent
    case SettledPart => if f.settled.Some? then f.settled.value else 0
  }

  function FinalOf(figure: Figure, front: seq<Reading>, r: Reading, month: nat): nat {
    if Turned(front, r) && r.previous.value.month == month then Ended(figure, r.previous.value) else 0
  }

  /** The largest figure the readings told of a month, as theirs or as the one before. */
  function Shown(figure: Figure, rs: seq<Reading>, month: nat): nat {
    if rs == [] then 0
    else
      var front, r := rs[..|rs| - 1], rs[|rs| - 1];
      var own := if r.month == month then Own(figure, r) else 0;
      Max(Shown(figure, front, month), Max(own, FinalOf(figure, front, r, month)))
  }

  /** The figures of the months before `n`. */
  function AllShown(figure: Figure, rs: seq<Reading>, n: nat): nat {
    if n == 0 then 0 else AllShown(figure, rs, n - 1) + Shown(figure, rs, n - 1)
  }

  /** The month coverage began at: the last one read whose first reading did not close the month before it. */
  function FirstCovered(rs: seq<Reading>): nat
    requires rs != []
  {
    var front, r := rs[..|rs| - 1], rs[|rs| - 1];
    if front == [] || (front[|front| - 1].month < r.month &&
                       !(r.previous.Some? && r.previous.value.month == front[|front| - 1].month))
    then r.month else FirstCovered(front)
  }

  /** Readings a store takes: of no earlier month than the one before them, and telling of one earlier. */
  predicate InTurn(rs: seq<Reading>) {
    (forall i :: 0 <= i < |rs| && rs[i].previous.Some? ==> rs[i].previous.value.month < rs[i].month) &&
    (forall i, j :: 0 <= i < j < |rs| ==> rs[i].month <= rs[j].month)
  }

  lemma {:induction false} NothingShownYet(figure: Figure, rs: seq<Reading>, month: nat)
    requires InTurn(rs) && (rs != [] ==> rs[|rs| - 1].month < month)
    ensures Shown(figure, rs, month) == 0
  {
    if rs != [] {
      var front := rs[..|rs| - 1];
      assert InTurn(front);
      NothingShownYet(figure, front, month);
    }
  }

  lemma ShownAppend(figure: Figure, rs: seq<Reading>, r: Reading, month: nat)
    ensures Shown(figure, rs + [r], month) ==
            Max(Shown(figure, rs, month),
                Max(if r.month == month then Own(figure, r) else 0, FinalOf(figure, rs, r, month)))
  {
    assert (rs + [r])[..|rs|] == rs;
  }

  /** A reading leaves the figures of the months before the one on record as they were. */
  lemma {:induction false} EarlierStay(figure: Figure, rs: seq<Reading>, r: Reading, n: nat)
    requires rs != [] && InTurn(rs + [r]) && n <= rs[|rs| - 1].month
    ensures AllShown(figure, rs + [r], n) == AllShown(figure, rs, n)
  {
    if n > 0 {
      EarlierStay(figure, rs, r, n - 1);
      ShownAppend(figure, rs, r, n - 1);
      assert (rs + [r])[|rs| - 1].month <= (rs + [r])[|rs|].month;
    }
  }

  /** From the month on record to the reading's own nothing is shown but what the reading says of one before. */
  lemma {:induction false} BetweenIs(figure: Figure, rs: seq<Reading>, r: Reading, n: nat)
    requires rs != [] && InTurn(rs + [r]) && rs[|rs| - 1].month < n <= r.month
    ensures var month := rs[|rs| - 1].month;
            AllShown(figure, rs + [r], n) ==
            AllShown(figure, rs, month) + Max(Shown(figure, rs, month), FinalOf(figure, rs, r, month)) +
            if Turned(rs, r) && month < r.previous.value.month < n then Ended(figure, r.previous.value) else 0
    decreases n
  {
    var month := rs[|rs| - 1].month;
    ShownAppend(figure, rs, r, n - 1);
    assert InTurn(rs) by {
      assert forall i :: 0 <= i < |rs| ==> (rs + [r])[i] == rs[i];
    }
    if n == month + 1 {
      EarlierStay(figure, rs, r, month);
    } else {
      BetweenIs(figure, rs, r, n - 1);
      NothingShownYet(figure, rs, n - 1);
    }
  }

  // ------------------------------------------------------------------ the monthly meter

  function High(figure: Figure, m: MonthMeter): nat {
    match figure
    case Spend => m.high
    case SettledPart => if m.settledHigh.Some? then m.settledHigh.value else 0
  }

  function Carried(figure: Figure, m: MonthMeter): nat {
    match figure
    case Spend => m.carried
    case SettledPart => m.settledCarried
  }

  /** The month on record is the last one read; each high is that month's figure, and with what is carried it is
      every month's. Coverage is from the start of its first month, above what was carried by then. */
  ghost predicate Agrees(s: Store, kind: Kind, rs: seq<Reading>) {
    InTurn(rs) && (rs == [] <==> kind !in s.months) &&
    (rs != [] ==> Figures(s.months[kind], rs) && Covers(s.months[kind], rs))
  }

  ghost predicate Figures(m: MonthMeter, rs: seq<Reading>)
    requires rs != []
  {
    m.month == rs[|rs| - 1].month &&
    forall figure :: High(figure, m) == Shown(figure, rs, m.month) &&
                     Carried(figure, m) == AllShown(figure, rs, m.month)
  }

  ghost predicate Covers(m: MonthMeter, rs: seq<Reading>)
    requires rs != []
  {
    FirstCovered(rs) <= m.month && m.coversFrom == Calendar.MonthStart(FirstCovered(rs)) &&
    m.base == AllShown(Spend, rs, FirstCovered(rs))
  }

  lemma ReadingAgrees(s: Store, now: int, kind: Kind, r: Reading, rs: seq<Reading>)
    requires Agrees(s, kind, rs) && MonthAnswer(s, kind, r) == Done
    ensures Agrees(AfterMonth(s, now, kind, r), kind, rs + [r])
  {
    hide Calendar.MonthStart, AfterMonth, NextMonthMeter, Shown, AllShown, InTurn, MonthAnswer, Figures, Covers;
    StaysInTurn(s, kind, r, rs);
    MonthFigures(s, now, kind, r, Spend);
    FiguresGrow(s, now, kind, r, rs);
    CoverageGrows(s, now, kind, r, rs);
  }

  lemma FiguresGrow(s: Store, now: int, kind: Kind, r: Reading, rs: seq<Reading>)
    requires Agrees(s, kind, rs) && InTurn(rs + [r]) && MonthAnswer(s, kind, r) == Done
    requires rs != [] ==> rs[|rs| - 1].month <= r.month
    requires r.previous.Some? ==> r.previous.value.month < r.month
    ensures kind in AfterMonth(s, now, kind, r).months
    ensures Figures(AfterMonth(s, now, kind, r).months[kind], rs + [r])
  {
    hide Calendar.MonthStart, AfterMonth, NextMonthMeter, Shown, AllShown, InTurn, MonthAnswer, Covers;
    MonthFigures(s, now, kind, r, Spend);
    var m := AfterMonth(s, now, kind, r).months[kind];
    forall figure
      ensures High(figure, m) == Shown(figure, rs + [r], m.month)
      ensures Carried(figure, m) == AllShown(figure, rs + [r], m.month)
    {
      FigureGrows(s, now, kind, r, rs, figure);
    }
  }

  lemma FigureGrows(s: Store, now: int, kind: Kind, r: Reading, rs: seq<Reading>, figure: Figure)
    requires Agrees(s, kind, rs) && InTurn(rs + [r]) && MonthAnswer(s, kind, r) == Done
    requires rs != [] ==> rs[|rs| - 1].month <= r.month
    requires r.previous.Some? ==> r.previous.value.month < r.month
    ensures kind in AfterMonth(s, now, kind, r).months
    ensures var m := AfterMonth(s, now, kind, r).months[kind];
            m.month == r.month &&
            High(figure, m) == Shown(figure, rs + [r], r.month) &&
            Carried(figure, m) == AllShown(figure, rs + [r], r.month)
  {
    hide Calendar.MonthStart, AfterMonth, NextMonthMeter, Shown, AllShown, InTurn, MonthAnswer, Covers, High, Carried;
    MonthFigures(s, now, kind, r, figure);
    ShownAppend(figure, rs, r, r.month);
    if rs == [] {
      NoneBefore(figure, r, r.month);
      NothingShown(figure, r.month);
    } else if r.month == rs[|rs| - 1].month {
      EarlierStay(figure, rs, r, r.month);
    } else {
      BetweenIs(figure, rs, r, r.month);
      NothingShownYet(figure, rs, r.month);
    }
  }

  lemma CoverageGrows(s: Store, now: int, kind: Kind, r: Reading, rs: seq<Reading>)
    requires Agrees(s, kind, rs) && InTurn(rs + [r]) && MonthAnswer(s, kind, r) == Done
    requires rs != [] ==> rs[|rs| - 1].month <= r.month
    requires kind in AfterMonth(s, now, kind, r).months
    requires Figures(AfterMonth(s, now, kind, r).months[kind], rs + [r])
    ensures Covers(AfterMonth(s, now, kind, r).months[kind], rs + [r])
  {
    hide Calendar.MonthStart, AfterMonth, NextMonthMeter, Shown, AllShown, InTurn, MonthAnswer;
    MonthCovers(s, now, kind, r);
    assert (rs + [r])[..|rs|] == rs;
    if rs == [] {
      NoneBefore(Spend, r, r.month);
    } else {
      EarlierStay(Spend, rs, r, FirstCovered(rs));
      assert Carried(Spend, AfterMonth(s, now, kind, r).months[kind]) == AllShown(Spend, rs + [r], r.month);
    }
  }

  /** Where coverage begins after a reading. */
  lemma MonthCovers(s: Store, now: int, kind: Kind, r: Reading)
    requires MonthAnswer(s, kind, r) == Done
    ensures kind in AfterMonth(s, now, kind, r).months
    ensures var m := AfterMonth(s, now, kind, r).months[kind];
            if kind !in s.months then m.coversFrom == Calendar.MonthStart(r.month) && m.base == 0
            else
              var was := s.months[kind];
              if was.month == r.month || (r.previous.Some? && r.previous.value.month == was.month)
              then m.coversFrom == was.coversFrom && m.base == was.base
              else m.coversFrom == Calendar.MonthStart(r.month) && m.base == m.carried
  {
    hide Calendar.MonthStart;
  }

  lemma NothingShown(figure: Figure, month: nat)
    ensures Shown(figure, [], month) == 0
  {}

  lemma StaysInTurn(s: Store, kind: Kind, r: Reading, rs: seq<Reading>)
    requires Agrees(s, kind, rs) && MonthAnswer(s, kind, r) == Done
    ensures InTurn(rs + [r]) && (rs != [] ==> rs[|rs| - 1].month <= r.month)
    ensures r.previous.Some? ==> r.previous.value.month < r.month
  {
    hide Shown, AllShown;
    if rs != [] {
      assert forall i :: 0 <= i < |rs| ==> rs[i].month <= rs[|rs| - 1].month;
    }
  }

  /** What a reading makes of the month, its high and what is carried. */
  lemma MonthFigures(s: Store, now: int, kind: Kind, r: Reading, figure: Figure)
    requires MonthAnswer(s, kind, r) == Done
    ensures kind in AfterMonth(s, now, kind, r).months
    ensures var m := AfterMonth(s, now, kind, r).months[kind];
            m.month == r.month &&
            if kind !in s.months then High(figure, m) == Own(figure, r) && Carried(figure, m) == 0
            else
              var was := s.months[kind];
              if was.month == r.month
              then High(figure, m) == Max(High(figure, was), Own(figure, r)) &&
                   Carried(figure, m) == Carried(figure, was)
              else
                High(figure, m) == Own(figure, r) &&
                Carried(figure, m) ==
                Carried(figure, was) +
                (if r.previous.Some? && r.previous.value.month == was.month
                 then Max(High(figure, was), Ended(figure, r.previous.value)) else High(figure, was)) +
                (if r.previous.Some? && r.previous.value.month > was.month then Ended(figure, r.previous.value) else 0)
  {
    hide Calendar.MonthStart;
  }

  lemma {:induction false} NoneBefore(figure: Figure, r: Reading, n: nat)
    requires n <= r.month
    ensures AllShown(figure, [] + [r], n) == 0
  {
    if n > 0 {
      NoneBefore(figure, r, n - 1);
      ShownAppend(figure, [], r, n - 1);
    }
  }

  /** The readings of the kind's month a run takes, in order. */
  ghost function Taken(s: Store, moves: seq<Move>, kind: Kind): seq<Reading>
    decreases |moves|
  {
    if moves == [] then []
    else
      var step := moves[0].step;
      (if step.ObserveMonth? && step.kind == kind && MonthAnswer(s, kind, step.reading) == Done
       then [step.reading] else []) +
      Taken(Next(moves[0].policy, s, step), moves[1..], kind)
  }

  lemma OthersLeaveTheMonth(p: Policy, s: Store, step: Step, kind: Kind)
    requires !(step.ObserveMonth? && step.kind == kind && MonthAnswer(s, kind, step.reading) == Done)
    ensures var after := Next(p, s, step);
            (kind in after.months <==> kind in s.months) && (kind in s.months ==> after.months[kind] == s.months[kind])
  {
    hide Calendar.MonthStart, NextMonthMeter, Recorded, Sum;
    if !step.ObserveSpend? && !step.ObserveBalance? && !step.ObserveMonth? {
      OnlyReadingsMoveMeters(p, s, step);
      hide Next;
    }
  }

  lemma {:induction false} RunAgrees(s: Store, moves: seq<Move>, kind: Kind, rs: seq<Reading>)
    requires Agrees(s, kind, rs)
    ensures Agrees(Run(s, moves), kind, rs + Taken(s, moves, kind))
    decreases |moves|
  {
    hide Next, Agrees, MonthAnswer;
    if moves == [] {
      assert rs + [] == rs;
    } else {
      var p, step := moves[0].policy, moves[0].step;
      var mid, rest := Next(p, s, step), moves[1..];
      if step.ObserveMonth? && step.kind == kind && MonthAnswer(s, kind, step.reading) == Done {
        ReadingAgrees(s, step.now, kind, step.reading, rs);
        NextIsMonth(p, s, step);
        RunAgrees(mid, rest, kind, rs + [step.reading]);
        assert rs + ([step.reading] + Taken(mid, rest, kind)) == rs + [step.reading] + Taken(mid, rest, kind);
      } else {
        OthersLeaveTheMonth(p, s, step, kind);
        StillAgrees(s, mid, kind, rs);
        RunAgrees(mid, rest, kind, rs);
        assert [] + Taken(mid, rest, kind) == Taken(mid, rest, kind);
      }
    }
  }

  lemma NextIsMonth(p: Policy, s: Store, step: Step)
    requires step.ObserveMonth?
    ensures Next(p, s, step) == AfterMonth(s, step.now, step.kind, step.reading)
  {}

  lemma StillAgrees(s: Store, after: Store, kind: Kind, rs: seq<Reading>)
    requires Agrees(s, kind, rs) && (kind in after.months <==> kind in s.months)
    requires kind in s.months ==> after.months[kind] == s.months[kind]
    ensures Agrees(after, kind, rs)
  {}

  lemma NothingAgrees(kind: Kind)
    ensures Agrees(EMPTY, kind, [])
  {}

  /** In every run the monthly meter is exactly the months: the sum over all months up to the last one read of
      the largest spend any reading taken told of it, each counted once however often it was read, rose, fell
      or was told of again by the month after; and so is what the gateway settled of it. It covers from the start of
      the last month whose first reading did not close the one before, above the months until then. */
  lemma MonthlyMeterIsTheMonths(moves: seq<Move>, kind: Kind)
    ensures var s, rs := Run(EMPTY, moves), Taken(EMPTY, moves, kind);
            (kind in s.months <==> rs != []) &&
            (rs != [] ==>
               var m := s.months[kind];
               m.month == rs[|rs| - 1].month && m.carried + m.high == AllShown(Spend, rs, m.month + 1) &&
               m.settledCarried + (if m.settledHigh.Some? then m.settledHigh.value else 0) ==
               AllShown(SettledPart, rs, m.month + 1) &&
               m.coversFrom == Calendar.MonthStart(FirstCovered(rs)) && m.base == AllShown(Spend, rs, FirstCovered(rs)))
  {
    hide Run, Taken, InTurn, Shown, Calendar.MonthStart;
    NothingAgrees(kind);
    RunAgrees(EMPTY, moves, kind, []);
    assert [] + Taken(EMPTY, moves, kind) == Taken(EMPTY, moves, kind);
    if Taken(EMPTY, moves, kind) != [] {
      var m := Run(EMPTY, moves).months[kind];
      assert High(Spend, m) == m.high && Carried(Spend, m) == m.carried && Carried(SettledPart, m) == m.settledCarried;
    }
  }
}
