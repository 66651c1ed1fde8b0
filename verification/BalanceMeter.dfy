/** A provider metered by its prepaid balance (league/campaigns.py `observe_balance`): how far the meter
    is from what was really spent, over every run. */
module BalanceMeter {
  import opened Wrappers
  import opened Sums
  import opened CampaignStore
  import CampaignRuns

  /** What happened to the true account between two readings. */
  datatype Interval = Interval(spend: nat, topUp: nat)

  predicate FedByBalance(s: Store, kind: Kind) {
    kind in s.balances && kind in s.meters && kind !in s.months
  }

  predicate ReadsBalance(step: Step, kind: Kind) {
    step.ObserveBalance? && step.kind == kind
  }

  predicate Overwrites(step: Step, kind: Kind) {
    step.ObserveSpend? && step.kind == kind
  }

  /** The balances of `kind` a run read, in order. */
  function Balances(moves: seq<Move>, kind: Kind): seq<nat>
    decreases |moves|
  {
    if moves == [] then []
    else (if ReadsBalance(moves[0].step, kind) then [moves[0].step.amount] else []) + Balances(moves[1..], kind)
  }

  /** The falls between consecutive balances, the first from `last`. */
  function Falls(last: nat, balances: seq<nat>): nat
    decreases |balances|
  {
    if balances == [] then 0
    else (if balances[0] < last then last - balances[0] else 0) + Falls(balances[0], balances[1..])
  }

  /** The balances an account that opened at `balance` shows; None once a spend exceeds what it holds. */
  function Shown(balance: nat, intervals: seq<Interval>): Option<seq<nat>>
    decreases |intervals|
  {
    if intervals == [] then Some([])
    else if balance + intervals[0].topUp < intervals[0].spend then None
    else
      var next: nat := balance + intervals[0].topUp - intervals[0].spend;
      match Shown(next, intervals[1..])
      case Some(rest) => Some([next] + rest)
      case None => None
  }

  function Spend(): Interval -> int {
    (i: Interval) => i.spend
  }

  function Hidden(): Interval -> int {
    (i: Interval) => Min(i.spend, i.topUp)
  }

  lemma StepFeedsMeter(p: Policy, s: Store, step: Step, kind: Kind)
    requires FedByBalance(s, kind) && !Overwrites(step, kind)
    ensures var after := Next(p, s, step);
            FedByBalance(after, kind) && after.meters[kind].baseline == s.meters[kind].baseline &&
            if ReadsBalance(step, kind)
            then after.balances[kind] == step.amount &&
                 after.meters[kind].latest == s.meters[kind].latest + Max(0, s.balances[kind] - step.amount)
            else after.balances[kind] == s.balances[kind] && after.meters[kind] == s.meters[kind]
  {
    hide AfterSpend, AfterBalance, AfterMonth, AfterReserve, AfterSettle, AfterAbsorb, AfterActivation;
    match step
    case ObserveSpend(now, of, amount) => SpendFeedsOthers(s, now, of, amount, kind);
    case ObserveBalance(now, of, amount) => BalanceFeeds(s, now, of, amount, kind);
    case ObserveMonth(now, of, reading) => MonthFeedsOthers(s, now, of, reading, kind);
    case _ =>
      hide Next;
      CampaignRuns.OnlyReadingsMoveMeters(p, s, step);
  }

  predicate Untouched(s: Store, t: Store, kind: Kind)
    requires FedByBalance(s, kind)
  {
    FedByBalance(t, kind) && t.balances[kind] == s.balances[kind] && t.meters[kind] == s.meters[kind]
  }

  lemma SpendFeedsOthers(s: Store, now: int, of: Kind, amount: nat, kind: Kind)
    requires FedByBalance(s, kind) && of != kind
    ensures Untouched(s, AfterSpend(s, now, of, amount), kind)
  {}

  lemma BalanceFeeds(s: Store, now: int, of: Kind, amount: nat, kind: Kind)
    requires FedByBalance(s, kind)
    ensures var after := AfterBalance(s, now, of, amount);
            if of != kind then Untouched(s, after, kind)
            else FedByBalance(after, kind) && after.balances[kind] == amount &&
                 after.meters[kind].baseline == s.meters[kind].baseline &&
                 after.meters[kind].latest == s.meters[kind].latest + Max(0, s.balances[kind] - amount)
  {}

  lemma MonthFeedsOthers(s: Store, now: int, of: Kind, reading: CampaignStore.Reading, kind: Kind)
    requires FedByBalance(s, kind)
    ensures Untouched(s, AfterMonth(s, now, of, reading), kind)
  {
    hide NextMonthMeter, Recorded;
  }

  /** From the first balance on, whatever else the guard does, the meter has risen by exactly the falls
      between consecutive balances. */
  lemma {:induction false} MeterRisesByFalls(s: Store, moves: seq<Move>, kind: Kind)
    requires FedByBalance(s, kind)
    requires forall i :: 0 <= i < |moves| ==> !Overwrites(moves[i].step, kind)
    ensures var after := Run(s, moves);
            FedByBalance(after, kind) && after.meters[kind].baseline == s.meters[kind].baseline &&
            after.meters[kind].latest == s.meters[kind].latest + Falls(s.balances[kind], Balances(moves, kind))
    decreases |moves|
  {
    if moves != [] {
      hide Next;
      var mid := Next(moves[0].policy, s, moves[0].step);
      StepFeedsMeter(moves[0].policy, s, moves[0].step, kind);
      MeterRisesByFalls(mid, moves[1..], kind);
      if ReadsBalance(moves[0].step, kind) {
        var amount, rest := moves[0].step.amount, Balances(moves[1..], kind);
        assert Balances(moves, kind) == [amount] + rest && ([amount] + rest)[1..] == rest;
      } else {
        assert Balances(moves, kind) == Balances(moves[1..], kind);
      }
    }
  }

  lemma {:induction false} FallsAreNetSpend(balance: nat, intervals: seq<Interval>)
    requires Shown(balance, intervals).Some?
    ensures Falls(balance, Shown(balance, intervals).value) == Sum(intervals, Spend()) - Sum(intervals, Hidden())
    decreases |intervals|
  {
    if intervals != [] {
      var next: nat := balance + intervals[0].topUp - intervals[0].spend;
      var rest := Shown(next, intervals[1..]).value;
      assert ([next] + rest)[1..] == rest;
      FallsAreNetSpend(next, intervals[1..]);
      SumTail(intervals, Spend());
      SumTail(intervals, Hidden());
    }
  }

  lemma SumTail<T>(rows: seq<T>, weight: T -> int)
    requires rows != []
    ensures Sum(rows, weight) == weight(rows[0]) + Sum(rows[1..], weight)
  {
    SumToTail(rows, weight, |rows|);
  }

  lemma {:induction false} SumToTail<T>(rows: seq<T>, weight: T -> int, n: nat)
    requires 0 < n <= |rows|
    ensures SumTo(rows, weight, n) == weight(rows[0]) + SumTo(rows[1..], weight, n - 1)
  {
    if n > 1 {
      SumToTail(rows, weight, n - 1);
    }
  }

  /** The balance meter's exact error: against a true account it never exceeds the real spend, and it falls
      short of it by exactly what each interval's top-up hid; it is exact just when no interval has both. */
  lemma {:induction false} BalanceMeterIsShortByTopUps(s: Store, moves: seq<Move>, kind: Kind, intervals: seq<Interval>)
    requires FedByBalance(s, kind)
    requires forall i :: 0 <= i < |moves| ==> !Overwrites(moves[i].step, kind)
    requires Shown(s.balances[kind], intervals) == Some(Balances(moves, kind))
    ensures var after := Run(s, moves);
            kind in after.meters &&
            var rise, spent := after.meters[kind].latest - s.meters[kind].latest, Sum(intervals, Spend());
            0 <= rise == spent - Sum(intervals, Hidden()) && rise <= spent &&
            (rise == spent <==> forall i :: 0 <= i < |intervals| ==> intervals[i].spend == 0 || intervals[i].topUp == 0)
  {
    MeterRisesByFalls(s, moves, kind);
    FallsAreNetSpend(s.balances[kind], intervals);
    SumNonNegative(intervals, Hidden());
    HiddenIsZero(intervals, |intervals|);
  }

  lemma {:induction false} HiddenIsZero(intervals: seq<Interval>, n: nat)
    requires n <= |intervals|
    ensures 0 <= SumTo(intervals, Hidden(), n)
    ensures SumTo(intervals, Hidden(), n) == 0
       <==> forall i :: 0 <= i < n ==> intervals[i].spend == 0 || intervals[i].topUp == 0
  {
    if n > 0 {
      HiddenIsZero(intervals, n - 1);
    }
  }
}
