/** The band an agent's evidence asks for (league/allocator.py `target_band`, `bunt_ready`, `swing_ready`)
    and whether asking again on the same evidence ever stops. */
module Bands {
  import opened Wrappers

  datatype Band = Replay | Paper | Bunt | Swing

  datatype Rules = Rules(buntAt: real, hysteresis: real, buntMinTrades: int, buntMinSettled: int, swingAt: real,
                         swingMinWReal: real, swingExitWReal: real, swingMinTrades: int, drawdownDemote: real,
                         afterSettled: int)

  /** The record as it was read, whatever band it is asked in. `proven` is None where the rule does not ask
      for a proven family; `datesShort` says the swing's settlement dates fall short. */
  datatype Evidence = Evidence(e: real, paperTrades: int, eventBook: bool, paperSettled: int, wReal: real,
                               realTrades: int,
                               drawdown: real, stayClosed: int, cooling: bool, proven: Option<bool>, datesShort: bool)

  /** The thresholds as the constitution orders them. */
  predicate Ordinary(p: Rules) {
    0.0 <= p.buntAt && 0.0 <= p.swingAt && 0.0 <= p.hysteresis <= 1.0 && p.swingExitWReal <= p.swingMinWReal
  }

  predicate BuntReady(ev: Evidence, p: Rules) {
    (ev.paperTrades >= p.buntMinTrades || (ev.eventBook && ev.paperSettled >= p.buntMinSettled)) && ev.e >= p.buntAt
  }

  predicate SwingReady(ev: Evidence, p: Rules) {
    ev.e >= p.swingAt && ev.wReal >= p.swingMinWReal && ev.realTrades >= p.swingMinTrades
  }

  function Target(rung: Band, ev: Evidence, p: Rules): Band {
    match rung
    case Replay => Replay
    case Paper => if ev.cooling then Paper else if BuntReady(ev, p) then Bunt else Paper
    case _ =>
      if ev.drawdown >= p.drawdownDemote then Paper
      else if ev.e < p.buntAt * p.hysteresis && ev.stayClosed >= p.afterSettled then Paper
      else if ev.e < p.buntAt * p.hysteresis && rung == Bunt then Bunt
      else if rung == Bunt then
        (if SwingReady(ev, p) && !ev.cooling && ev.proven != Some(false) && !ev.datesShort then Swing else Bunt)
      else if ev.proven == Some(false) || ev.datesShort then Bunt
      else if ev.e < p.swingAt * p.hysteresis || ev.wReal < p.swingExitWReal then Bunt
      else Swing
  }

  /** An agent loses its real money on a drawdown past its line, or on evidence below the exit once enough has
      settled in the stay. */
  predicate Leaves(ev: Evidence, p: Rules) {
    ev.drawdown >= p.drawdownDemote || (ev.e < p.hysteresis * p.buntAt && ev.stayClosed >= p.afterSettled)
  }

  /** Each move, exactly: practice leads to real money once its record is long enough and its evidence at the
      entry, unless it cools; real money leads back to practice where it leaves; a bunt swings on evidence,
      wealth and trades at the swing's entry, and a swing goes back to a bunt below its exits, by a family
      not proven or by dates that fall short; replay stays. */
  lemma MovesExactly(ev: Evidence, p: Rules)
    requires Ordinary(p)
    ensures Target(Replay, ev, p) == Replay && Target(Paper, ev, p) in {Paper, Bunt}
    ensures Target(Paper, ev, p) == Bunt <==>
            !ev.cooling && ev.e >= p.buntAt &&
            (p.buntMinTrades <= ev.paperTrades || (ev.eventBook && p.buntMinSettled <= ev.paperSettled))
    ensures forall rung :: rung in {Bunt, Swing} ==>
                             Target(rung, ev, p) in {Paper, Bunt, Swing} &&
                             (Target(rung, ev, p) == Paper <==> Leaves(ev, p))
    ensures Target(Bunt, ev, p) == Swing <==>
            !Leaves(ev, p) && ev.e >= p.hysteresis * p.buntAt && ev.e >= p.swingAt &&
            ev.wReal >= p.swingMinWReal && ev.realTrades >= p.swingMinTrades && !ev.cooling &&
            ev.proven != Some(false) && !ev.datesShort
    ensures Target(Swing, ev, p) == Swing <==>
            !Leaves(ev, p) && ev.proven != Some(false) && !ev.datesShort &&
            ev.e >= p.hysteresis * p.swingAt && ev.wReal >= p.swingExitWReal
  {}

  /** A record drawn down past its line that practice would send straight back to real money. */
  predicate Cycles(ev: Evidence, p: Rules) {
    ev.drawdown >= p.drawdownDemote && !ev.cooling && BuntReady(ev, p)
  }

  lemma ExitsAreBelowEntries(p: Rules)
    requires Ordinary(p)
    ensures p.buntAt * p.hysteresis <= p.buntAt && p.swingAt * p.hysteresis <= p.swingAt
  {
    assert p.buntAt * (1.0 - p.hysteresis) >= 0.0;
    assert p.swingAt * (1.0 - p.hysteresis) >= 0.0;
  }

  /** Bands do not flap: with the thresholds in their order, asking on one record settles within two moves
      from every band -- if and only if the record is not drawn down past its line while practice would
      seat it again, and then it is never settled outside replay. */
  lemma BandsSettle(rung: Band, ev: Evidence, p: Rules)
    requires Ordinary(p)
    ensures var second := Target(Target(rung, ev, p), ev, p);
            Target(second, ev, p) == second <==> rung == Replay || !Cycles(ev, p)
    ensures rung != Replay && Cycles(ev, p) ==> Target(rung, ev, p) != rung
  {
    ExitsAreBelowEntries(p);
  }
}
