/** The venue's envelope (league/allocator.py `at_risk`, `headroom`, `_bunt`, `_size`; league/house.py
    `seat`; league/book.py `stake`): what the real accounts can still lose, and why no seat, raise, fill,
    settlement or correction spends more than the owner released. */
module Envelope {
  import opened Wrappers
  import opened Totals
  import opened Accounts

  const CENT := 0.01

  // ------------------------------------------------------------------ the account law

  ghost function CostOf(holdings: map<Key, Holding>): real
    decreases |holdings|
  {
    if holdings == map[] then 0.0
    else
      var k :| k in holdings;
      holdings[k].cost + CostOf(holdings - {k})
  }

  lemma {:induction false} CostWithout(holdings: map<Key, Holding>, key: Key)
    requires key in holdings
    ensures CostOf(holdings) == holdings[key].cost + CostOf(holdings - {key})
    decreases |holdings|
  {
    var k :| k in holdings && CostOf(holdings) == holdings[k].cost + CostOf(holdings - {k});
    if k != key {
      CostWithout(holdings - {k}, key);
      CostWithout(holdings - {key}, k);
      assert holdings - {k} - {key} == holdings - {key} - {k};
    }
  }

  lemma CostKept(holdings: map<Key, Holding>, key: Key, h: Holding)
    ensures CostOf(Keep(holdings, key, h))
         == CostOf(holdings) - (if key in holdings then holdings[key].cost else 0.0) +
            if h.quantity <= 0.0 then 0.0 else h.cost
  {
    var kept := Keep(holdings, key, h);
    if key in holdings {
      CostWithout(holdings, key);
    } else {
      assert holdings - {key} == holdings;
    }
    if h.quantity > 0.0 {
      CostWithout(kept, key);
      assert kept - {key} == holdings - {key};
    }
  }

  /** What the account's cash and cost are beyond its stakes and realized results. */
  ghost function Unexplained(a: State): real {
    a.cash + CostOf(a.holdings) - a.staked - a.realized
  }

  ghost predicate Lawful(a: State) {
    Unexplained(a) == 0.0
  }

  /** What a row leaves unexplained: cash no position moved with, a sale's cost beyond what was held, a
      payout on nothing held, a correction whose cash and costs are not its realized result. */
  ghost function Leaves(a: State, row: Row): real {
    match row
    case Stake(_) => 0.0
    case Filled(f) =>
      var h := HeldIn(a, f.key);
      if f.position == 0.0 then f.cash
      else if f.position > 0.0 then (if h.quantity + f.position <= 0.0 then f.cash - h.cost else 0.0)
      else if h.quantity + f.position <= 0.0 then Basis(h, -f.position) - h.cost
      else 0.0
    case Settled(key, payout) => if key in a.holdings then 0.0 else payout
    case Corrected(c) => c.cash + CostOf(Recosted(a.holdings, c)) - CostOf(a.holdings) - c.realized
  }

  /** The account law, to the cent: cash and cost are stakes and realized results but for what a row left
      unexplained. */
  lemma RowLeaves(a: State, row: Row)
    ensures Unexplained(Apply(a, row)) == Unexplained(a) + Leaves(a, row)
  {
    match row
    case Stake(_) =>
    case Filled(f) =>
      var h := HeldIn(a, f.key);
      CostKept(a.holdings, f.key, Bought(h, f));
      CostKept(a.holdings, f.key, Sold(h, f));
    case Settled(key, _) =>
      if key in a.holdings {
        CostWithout(a.holdings, key);
      } else {
        assert a.holdings - {key} == a.holdings;
      }
    case Corrected(_) =>
  }

  /** A sale of what is held, a purchase and a settlement of what is held keep the law. */
  lemma SaleOfHeldIsLawful(a: State, f: Fill)
    requires f.position < 0.0 && HeldIn(a, f.key).quantity + f.position >= 0.0
    requires HeldIn(a, f.key).quantity > 0.0
    ensures Leaves(a, Filled(f)) == 0.0
  {
    var h := HeldIn(a, f.key);
    if h.quantity + f.position == 0.0 {
      assert h.cost * h.quantity / h.quantity == h.cost;
    }
  }

  // ------------------------------------------------------------------ the envelope

  /** One agent's real account at the venue. `owed` is what `seat_stake` would lend it now, `reserved` the
      cash its resting buys hold. */
  datatype Seat = Seat(account: State, funded: bool, swept: bool, seated: bool, buying: bool, owed: real,
                       reserved: real)

  /** `cash` is what the venue holds, None until the book has been reconciled to it. */
  datatype Venue = Venue(grant: real, cash: Option<real>, seats: seq<Seat>)

  function Positive(x: real): real {
    if x > 0.0 then x else 0.0
  }

  /** A seat whose stake is owed and will be lent. */
  predicate IsOwed(s: Seat) {
    !s.funded || (s.swept && s.account.holdings == map[])
  }

  ghost function AtRisk(s: Seat): real {
    CostOf(s.account.holdings) +
    if s.seated then Positive(s.account.cash) + (if IsOwed(s) then s.owed else 0.0)
    else if s.buying then Positive(s.account.cash)
    else 0.0
  }

  /** What an account adds to the headroom: its realized result less what it can still lose. */
  ghost function Frees(): Seat -> real {
    (s: Seat) => s.account.realized - AtRisk(s)
  }

  /** The profit-indexed headroom. */
  ghost function Headroom(v: Venue): real {
    v.grant + Total(v.seats, Frees())
  }

  /** The headroom with one account's own risk left out, as `seat` asks it. */
  ghost function HeadroomBut(v: Venue, i: nat): real
    requires i < |v.seats|
  {
    Headroom(v) + AtRisk(v.seats[i])
  }

  function With(v: Venue, i: nat, s: Seat): Venue
    requires i < |v.seats|
  {
    v.(seats := v.seats[i := s])
  }

  lemma {:induction false} TotalToUpdate(seats: seq<Seat>, i: nat, s: Seat, n: nat)
    requires i < |seats| && n <= |seats|
    ensures TotalTo(seats[i := s], Frees(), n) == TotalTo(seats, Frees(), n) +
                                                  if i < n then Frees()(s) - Frees()(seats[i]) else 0.0
  {
    if n > 0 {
      TotalToUpdate(seats, i, s, n - 1);
    }
  }

  lemma HeadroomMoves(v: Venue, i: nat, s: Seat)
    requires i < |v.seats|
    ensures Headroom(With(v, i, s)) == Headroom(v) + Frees()(s) - Frees()(v.seats[i])
  {
    TotalToUpdate(v.seats, i, s, |v.seats|);
  }

  /** A seated account whose stake was lent and is not spoken for twice. */
  predicate InPlay(s: Seat) {
    s.seated && !IsOwed(s)
  }

  function Overdraft(a: State): real {
    Positive(-a.cash)
  }

  function Owing(s: Seat): real {
    if s.seated && IsOwed(s) then s.owed else 0.0
  }

  predicate IsIdle(s: Seat) {
    !s.seated && !s.buying
  }

  /** What an account adds to the headroom is its loan, taken off, and its overdraft, the stake it is owed
      and what its rows left unexplained with it; idle, the cash it holds is not at risk. */
  lemma FreesIsLoan(s: Seat)
    ensures Frees()(s) == -s.account.staked - Unexplained(s.account) - Owing(s) +
                          if IsIdle(s) then s.account.cash else -Overdraft(s.account)
  {}

  // ------------------------------------------------------------------ fills, settlements and corrections

  function Traded(s: Seat, row: Row): Seat {
    s.(account := Apply(s.account, row))
  }

  /** What a fill, a settlement or a correction takes from the headroom. */
  ghost function RowTakes(s: Seat, row: Row): real {
    var after := Traded(s, row);
    Leaves(s.account, row) + Owing(after) - Owing(s) +
    if IsIdle(s) then s.account.cash - after.account.cash else Overdraft(after.account) - Overdraft(s.account)
  }

  /** A row on any account, seated, winding down or gone, moves the headroom by what it leaves unexplained, by
      its overdraft or, on an account that has none at risk, by the cash it brings, and by a stake it makes
      owed again. */
  lemma RowMovesHeadroom(v: Venue, i: nat, row: Row)
    requires i < |v.seats| && !row.Stake?
    ensures Headroom(With(v, i, Traded(v.seats[i], row))) == Headroom(v) - RowTakes(v.seats[i], row)
  {
    hide CostOf, Headroom;
    var s := v.seats[i];
    HeadroomMoves(v, i, Traded(s, row));
    RowLeaves(s.account, row);
    FreesIsLoan(s);
    FreesIsLoan(Traded(s, row));
    assert Traded(s, row).account.staked == s.account.staked;
  }

  /** The envelope is conserved: a fill, a settlement or a correction on a seated, funded account moves the headroom by
      exactly its overdraft and by what the row leaves unexplained; with cash nonnegative and a row that
      keeps the account law, by nothing. */
  lemma RowsConserveHeadroom(v: Venue, i: nat, row: Row)
    requires i < |v.seats| && InPlay(v.seats[i]) && !row.Stake?
    requires !IsOwed(Traded(v.seats[i], row))
    ensures var before := v.seats[i].account;
            var after := Apply(before, row);
            Headroom(With(v, i, v.seats[i].(account := after)))
            == Headroom(v) - Leaves(before, row) - (Positive(-after.cash) - Positive(-before.cash))
  {
    hide Headroom, Leaves;
    RowMovesHeadroom(v, i, row);
  }

  // ------------------------------------------------------------------ stakes

  function Staked(s: Seat, usd: real): Seat {
    var account := Apply(s.account, Stake(usd));
    var empty := account.cash == 0.0 && account.holdings == map[];
    s.(account := account, funded := s.funded || usd > 0.0, swept :=
                                     if usd > 0.0 then false else if usd < 0.0 then empty else s.swept)
  }

  function Lent(): Seat -> real {
    (s: Seat) => s.account.staked
  }

  /** The book lends only cash the venue holds beyond what is lent, and takes back only free cash. */
  ghost predicate Accepts(v: Venue, i: nat, usd: real)
    requires i < |v.seats|
  {
    (usd > 0.0 ==> v.cash.Some? && Total(v.seats, Lent()) + usd <= v.cash.value) &&
    (usd < 0.0 ==> v.seats[i].account.cash - v.seats[i].reserved + usd >= 0.0)
  }

  /** A raise of a seat in play costs the headroom what it lends, less what it fills of an overdraft. */
  lemma RaiseCosts(v: Venue, i: nat, usd: real)
    requires i < |v.seats| && v.seats[i].seated && usd > 0.0
    ensures Headroom(With(v, i, Staked(v.seats[i], usd))) >= Headroom(v) - usd + Owing(v.seats[i])
    ensures v.seats[i].account.cash >= 0.0 ==>
              Headroom(With(v, i, Staked(v.seats[i], usd))) == Headroom(v) - usd + Owing(v.seats[i])
  {
    hide CostOf, Headroom;
    HeadroomMoves(v, i, Staked(v.seats[i], usd));
  }

  /** A cut out of cash that is there frees what it takes -- unless it empties the account, whose stake is
      then owed again. */
  lemma CutFrees(v: Venue, i: nat, usd: real)
    requires i < |v.seats| && v.seats[i].seated && 0.0 < usd <= v.seats[i].account.cash
    ensures var s := Staked(v.seats[i], -usd);
            Headroom(With(v, i, s)) == Headroom(v) + usd + Owing(v.seats[i]) - Owing(s)
  {
    hide CostOf, Headroom;
    HeadroomMoves(v, i, Staked(v.seats[i], -usd));
  }

  /** A newcomer is promoted, then seated: `seat` lends its stake where the headroom but for itself covers
      it and the book accepts it, and lends nothing to an account still funded with cash or holdings. */
  ghost function Entered(v: Venue, i: nat): Venue
    requires i < |v.seats|
  {
    var s := v.seats[i].(seated := true);
    var promoted := With(v, i, s);
    if IsOwed(s) && HeadroomBut(promoted, i) >= s.owed && Accepts(promoted, i, s.owed)
    then With(v, i, Staked(s, s.owed)) else promoted
  }

  /** What an idle account has beyond its holdings' cost that a seat puts at risk. */
  ghost function IdleCash(s: Seat): real {
    if !s.seated && !s.buying then Positive(s.account.cash) else 0.0
  }

  /** What a newcomer's seat costs the headroom: its stake, and the cash it already had idle. */
  lemma EntryCosts(v: Venue, i: nat)
    requires i < |v.seats| && !v.seats[i].seated && v.seats[i].owed > 0.0
    ensures var cost := IdleCash(v.seats[i]) + if IsOwed(v.seats[i]) then v.seats[i].owed else 0.0;
            Headroom(Entered(v, i)) >= Headroom(v) - cost &&
            (v.seats[i].account.cash >= 0.0 ==> Headroom(Entered(v, i)) == Headroom(v) - cost)
  {
    hide CostOf, Headroom, Accepts;
    var s := v.seats[i].(seated := true);
    HeadroomMoves(v, i, s);
    HeadroomMoves(v, i, Staked(s, s.owed));
  }

  // ------------------------------------------------------------------ sizing

  /** What sizing a seat reads: the target its band's evidence asks for, the smallest change as a share of the
      equity, the account's equity and the cash its resting buys leave free, whether it is lent nothing
      more now, and whether it is a bunt that keeps what it makes and its real wealth. */
  datatype Ask = Ask(target: real, minChange: real, equity: real, free: real, barred: bool, grows: bool, wReal: real)

  function Least(x: real, y: real): real {
    if x < y then x else y
  }

  /** Down to the cent. */
  function Cents(x: real): real {
    (x / CENT).Floor as real * CENT
  }

  function Threshold(a: Ask): real {
    (if a.equity > 1.0 then a.equity else 1.0) * a.minChange
  }

  predicate Loses(a: Ask) {
    a.grows && a.wReal < 1.0
  }

  /** The stake `_size` moves, None where it moves nothing. */
  function Move(room: real, staked: real, a: Ask): Option<real> {
    var delta := a.target - a.equity;
    if (if delta < 0.0 then -delta else delta) < Threshold(a) then None
    else if delta > 0.0 then
      var wanted := if Loses(a) then Least(delta, a.target - staked) else delta;
      var lent := Cents(Least(wanted, Positive(room)));
      if a.barred || wanted <= 0.0 || lent <= 0.0 || lent < Threshold(a) then None else Some(lent)
    else
      var taken := Cents(Least(-delta, Positive(a.free)));
      if taken == 0.0 then None else Some(-taken)
  }

  lemma CentsAre(x: real)
    ensures Cents(x) <= x < Cents(x) + CENT
    ensures x >= 0.0 ==> Cents(x) >= 0.0
    ensures 0.0 <= x < CENT ==> Cents(x) == 0.0
  {
    var units := x / CENT;
    assert units.Floor as real <= units < units.Floor as real + 1.0;
    assert x == units * CENT;
    assert 0.0 <= x < CENT ==> 0.0 <= units < 1.0;
  }

  /** Sizing never overshoots: the equity ends between where it was and the target; a raise fits the
      headroom and never lends a losing bunt past its target net of what it was lent; a cut is out of free
      cash. */
  lemma SizingNeverOvershoots(room: real, staked: real, a: Ask)
    requires Move(room, staked, a).Some?
    ensures var moved := Move(room, staked, a).value;
            (moved > 0.0 && a.equity < a.equity + moved <= a.target && moved <= room &&
             (Loses(a) ==> staked + moved <= a.target)) ||
            (moved < 0.0 && a.target <= a.equity + moved < a.equity && -moved <= a.free)
  {
    CentsAre(Least(a.target - a.equity, Positive(room)));
    CentsAre(Least(Least(a.target - a.equity, a.target - staked), Positive(room)));
    CentsAre(Least(a.equity - a.target, Positive(a.free)));
  }

  lemma ThresholdIsACent(a: Ask)
    requires a.minChange >= CENT
    ensures Threshold(a) >= CENT
  {
    var e := if a.equity > 1.0 then a.equity else 1.0;
    assert (e - 1.0) * a.minChange >= 0.0;
  }

  /** Sizing settles: with the target and the record as they were, a seat just sized is sized no further. */
  lemma SizingSettles(room: real, staked: real, a: Ask)
    requires Move(room, staked, a).Some? && a.minChange >= CENT
    ensures var moved := Move(room, staked, a).value;
            Move(room - moved, staked + moved, a.(equity := a.equity + moved, free := a.free + moved)).None?
  {
    var moved := Move(room, staked, a).value;
    var again := a.(equity := a.equity + moved, free := a.free + moved);
    ThresholdIsACent(again);
    SizingNeverOvershoots(room, staked, a);
    if moved > 0.0 {
      RaiseSettles(room, staked, a);
    } else {
      CutSettles(room, staked, a);
    }
  }

  lemma RaiseSettles(room: real, staked: real, a: Ask)
    requires Move(room, staked, a).Some? && Move(room, staked, a).value > 0.0
    requires Threshold(a.(equity := a.equity + Move(room, staked, a).value)) >= CENT
    ensures var moved := Move(room, staked, a).value;
            Move(room - moved, staked + moved, a.(equity := a.equity + moved, free := a.free + moved)).None?
  {
    hide Threshold, Cents;
    var moved := Move(room, staked, a).value;
    var wanted := if Loses(a) then Least(a.target - a.equity, a.target - staked) else a.target - a.equity;
    CentsAre(Least(wanted, Positive(room)));
    CentsAre(Least(a.equity - a.target, Positive(a.free)));
    var again := a.(equity := a.equity + moved, free := a.free + moved);
    var rest := if Loses(again) then Least(again.target - again.equity, again.target - (staked + moved))
    else again.target - again.equity;
    assert rest == wanted - moved;
    CentsAre(Least(rest, Positive(room - moved)));
    assert 0.0 <= Least(rest, Positive(room - moved)) < CENT;
    SameThreshold(a, moved);
  }

  lemma SameThreshold(a: Ask, moved: real)
    ensures Threshold(a.(equity := a.equity + moved, free := a.free + moved)) ==
            Threshold(a.(equity := a.equity + moved))
  {}

  lemma CutSettles(room: real, staked: real, a: Ask)
    requires Move(room, staked, a).Some? && Move(room, staked, a).value < 0.0
    requires Threshold(a.(equity := a.equity + Move(room, staked, a).value)) >= CENT
    ensures var moved := Move(room, staked, a).value;
            Move(room - moved, staked + moved, a.(equity := a.equity + moved, free := a.free + moved)).None?
  {
    hide Threshold, Cents;
    var moved := Move(room, staked, a).value;
    CentsAre(Least(a.equity - a.target, Positive(a.free)));
    CentsAre(Least(a.equity - a.target + moved, Positive(a.free + moved)));
    SameThreshold(a, moved);
  }

  /** The venue's real book, its accounts and stakes updated in place. */
  class Floor {
    const grant: real
    var cash: Option<real>
    var seats: seq<Seat>

    function Now(): Venue
      reads this
    {
      Venue(grant, cash, seats)
    }

    constructor (grant: real, cash: Option<real>, seats: seq<Seat>)
      ensures Now() == Venue(grant, cash, seats)
    {
      this.grant, this.cash, this.seats := grant, cash, seats;
    }

    method HeldCost(holdings: map<Key, Holding>) returns (cost: real)
      ensures cost == CostOf(holdings)
    {
      var left := holdings;
      cost := 0.0;
      while left != map[]
        invariant cost + CostOf(left) == CostOf(holdings)
        decreases |left|
      {
        var key :| key in left;
        CostWithout(left, key);
        cost, left := cost + left[key].cost, left - {key};
      }
    }

    method RiskOf(s: Seat) returns (risk: real)
      ensures risk == AtRisk(s)
    {
      risk := HeldCost(s.account.holdings);
      if s.seated {
        risk := risk + Positive(s.account.cash);
        if IsOwed(s) {
          risk := risk + s.owed;
        }
      } else if s.buying {
        risk := risk + Positive(s.account.cash);
      }
    }

    /** The grant's capital and realized results, less what is at risk. */
    method HeadroomNow() returns (room: real)
      ensures room == Headroom(Now())
    {
      room := 0.0;
      for i := 0 to |seats|
        invariant room == TotalTo(seats, Frees(), i)
      {
        var risk := RiskOf(seats[i]);
        room := room + (seats[i].account.realized - risk);
      }
      room := room + grant;
    }

    /** `Book.stake`: refused past the venue's cash, past the account's free cash, or before the book has been
        reconciled; otherwise the account is lent or gives back exactly that. */
    method Lend(i: nat, usd: real) returns (ok: bool)
      requires i < |seats|
      modifies this`seats
      ensures ok == old(Accepts(Now(), i, usd))
      ensures Now() == if ok then old(With(Now(), i, Staked(seats[i], usd))) else old(Now())
    {
      if usd < 0.0 && seats[i].account.cash - seats[i].reserved + usd < 0.0 {
        return false;
      }
      var lent: real := 0.0;
      for j := 0 to |seats|
        invariant lent == TotalTo(seats, Lent(), j) && seats == old(seats)
      {
        lent := lent + seats[j].account.staked;
      }
      if usd > 0.0 && (cash.None? || lent + usd > cash.value) {
        return false;
      }
      seats := seats[i := Staked(seats[i], usd)];
      ok := true;
    }

    /** Move a seat's stake toward its target; None where nothing moves or the book refuses it. */
    method Size(i: nat, a: Ask) returns (moved: Option<real>)
      requires i < |seats|
      modifies this`seats
      ensures moved == old(Moved(Now(), i, a))
      ensures Now() == old(Sized(Now(), i, a))
    {
      var room := HeadroomNow();
      moved := Move(room, seats[i].account.staked, a);
      if moved.Some? {
        var ok := Lend(i, moved.value);
        if !ok {
          moved := None;
        }
      }
    }

    /** A promoted newcomer is lent its stake where the headroom but for itself covers it (`House.seat`). */
    method Enter(i: nat)
      requires i < |seats|
      modifies this`seats
      ensures Now() == old(Entered(Now(), i))
    {
      seats := seats[i := seats[i].(seated := true)];
      if IsOwed(seats[i]) {
        var room := HeadroomNow();
        var own := RiskOf(seats[i]);
        if room + own >= seats[i].owed {
          var _ := Lend(i, seats[i].owed);
        }
      }
    }
  }

  // ------------------------------------------------------------------ no interleaving overspends

  /** The book's own word on a seat's equity: its cash when it holds nothing. */
  predicate Reads(s: Seat, a: Ask) {
    (s.account.holdings == map[] ==> a.equity == s.account.cash) && a.free == s.account.cash - s.reserved &&
    a.target > 0.0 &&
    s.reserved >= 0.0 && s.owed > 0.0
  }

  /** What sizing moves: nothing where the book refuses it. */
  ghost function Moved(v: Venue, i: nat, a: Ask): Option<real>
    requires i < |v.seats|
  {
    var move := Move(Headroom(v), v.seats[i].account.staked, a);
    if move.Some? && Accepts(v, i, move.value) then move else None
  }

  ghost function Sized(v: Venue, i: nat, a: Ask): Venue
    requires i < |v.seats|
  {
    match Moved(v, i, a)
    case Some(moved) => With(v, i, Staked(v.seats[i], moved))
    case None => v
  }

  /** A cut leaves an account that holds nothing its whole target, so sizing never empties one. */
  lemma CutNeverEmpties(v: Venue, i: nat, a: Ask)
    requires i < |v.seats| && v.seats[i].seated && v.seats[i].funded && Reads(v.seats[i], a)
    requires Moved(v, i, a).Some?
    ensures i < |Sized(v, i, a).seats| && InPlay(Sized(v, i, a).seats[i])
  {
    hide Headroom, Accepts;
    SizingNeverOvershoots(Headroom(v), v.seats[i].account.staked, a);
    hide Move;
  }

  /** What one sizing does to the headroom: a raise takes its own size out of it at most, a cut gives it back,
      and neither takes a headroom that is not negative below zero, nor lowers one that is. */
  lemma SizingCosts(v: Venue, i: nat, a: Ask)
    requires i < |v.seats| && v.seats[i].seated && v.seats[i].funded && Reads(v.seats[i], a)
    ensures var move := Moved(v, i, a);
            Headroom(Sized(v, i, a)) >= Headroom(v) - (match move case Some(moved) => moved case None => 0.0) &&
            (v.seats[i].account.cash >= 0.0 && InPlay(v.seats[i]) ==>
               Headroom(Sized(v, i, a)) == Headroom(v) - (match move case Some(moved) => moved case None => 0.0)) &&
            (Headroom(Sized(v, i, a)) >= 0.0 || Headroom(Sized(v, i, a)) >= Headroom(v))
  {
    hide CostOf, Headroom, Accepts;
    var move := Moved(v, i, a);
    if move.Some? {
      SizingNeverOvershoots(Headroom(v), v.seats[i].account.staked, a);
      CutNeverEmpties(v, i, a);
      hide Move;
      if move.value > 0.0 {
        RaiseCosts(v, i, move.value);
      } else {
        CutFrees(v, i, -move.value);
      }
    }
  }

  /** A finished account's free cash goes back to the House's side (`_sweep`). */
  predicate Sweepable(s: Seat) {
    !s.seated && s.account.holdings == map[] && !s.buying && !s.swept && s.account.cash - s.reserved > 0.0
  }

  function Swept(s: Seat): Seat {
    Staked(s, s.reserved - s.account.cash)
  }

  /** A sweep moves cash that is not at risk: the headroom stays as it is. */
  lemma SweepKeepsHeadroom(v: Venue, i: nat)
    requires i < |v.seats| && Sweepable(v.seats[i])
    ensures Headroom(With(v, i, Swept(v.seats[i]))) == Headroom(v)
    ensures v.seats[i].reserved == 0.0 ==> Swept(v.seats[i]).swept && Swept(v.seats[i]).account.cash == 0.0
  {
    hide CostOf, Headroom;
    HeadroomMoves(v, i, Swept(v.seats[i]));
  }

  /** `Orders` places or ends an account's resting buys, `Retarget` is what the evidence would lend it now, and
      `Reconcile` the venue's cash. */
  datatype Event =
    | Trade(i: nat, row: Row)
    | Size(i: nat, ask: Ask)
    | Enter(i: nat)
    | Leave(i: nat)
    | Sweep(i: nat)
    | Orders(i: nat, buying: bool, reserved: real)
    | Retarget(i: nat, owed: real)
    | Reconcile(cash: Option<real>)

  /** Rows come on any account; a newcomer is seated only where the headroom covers its stake (`_bunt`); an
      account that has left places no new buy. */
  ghost predicate Possible(v: Venue, e: Event) {
    match e
    case Trade(i, row) => i < |v.seats| && !row.Stake? && Names(v.seats[i].account, row)
    case Size(i, ask) => i < |v.seats| && v.seats[i].seated && v.seats[i].funded && Reads(v.seats[i], ask)
    case Enter(i) => i < |v.seats| && !v.seats[i].seated && 0.0 < v.seats[i].owed <= Headroom(v)
    case Leave(i) => i < |v.seats| && v.seats[i].seated && v.seats[i].owed > 0.0
    case Sweep(i) => i < |v.seats| && Sweepable(v.seats[i])
    case Orders(i, buying, _) => i < |v.seats| && (v.seats[i].seated || !buying || v.seats[i].buying)
    case Retarget(i, owed) => i < |v.seats| && owed > 0.0
    case Reconcile(_) => true
  }

  ghost function AfterEvent(v: Venue, e: Event): Venue
    requires Possible(v, e)
  {
    match e
    case Trade(i, row) => With(v, i, Traded(v.seats[i], row))
    case Size(i, ask) => Sized(v, i, ask)
    case Enter(i) => Entered(v, i)
    case Leave(i) => With(v, i, v.seats[i].(seated := false))
    case Sweep(i) => With(v, i, Swept(v.seats[i]))
    case Orders(i, buying, reserved) => With(v, i, v.seats[i].(buying := buying, reserved := reserved))
    case Retarget(i, owed) => With(v, i, v.seats[i].(owed := owed))
    case Reconcile(cash) => v.(cash := cash)
  }

  /** What an event can take from the headroom that no check of the allocator's asks for: a row's overdraft,
      what it leaves unexplained or, on an idle account, cash it spends; cash a newcomer had idle; a growing
      stake still owed. */
  ghost function Unchecked(v: Venue, e: Event): real
    requires Possible(v, e)
  {
    match e
    case Trade(i, row) => Positive(RowTakes(v.seats[i], row))
    case Enter(i) => IdleCash(v.seats[i])
    case Retarget(i, owed) => Positive(Owing(v.seats[i].(owed := owed)) - Owing(v.seats[i]))
    case _ => 0.0
  }

  /** A row that keeps the account law, leaves no new overdraft, spends no idle cash and empties no swept
      account takes nothing. */
  lemma LawfulRowTakesNothing(s: Seat, row: Row)
    requires !row.Stake? && Leaves(s.account, row) == 0.0 && s.owed > 0.0
    requires if IsIdle(s) then Apply(s.account, row).cash >= s.account.cash else Apply(s.account, row).cash >= 0.0
    requires s.seated && IsOwed(Traded(s, row)) ==> IsOwed(s)
    ensures Positive(RowTakes(s, row)) == 0.0
  {
    hide Leaves, AfterFill, AfterSettle, AfterCorrection;
  }

  ghost predicate AllPossible(v: Venue, events: seq<Event>)
    decreases |events|
  {
    events != [] ==> Possible(v, events[0]) && AllPossible(AfterEvent(v, events[0]), events[1..])
  }

  ghost function Ran(v: Venue, events: seq<Event>): Venue
    requires AllPossible(v, events)
    decreases |events|
  {
    if events == [] then v else Ran(AfterEvent(v, events[0]), events[1..])
  }

  ghost function AllUnchecked(v: Venue, events: seq<Event>): real
    requires AllPossible(v, events)
    decreases |events|
  {
    if events == [] then 0.0 else Unchecked(v, events[0]) + AllUnchecked(AfterEvent(v, events[0]), events[1..])
  }

  lemma LeaveFrees(v: Venue, i: nat)
    requires i < |v.seats| && v.seats[i].seated && v.seats[i].owed > 0.0
    ensures Headroom(With(v, i, v.seats[i].(seated := false))) >= Headroom(v)
  {
    hide CostOf, Headroom;
    HeadroomMoves(v, i, v.seats[i].(seated := false));
  }

  lemma OrdersFree(v: Venue, i: nat, buying: bool, reserved: real)
    requires i < |v.seats| && (v.seats[i].seated || !buying || v.seats[i].buying)
    ensures Headroom(With(v, i, v.seats[i].(buying := buying, reserved := reserved))) >= Headroom(v)
  {
    hide CostOf, Headroom;
    HeadroomMoves(v, i, v.seats[i].(buying := buying, reserved := reserved));
  }

  lemma RetargetTakes(v: Venue, i: nat, owed: real)
    requires i < |v.seats|
    ensures Headroom(With(v, i, v.seats[i].(owed := owed))) ==
            Headroom(v) - Owing(v.seats[i].(owed := owed)) + Owing(v.seats[i])
  {
    hide CostOf, Headroom;
    HeadroomMoves(v, i, v.seats[i].(owed := owed));
  }

  lemma EventNeverOverspends(v: Venue, e: Event, slack: real)
    requires Possible(v, e) && slack >= 0.0 && Headroom(v) >= -slack
    ensures Headroom(AfterEvent(v, e)) >= -slack - Unchecked(v, e)
  {
    hide Headroom, Move, CostOf, Moved, Sized, Entered, RowTakes, Traded, Swept;
    match e
    case Trade(i, row) => RowMovesHeadroom(v, i, row);
    case Size(i, ask) => SizingCosts(v, i, ask);
    case Enter(i) => EntryCosts(v, i);
    case Leave(i) => LeaveFrees(v, i);
    case Sweep(i) => SweepKeepsHeadroom(v, i);
    case Orders(i, buying, reserved) => OrdersFree(v, i, buying, reserved);
    case Retarget(i, owed) => RetargetTakes(v, i, owed);
    case Reconcile(cash) => CashIsNoRisk(v, cash);
  }

  lemma CashIsNoRisk(v: Venue, cash: Option<real>)
    ensures Headroom(v.(cash := cash)) == Headroom(v)
  {}

  lemma {:induction false} RunNeverOverspends(v: Venue, events: seq<Event>, slack: real)
    requires AllPossible(v, events) && slack >= 0.0 && Headroom(v) >= -slack
    ensures Headroom(Ran(v, events)) >= -slack - AllUnchecked(v, events)
    decreases |events|
  {
    if events != [] {
      UncheckedIsNoGain(v, events[0]);
      EventNeverOverspends(v, events[0], slack);
      hide Headroom, Possible, AfterEvent, Unchecked;
      RunNeverOverspends(AfterEvent(v, events[0]), events[1..], slack + Unchecked(v, events[0]));
    }
  }

  lemma UncheckedIsNoGain(v: Venue, e: Event)
    requires Possible(v, e)
    ensures Unchecked(v, e) >= 0.0
  {}

  /** The envelope holds: no interleaving of seats, raises, cuts, fills, settlements, corrections, departures,
      wind-downs, sweeps and returns takes a headroom that is not negative further below zero than what no
      check asks for; where every event's is nothing, not below zero at all. */
  lemma {:induction false} NeverOverspent(v: Venue, events: seq<Event>)
    requires AllPossible(v, events) && Headroom(v) >= 0.0
    ensures Headroom(Ran(v, events)) >= -AllUnchecked(v, events)
  {
    RunNeverOverspends(v, events, 0.0);
  }

  // ------------------------------------------------------------------ what a seat's check leaves out

  /** The newcomer's check asks for its stake alone. Its seat stays inside the envelope exactly when the
      headroom covers the stake that is owed and the cash the account already had idle. */
  lemma EntryStaysInside(v: Venue, i: nat)
    requires i < |v.seats| && !v.seats[i].seated && v.seats[i].owed > 0.0 && v.seats[i].account.cash >= 0.0
    ensures Headroom(Entered(v, i)) >= 0.0 <==>
            Headroom(v) >= IdleCash(v.seats[i]) + if IsOwed(v.seats[i]) then v.seats[i].owed else 0.0
  {
    EntryCosts(v, i);
    hide Headroom, Entered;
  }

  const HELD := map["a contract" := Holding(1.0, 1.0)]

  /** A funded account that left real money with a contract it holds to settlement: five dollars lie idle. */
  const RETURNING := Seat(State(5.0, 0.0, 0.0, 6.0, HELD), true, false, false, false, 1.0, 0.0)
  const LOSER := Seat(State(0.0, 0.0, -3.0, 3.0, map[]), true, true, false, false, 1.0, 0.0)

  /** The headroom of three covers its stake of one, and its seat takes the headroom to two below zero. */
  lemma IdleCashOverspends()
    ensures var v := Venue(7.0, Some(100.0), [RETURNING, LOSER]);
            Lawful(RETURNING.account) && Lawful(LOSER.account) && Headroom(v) == 3.0 && Possible(v, Enter(0)) &&
            Headroom(Entered(v, 0)) == -2.0
  {
    var v := Venue(7.0, Some(100.0), [RETURNING, LOSER]);
    CostWithout(HELD, "a contract");
    assert HELD - {"a contract"} == map[] && CostOf(map[]) == 0.0;
    assert TotalTo(v.seats, Frees(), 1) == -1.0;
    assert Total(v.seats, Frees()) == -4.0;
    EntryCosts(v, 0);
  }
}
