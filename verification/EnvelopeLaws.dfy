/** What the envelope lends, and only that (league/allocator.py `_size`, league/house.py `seat`, league/book.py
    `stake`): the book's refusals by what they would leave, a sizing as the largest move that fits, a newcomer's
    stake by the accounts beside it. */
module EnvelopeLaws {
  import opened Wrappers
  import opened Totals
  import opened Accounts
  import opened Envelope

  // ------------------------------------------------------------------ the book's word

  function LentOn(): Seat -> real {
    (s: Seat) => s.account.staked
  }

  lemma {:induction false} LentTo(seats: seq<Seat>, i: nat, s: Seat, n: nat)
    requires i < |seats| && n <= |seats|
    ensures TotalTo(seats[i := s], LentOn(), n) ==
            TotalTo(seats, LentOn(), n) + if i < n then s.account.staked - seats[i].account.staked else 0.0
  {
    if n > 0 {
      LentTo(seats, i, s, n - 1);
    }
  }

  /** A stake is lent exactly where the venue, once read, holds all that is then lent, and taken back exactly where
      the account then still holds the cash its resting buys reserve; the account's cash and its loan move by it,
      a loan funds it, and a taking back of all it had, while it holds nothing, sweeps it; nothing else of any account
      moves. */
  lemma LendsExactly(v: Venue, i: nat, usd: real)
    requires i < |v.seats| && usd != 0.0
    ensures var after := With(v, i, Staked(v.seats[i], usd));
            (Accepts(v, i, usd) <==>
             if usd > 0.0 then v.cash.Some? && Total(after.seats, LentOn()) <= v.cash.value
             else after.seats[i].account.cash >= after.seats[i].reserved) &&
            after.seats[i].account ==
            v.seats[i].account.(cash := v.seats[i].account.cash + usd, staked := v.seats[i].account.staked + usd) &&
            (after.seats[i].funded <==> v.seats[i].funded || usd > 0.0) &&
            (after.seats[i].swept <==>
             usd < 0.0 && v.seats[i].account.cash + usd == 0.0 && v.seats[i].account.holdings == map[]) &&
            after.seats[i] == v.seats[i].(account := after.seats[i].account, funded := after.seats[i].funded,
            swept := after.seats[i].swept) &&
            forall j :: 0 <= j < |v.seats| && j != i ==> after.seats[j] == v.seats[j]
  {
    LentTo(v.seats, i, Staked(v.seats[i], usd), |v.seats|);
    TotalSame(v.seats, Lent(), LentOn());
  }

  /** An account owes the House's side its first stake until one is lent, and another once a taking back left it
      neither cash nor holdings, until that is lent. */
  lemma OwedAgain(s: Seat, usd: real)
    ensures var after := Staked(s, usd);
            (usd > 0.0 ==> !IsOwed(after)) &&
            (usd < 0.0 && s.account.holdings == map[] ==>
               (IsOwed(after) <==> !s.funded || s.account.cash + usd == 0.0)) &&
            (s.account.holdings != map[] ==> (IsOwed(after) <==> !s.funded && usd <= 0.0))
  {}

  // ------------------------------------------------------------------ sizing

  predicate WholeCents(x: real) {
    (x * 100.0).Floor as real == x * 100.0
  }

  lemma CentsAreLargest(x: real, most: real)
    requires WholeCents(x) && x <= most
    ensures x <= Cents(most)
  {
    assert x / CENT == x * 100.0;
    assert x / CENT <= most / CENT;
    assert (x / CENT).Floor <= (most / CENT).Floor;
  }

  lemma CentsAreWhole(x: real)
    ensures WholeCents(Cents(x))
  {
    var n := (x / CENT).Floor;
    assert Cents(x) * 100.0 == n as real;
  }

  /** A raise that fits: whole cents, to the target at most, within the headroom, and on a losing bunt no loan past
      the target. */
  predicate Raises(room: real, staked: real, a: Ask, x: real) {
    x > 0.0 && WholeCents(x) && a.equity + x <= a.target && x <= room &&
    (a.grows && a.wReal < 1.0 ==> staked + x <= a.target)
  }

  /** A cut that fits: whole cents, to the target at most, out of free cash. */
  predicate Cuts(a: Ask, x: real) {
    x > 0.0 && WholeCents(x) && a.equity - x >= a.target && x <= a.free
  }

  ghost predicate LargestRaise(room: real, staked: real, a: Ask, x: real) {
    Raises(room, staked, a, x) && forall y :: Raises(room, staked, a, y) ==> y <= x
  }

  ghost predicate LargestCut(a: Ask, x: real) {
    Cuts(a, x) && forall y :: Cuts(a, y) ==> y <= x
  }

  /** The smallest change worth making: a share of the equity, or of a dollar where it has less. */
  predicate Worth(a: Ask, x: real) {
    x >= a.minChange && x >= a.minChange * a.equity
  }

  lemma Scaled(less: real, more: real, share: real)
    requires less <= more && share >= 0.0
    ensures share * less <= share * more && more * share == share * more
  {
    assert (more - less) * share >= 0.0;
  }

  lemma WorthIsThreshold(a: Ask, x: real)
    requires a.minChange >= 0.0
    ensures Worth(a, x) <==> x >= Threshold(a)
  {
    if a.equity > 1.0 {
      Scaled(1.0, a.equity, a.minChange);
    } else {
      Scaled(a.equity, 1.0, a.minChange);
    }
  }

  /** What is sized is the largest move that fits: a seat below its target by a change worth making is raised by
      the largest raise that fits, where that is worth making and it is not barred; one above is cut by the largest
      cut that fits; and nothing else moves it. */
  lemma SizesExactly(room: real, staked: real, a: Ask, x: real)
    requires a.minChange >= 0.0 && x > 0.0
    ensures Move(room, staked, a) == Some(x) <==>
            Worth(a, a.target - a.equity) && !a.barred && Worth(a, x) &&
            LargestRaise(room, staked, a, x)
    ensures Move(room, staked, a) == Some(-x) <==>
            Worth(a, a.equity - a.target) && LargestCut(a, x)
  {
    WorthIsThreshold(a, x);
    WorthIsThreshold(a, a.target - a.equity);
    WorthIsThreshold(a, a.equity - a.target);
    hide Worth, Threshold, Cents;
    if a.target > a.equity {
      RaiseIsLargest(room, staked, a, x);
    } else {
      CutIsLargest(a, x);
    }
  }

  /** And where the book accepts it: a raise while the venue's cash holds what is then lent, a cut of cash no resting
      buy reserves. The seat is lent or gives back exactly that; where nothing moves nothing changes. */
  lemma SeatIsSized(v: Venue, i: nat, a: Ask, x: real)
    requires i < |v.seats| && a.minChange >= 0.0 && x > 0.0
    ensures var s := v.seats[i];
            Moved(v, i, a) == Some(x) <==>
            Worth(a, a.target - a.equity) && !a.barred && Worth(a, x) &&
            LargestRaise(Headroom(v), s.account.staked, a, x) &&
            v.cash.Some? && Total(v.seats, LentOn()) + x <= v.cash.value
    ensures Moved(v, i, a) == Some(-x) <==>
            Worth(a, a.equity - a.target) && LargestCut(a, x) &&
            x <= v.seats[i].account.cash - v.seats[i].reserved
    ensures Sized(v, i, a) == if Moved(v, i, a) == None then v else With(v, i, Staked(v.seats[i], Moved(v, i, a).value))
  {
    hide Move, Worth, LargestRaise, LargestCut, Headroom;
    SizesExactly(Headroom(v), v.seats[i].account.staked, a, x);
    TotalSame(v.seats, Lent(), LentOn());
  }

  function Bound(room: real, staked: real, a: Ask): real {
    Least(if Loses(a) then Least(a.target - a.equity, a.target - staked) else a.target - a.equity, Positive(room))
  }

  lemma RaiseIsLargest(room: real, staked: real, a: Ask, x: real)
    requires a.target > a.equity && x > 0.0
    ensures Cents(Bound(room, staked, a)) == x <==> LargestRaise(room, staked, a, x)
    ensures forall y :: !Cuts(a, y)
  {
    var most := Bound(room, staked, a);
    CentsAre(most);
    CentsAreWhole(most);
    hide Cents;
    forall y | Raises(room, staked, a, y) ensures y <= Cents(most) {
      CentsAreLargest(y, most);
    }
    hide WholeCents;
    assert Cents(most) > 0.0 ==> Raises(room, staked, a, Cents(most));
  }

  lemma CutIsLargest(a: Ask, x: real)
    requires a.target <= a.equity && x > 0.0
    ensures Cents(Least(a.equity - a.target, Positive(a.free))) == x <==> LargestCut(a, x)
    ensures forall room, staked, y :: !Raises(room, staked, a, y)
  {
    var most := Least(a.equity - a.target, Positive(a.free));
    CentsAre(most);
    CentsAreWhole(most);
    hide Cents;
    forall y | Cuts(a, y) ensures y <= Cents(most) {
      CentsAreLargest(y, most);
    }
    hide WholeCents;
    assert Cents(most) > 0.0 ==> Cuts(a, Cents(most));
  }

  // ------------------------------------------------------------------ a newcomer

  function Others(v: Venue, i: nat): seq<Seat>
    requires i < |v.seats|
  {
    v.seats[..i] + v.seats[i + 1..]
  }

  lemma {:induction false} TotalSkips(seats: seq<Seat>, i: nat, n: nat)
    requires i < n <= |seats|
    ensures TotalTo(seats, Frees(), n) ==
            TotalTo(seats[..i] + seats[i + 1..], Frees(), n - 1) + Frees()(seats[i])
  {
    var rest := seats[..i] + seats[i + 1..];
    if n == i + 1 {
      SameTo(seats, rest, i);
    } else {
      TotalSkips(seats, i, n - 1);
      assert rest[n - 2] == seats[n - 1];
    }
  }

  lemma {:induction false} SameTo(a: seq<Seat>, b: seq<Seat>, n: nat)
    requires n <= |a| && n <= |b| && forall j :: 0 <= j < n ==> a[j] == b[j]
    ensures TotalTo(a, Frees(), n) == TotalTo(b, Frees(), n)
  {
    if n > 0 {
      SameTo(a, b, n - 1);
    }
  }

  /** A newcomer is seated, and lent its stake exactly where it is owed one -- none was lent yet, or the last was
      taken back whole and it holds nothing --, the grant, what the other accounts free and its own realized result
      hold the stake, and the venue's cash holds what is then lent. No other account moves. */
  lemma EntersExactly(v: Venue, i: nat)
    requires i < |v.seats| && v.seats[i].owed > 0.0
    ensures var s, after := v.seats[i], Entered(v, i);
            |after.seats| == |v.seats| && after.grant == v.grant && after.cash == v.cash && after.seats[i].seated &&
            (forall j :: 0 <= j < |v.seats| && j != i ==> after.seats[j] == v.seats[j]) &&
            if (!s.funded || (s.swept && s.account.holdings == map[])) &&
               s.owed <= v.grant + Total(Others(v, i), Frees()) + s.account.realized &&
               v.cash.Some? && Total(v.seats, LentOn()) + s.owed <= v.cash.value
            then after.seats[i].account ==
                 s.account.(cash := s.account.cash + s.owed, staked := s.account.staked + s.owed) &&
                 !IsOwed(after.seats[i])
            else after.seats[i] == s.(seated := true)
  {
    hide CostOf, Headroom, Accepts;
    var s := v.seats[i].(seated := true);
    var promoted := With(v, i, s);
    RoomBeside(v, i);
    LentTo(v.seats, i, s, |v.seats|);
    AcceptsIs(promoted, i, s.owed);
  }

  lemma AcceptsIs(v: Venue, i: nat, usd: real)
    requires i < |v.seats| && usd > 0.0
    ensures Accepts(v, i, usd) <==> v.cash.Some? && Total(v.seats, LentOn()) + usd <= v.cash.value
  {
    TotalSame(v.seats, Lent(), LentOn());
  }

  lemma RoomBeside(v: Venue, i: nat)
    requires i < |v.seats|
    ensures HeadroomBut(With(v, i, v.seats[i].(seated := true)), i) ==
            v.grant + Total(Others(v, i), Frees()) + v.seats[i].account.realized
  {
    var promoted := With(v, i, v.seats[i].(seated := true));
    TotalSkips(promoted.seats, i, |v.seats|);
    assert Others(promoted, i) == Others(v, i);
  }

  // ------------------------------------------------------------------ what is at risk

  /** What an account can still lose: what its holdings cost, its cash while it is seated or has buys resting, and
      the stake it is about to be lent. */
  lemma RiskIs(s: Seat)
    ensures AtRisk(s) == CostOf(s.account.holdings) +
                         (if (s.seated || s.buying) && s.account.cash > 0.0 then s.account.cash else 0.0) +
                         (if s.seated && (!s.funded || (s.swept && s.account.holdings == map[])) then s.owed else 0.0)

  {}
}
