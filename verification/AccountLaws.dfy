/** What an account's rows mean on any log (league/book.py `_apply_account_fill`): a sale takes its share of a
    holding's cost and no more, so how a position was bought or sold piece by piece does not matter. */
module AccountLaws {
  import opened Accounts

  function Replayed(rows: seq<Row>, f: Fill): State {
    Replay(rows + [Filled(f)])
  }

  lemma ReplayedIs(rows: seq<Row>, f: Fill)
    ensures Replayed(rows, f) == Apply(Replay(rows), Filled(f))
  {
    assert (rows + [Filled(f)])[..|rows|] == rows;
  }

  /** Two fills of one instrument as one. */
  function Both(x: Fill, y: Fill): Fill {
    Fill(x.key, x.cash + y.cash, x.position + y.position, x.fee + y.fee)
  }

  /** A fill moves its own cash, fee and units: no other holding, and nothing lent. */
  lemma FillMovesItsOwn(rows: seq<Row>, f: Fill)
    ensures var before, after := Replay(rows), Replayed(rows, f);
            after.cash == before.cash + f.cash && after.fees == before.fees + f.fee && after.staked == before.staked &&
            (forall k :: k != f.key ==> HeldIn(after, k) == HeldIn(before, k)) &&
            (f.position >= 0.0 ==> after.realized == before.realized) &&
            (f.position == 0.0 ==> after.holdings == before.holdings) &&
            (HeldIn(before, f.key).quantity + f.position > 0.0 && f.position != 0.0 ==>
               HeldIn(after, f.key).quantity == HeldIn(before, f.key).quantity + f.position)
  {
    ReplayedIs(rows, f);
  }

  /** A purchase adds what it paid to the cost. */
  lemma PurchaseAddsItsCost(rows: seq<Row>, f: Fill)
    requires f.position > 0.0 && HeldIn(Replay(rows), f.key).quantity + f.position > 0.0
    ensures HeldIn(Replayed(rows, f), f.key).cost == HeldIn(Replay(rows), f.key).cost - f.cash
  {
    ReplayedIs(rows, f);
  }

  /** What a sale takes out of the cost is to the cost as what it sells is to the holding. */
  lemma BasisIsShare(h: Holding, sold: real)
    requires h.quantity > 0.0
    ensures Basis(h, sold) * h.quantity == h.cost * sold
    ensures sold == h.quantity ==> Basis(h, sold) == h.cost
  {
    assert h.cost * sold / h.quantity * h.quantity == h.cost * sold;
  }

  lemma UnitCostStays(h: Holding, f: Fill)
    requires h.quantity > 0.0
    ensures Sold(h, f).cost * h.quantity == h.cost * Sold(h, f).quantity
  {
    var basis := Basis(h, -f.position);
    BasisIsShare(h, -f.position);
    hide Basis;
    assert (h.cost - basis) * h.quantity == h.cost * h.quantity - basis * h.quantity;
    assert h.cost * (h.quantity + f.position) == h.cost * h.quantity - h.cost * -f.position;
  }

  /** A sale of part of a holding leaves the cost a unit as it was, and realizes its cash less the cost of the
      units it sold. */
  lemma PartSaleKeepsUnitCost(rows: seq<Row>, f: Fill)
    requires f.position < 0.0 < HeldIn(Replay(rows), f.key).quantity + f.position
    ensures var before, after := HeldIn(Replay(rows), f.key), HeldIn(Replayed(rows, f), f.key);
            after.cost * before.quantity == before.cost * after.quantity &&
            (f.cash - (Replayed(rows, f).realized - Replay(rows).realized)) * before.quantity ==
            before.cost * -f.position
  {
    hide Basis, Replay, Replayed;
    ReplayedIs(rows, f);
    var h := HeldIn(Replay(rows), f.key);
    UnitCostStays(h, f);
    BasisIsShare(h, -f.position);
    assert HeldIn(Replayed(rows, f), f.key) == Sold(h, f);
    assert f.cash - (Replayed(rows, f).realized - Replay(rows).realized) == Basis(h, -f.position);
  }

  /** A sale of the whole holding realizes its cash less the whole cost, and the holding is gone. */
  lemma WholeSaleRealizesAll(rows: seq<Row>, f: Fill)
    requires f.position < 0.0 == HeldIn(Replay(rows), f.key).quantity + f.position
    ensures f.key !in Replayed(rows, f).holdings
    ensures Replayed(rows, f).realized - Replay(rows).realized == f.cash - HeldIn(Replay(rows), f.key).cost
  {
    hide Basis, Replay, Replayed;
    ReplayedIs(rows, f);
    BasisIsShare(HeldIn(Replay(rows), f.key), -f.position);
  }

  lemma SoldInParts(h: Holding, x: Fill, y: Fill)
    requires x.position < 0.0 && y.position < 0.0 <= h.quantity + x.position + y.position
    ensures Sold(Sold(h, x), y) == Sold(h, Both(x, y))
    ensures Basis(h, -x.position) + Basis(Sold(h, x), -y.position) == Basis(h, -Both(x, y).position)
  {
    var first, left := Basis(h, -x.position), Sold(h, x);
    var second, all := Basis(left, -y.position), Basis(h, -Both(x, y).position);
    BasisIsShare(h, -x.position);
    BasisIsShare(h, -Both(x, y).position);
    BasisIsShare(left, -y.position);
    UnitCostStays(h, x);
    hide Basis;
    Cancels(h.cost, -y.position, left.quantity, h.quantity, second, left.cost);
    assert all * h.quantity == h.cost * -x.position + h.cost * -y.position;
    assert (all - first - second) * h.quantity == all * h.quantity - first * h.quantity - second * h.quantity;
    ZeroProduct(all - first - second, h.quantity);
  }

  /** Selling units of a holding in any two parts leaves the account that selling them at once does. */
  lemma SalesAddUp(rows: seq<Row>, x: Fill, y: Fill)
    requires x.key == y.key && x.position < 0.0 && y.position < 0.0
    requires 0.0 <= HeldIn(Replay(rows), x.key).quantity + x.position + y.position
    ensures Replayed(rows + [Filled(x)], y) == Replayed(rows, Both(x, y))
  {
    hide Basis, Replay, Replayed;
    ReplayedIs(rows, x);
    ReplayedIs(rows + [Filled(x)], y);
    ReplayedIs(rows, Both(x, y));
    assert Replay(rows + [Filled(x)]) == Replayed(rows, x) by {
      ReplayedRow(rows, x);
    }
    SalesAddUpOn(Replay(rows), x, y);
  }

  lemma ReplayedRow(rows: seq<Row>, f: Fill)
    ensures Replay(rows + [Filled(f)]) == Replayed(rows, f)
  {}

  lemma SalesAddUpOn(a: State, x: Fill, y: Fill)
    requires x.key == y.key && x.position < 0.0 && y.position < 0.0
    requires 0.0 <= HeldIn(a, x.key).quantity + x.position + y.position
    ensures AfterFill(AfterFill(a, x), y) == AfterFill(a, Both(x, y))
  {
    hide Basis;
    var h := HeldIn(a, x.key);
    SoldInParts(h, x, y);
    var middle := AfterFill(a, x);
    assert HeldIn(middle, x.key) == Sold(h, x);
    assert Keep(middle.holdings, x.key, Sold(Sold(h, x), y)) == Keep(a.holdings, x.key, Sold(h, Both(x, y)));
  }

  lemma Cancels(cost: real, second: real, left: real, quantity: real, next: real, kept: real)
    requires left > 0.0 && next * left == kept * second && kept * quantity == cost * left
    ensures next * quantity == cost * second
  {
    calc {
      (next * quantity - cost * second) * left;
      (next * left) * quantity - (cost * left) * second;
      (kept * second) * quantity - (kept * quantity) * second;
      0.0;
    }
    ZeroProduct(next * quantity - cost * second, left);
  }

  lemma ZeroProduct(x: real, y: real)
    requires y > 0.0 && x * y == 0.0
    ensures x == 0.0
  {
    assert x == x * y / y;
  }

  /** Buying in two parts is buying at once. */
  lemma PurchasesAddUp(rows: seq<Row>, x: Fill, y: Fill)
    requires x.key == y.key && x.position > 0.0 && y.position > 0.0 && HeldIn(Replay(rows), x.key).quantity >= 0.0
    ensures Replayed(rows + [Filled(x)], y) == Replayed(rows, Both(x, y))
  {
    hide Basis, Replay, Replayed;
    ReplayedIs(rows, x);
    ReplayedIs(rows + [Filled(x)], y);
    ReplayedIs(rows, Both(x, y));
    ReplayedRow(rows, x);
    var a := Replay(rows);
    assert Keep(AfterFill(a, x).holdings, x.key, Bought(Bought(HeldIn(a, x.key), x), y)) ==
           Keep(a.holdings, x.key, Bought(HeldIn(a, x.key), Both(x, y)));
  }

  /** A settlement pays, and realizes the payout over what the holding cost; nothing else moves. */
  lemma SettlementRealizes(rows: seq<Row>, key: Key, payout: real)
    ensures var before, after := Replay(rows), Replay(rows + [Settled(key, payout)]);
            after.cash == before.cash + payout && after.fees == before.fees && after.staked == before.staked &&
            after.realized == before.realized +
            (if key in before.holdings then payout - before.holdings[key].cost else 0.0) &&
            (forall k :: HeldIn(after, k) == if k == key then Holding(0.0, 0.0) else HeldIn(before, k))
  {
    assert (rows + [Settled(key, payout)])[..|rows|] == rows;
  }
}
