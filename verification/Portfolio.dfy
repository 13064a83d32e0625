/** Weighted-average-cost accounting with integer prices, and exactly how far its rounding drifts. */
module Portfolios {
  import opened Orders
  import W = WrapArithmetic

  /** A fill delivered to a strategy. */
  datatype Fill = Fill(side: Side, price: int, qty: int)

  datatype Position = Position(position: int, avgCost: int, realized: int, gross: int)

  const FLAT: Position := Position(0, 0, 0, 0)

  function Abs(x: int): nat {
    if x < 0 then -x else x
  }

  function Sign(x: int): int {
    if x < 0 then -1 else 1
  }

  /** Integer division that truncates toward zero. */
  function TruncDiv(a: int, b: int): int
    requires b > 0
  {
    if a >= 0 then a / b else -((-a) / b)
  }

  function Signed(f: Fill): int {
    if f.side.Buy? then f.qty else -f.qty
  }

  predicate SameDirection(pos: int, delta: int) {
    (pos > 0 && delta > 0) || (pos < 0 && delta < 0)
  }

  /** What the averaging divides. */
  function Weighted(p: Position, f: Fill): int {
    p.avgCost * Abs(p.position) + f.price * Abs(Signed(f))
  }

  function OnFill(p: Position, f: Fill): Position {
    var delta := Signed(f);
    var gross := p.gross + f.qty;
    if p.position == 0 then
      Position(delta, f.price, p.realized, gross)
    else if SameDirection(p.position, delta) then
      Position(p.position + delta, TruncDiv(Weighted(p, f), Abs(p.position) + Abs(delta)), p.realized, gross)
    else
      var closed := Min(Abs(p.position), Abs(delta));
      var perUnit := if p.position > 0 then f.price - p.avgCost else p.avgCost - f.price;
      var realized := p.realized + perUnit * closed;
      if Abs(delta) < Abs(p.position) then Position(p.position + delta, p.avgCost, realized, gross)
      else if Abs(delta) == Abs(p.position) then Position(0, 0, realized, gross)
      else Position(delta + p.position, f.price, realized, gross)
  }

  function Unrealized(p: Position, mark: int): int {
    if p.position == 0 then 0
    else if p.position > 0 then (mark - p.avgCost) * p.position
    else (p.avgCost - mark) * (-p.position)
  }

  function TotalPnl(p: Position, mark: int): int {
    p.realized + Unrealized(p, mark)
  }

  function OnFills(fs: seq<Fill>): Position {
    if fs == [] then FLAT else OnFill(OnFills(fs[..|fs| - 1]), fs[|fs| - 1])
  }

  // ----- independent accounting -----

  /** Net position and net cash, with nothing averaged or closed. */
  function NetPosition(fs: seq<Fill>): int {
    if fs == [] then 0 else NetPosition(fs[..|fs| - 1]) + Signed(fs[|fs| - 1])
  }

  lemma NetSnoc(fs: seq<Fill>, f: Fill)
    ensures NetPosition(fs + [f]) == NetPosition(fs) + Signed(f)
  {
    assert (fs + [f])[..|fs|] == fs;
  }

  function NetCash(fs: seq<Fill>): int {
    if fs == [] then 0 else NetCash(fs[..|fs| - 1]) - fs[|fs| - 1].price * Signed(fs[|fs| - 1])
  }

  function Volume(fs: seq<Fill>): int {
    if fs == [] then 0 else Volume(fs[..|fs| - 1]) + fs[|fs| - 1].qty
  }

  /** The remainder an averaging fill throws away, with the sign of the position. */
  function Rounding(p: Position, f: Fill): int {
    if p.position != 0 && SameDirection(p.position, Signed(f)) then
      var n := Abs(p.position) + Abs(Signed(f));
      Sign(p.position) * (Weighted(p, f) - TruncDiv(Weighted(p, f), n) * n)
    else 0
  }

  function Drift(fs: seq<Fill>): int {
    if fs == [] then 0 else Drift(fs[..|fs| - 1]) + Rounding(OnFills(fs[..|fs| - 1]), fs[|fs| - 1])
  }

  /** One less than the position after each averaging fill, summed. */
  function DriftBound(fs: seq<Fill>): int {
    if fs == [] then 0
    else
      var p := OnFills(fs[..|fs| - 1]);
      var f := fs[|fs| - 1];
      DriftBound(fs[..|fs| - 1])
      + if SameDirection(p.position, Signed(f)) then Abs(p.position + Signed(f)) - 1 else 0
  }

  /** The averaging of this fill, if it averages, divides without remainder. */
  predicate Divides(p: Position, f: Fill) {
    SameDirection(p.position, Signed(f)) ==> Weighted(p, f) % (Abs(p.position) + Abs(Signed(f))) == 0
  }

  predicate AllDivide(fs: seq<Fill>) {
    forall i :: 0 <= i < |fs| ==> Divides(OnFills(fs[..i]), fs[i])
  }

  // ----- one fill -----

  lemma TruncRemainder(a: int, b: int)
    requires b > 0
    ensures -b < a - TruncDiv(a, b) * b < b
  {
    if a >= 0 {
      assert a == (a / b) * b + a % b;
    } else {
      assert -a == ((-a) / b) * b + (-a) % b;
    }
  }

  /** Cost basis: what is left of the money once the position is valued at its average cost. */
  function Basis(p: Position): int {
    p.realized - p.avgCost * p.position
  }

  lemma UnrealizedIsLinear(p: Position, mark: int)
    ensures TotalPnl(p, mark) == Basis(p) + mark * p.position
  {
    assert (mark - p.avgCost) * p.position == mark * p.position - p.avgCost * p.position;
    assert (p.avgCost - mark) * (-p.position) == mark * p.position - p.avgCost * p.position;
  }

  lemma AveragingMovesBasis(p: Position, f: Fill)
    requires SameDirection(p.position, Signed(f))
    ensures Basis(OnFill(p, f)) == Basis(p) - f.price * Signed(f) + Rounding(p, f)
  {
    var delta, sign := Signed(f), Sign(p.position);
    var n := Abs(p.position) + Abs(delta);
    var avg := TruncDiv(Weighted(p, f), n);
    assert p.position + delta == sign * n && p.position == sign * Abs(p.position) && delta == sign * Abs(delta);
    assert p.avgCost * p.position + f.price * delta == sign * Weighted(p, f);
    assert avg * (sign * n) == sign * (avg * n);
  }

  lemma ClosingMovesBasis(p: Position, f: Fill)
    requires p.position != 0 && !SameDirection(p.position, Signed(f))
    ensures Basis(OnFill(p, f)) == Basis(p) - f.price * Signed(f)
  {
    var delta := Signed(f);
    if Abs(delta) < Abs(p.position) {
      assert p.avgCost * (p.position + delta) == p.avgCost * p.position + p.avgCost * delta;
      assert (f.price - p.avgCost) * (-delta) == p.avgCost * delta - f.price * delta;
      assert (p.avgCost - f.price) * delta == p.avgCost * delta - f.price * delta;
    } else {
      assert (f.price - p.avgCost) * p.position == f.price * p.position - p.avgCost * p.position;
      assert (p.avgCost - f.price) * (-p.position) == f.price * p.position - p.avgCost * p.position;
      assert f.price * (delta + p.position) == f.price * delta + f.price * p.position;
    }
  }

  /** Any fill moves the basis by its cash, except for what averaging rounds away. */
  lemma FillMovesBasis(p: Position, f: Fill)
    ensures Basis(OnFill(p, f)) == Basis(p) - f.price * Signed(f) + Rounding(p, f)
    ensures OnFill(p, f).position == p.position + Signed(f)
  {
    if p.position == 0 {
    } else if SameDirection(p.position, Signed(f)) {
      AveragingMovesBasis(p, f);
    } else {
      ClosingMovesBasis(p, f);
    }
  }

  lemma RoundingBound(p: Position, f: Fill)
    ensures Abs(Rounding(p, f)) <= if SameDirection(p.position, Signed(f)) then Abs(p.position + Signed(f)) - 1 else 0
  {
    if SameDirection(p.position, Signed(f)) {
      TruncRemainder(Weighted(p, f), Abs(p.position) + Abs(Signed(f)));
    }
  }

  // ----- every sequence of fills -----

  /**
    The P&L identity: total P&L at any mark is net cash plus the position at that mark plus a drift
    that does not depend on the mark.
   */
  lemma PnlIdentity(fs: seq<Fill>, mark: int)
    ensures var p := OnFills(fs);
            && p.position == NetPosition(fs) && p.gross == Volume(fs)
            && TotalPnl(p, mark) == NetCash(fs) + NetPosition(fs) * mark + Drift(fs)
  {
    hide OnFills, Drift, NetCash, NetPosition, Volume, TotalPnl, Basis;
    BasisLaw(fs);
    UnrealizedIsLinear(OnFills(fs), mark);
    Commutes(mark, NetPosition(fs));
  }

  lemma Commutes(a: int, b: int)
    ensures a * b == b * a
  {
  }

  lemma {:induction false} BasisLaw(fs: seq<Fill>)
    ensures var p := OnFills(fs);
            && p.position == NetPosition(fs) && p.gross == Volume(fs)
            && Basis(p) == NetCash(fs) + Drift(fs)
  {
    if fs != [] {
      BasisLaw(fs[..|fs| - 1]);
      FillMovesBasis(OnFills(fs[..|fs| - 1]), fs[|fs| - 1]);
    }
  }

  lemma {:induction false} DriftBounded(fs: seq<Fill>)
    ensures Abs(Drift(fs)) <= DriftBound(fs)
  {
    if fs != [] {
      DriftBounded(fs[..|fs| - 1]);
      RoundingBound(OnFills(fs[..|fs| - 1]), fs[|fs| - 1]);
    }
  }

  lemma DividesIff(a: int, b: int)
    requires b > 0
    ensures a == TruncDiv(a, b) * b <==> a % b == 0
  {
    if a == TruncDiv(a, b) * b {
      W.ModUnique(a, b, TruncDiv(a, b), 0);
    }
    if a % b == 0 {
      assert a == (a / b) * b && -a == (-(a / b)) * b;
      W.ModUnique(-a, b, -(a / b), 0);
      assert -a == ((-a) / b) * b + (-a) % b;
    }
  }

  /** A fill rounds nothing away exactly if its averaging divides. */
  lemma RoundsNothingIff(p: Position, f: Fill)
    ensures Rounding(p, f) == 0 <==> Divides(p, f)
  {
    if SameDirection(p.position, Signed(f)) {
      hide TruncDiv, Weighted;
      DividesIff(Weighted(p, f), Abs(p.position) + Abs(Signed(f)));
    }
  }

  lemma DriftStep(fs: seq<Fill>, k: nat)
    requires k < |fs|
    ensures Drift(fs[..k + 1]) == Drift(fs[..k]) + Rounding(OnFills(fs[..k]), fs[k])
  {
    hide OnFills, Rounding;
    assert fs[..k + 1][..k] == fs[..k];
  }

  lemma {:induction false} NoDrift(fs: seq<Fill>, k: nat)
    requires k <= |fs| && AllDivide(fs)
    ensures Drift(fs[..k]) == 0
  {
    if k > 0 {
      assert Divides(OnFills(fs[..k - 1]), fs[k - 1]);
      hide OnFills, Rounding, Divides, AllDivide;
      NoDrift(fs, k - 1);
      DriftStep(fs, k - 1);
      RoundsNothingIff(OnFills(fs[..k - 1]), fs[k - 1]);
    }
  }

  lemma NoDriftIff(fs: seq<Fill>)
    ensures (forall k :: 0 <= k <= |fs| ==> Drift(fs[..k]) == 0) <==> AllDivide(fs)
  {
    hide OnFills, Drift, Rounding, Divides;
    if AllDivide(fs) {
      forall k: nat | k <= |fs|
        ensures Drift(fs[..k]) == 0
      {
        NoDrift(fs, k);
      }
    }
    if forall k :: 0 <= k <= |fs| ==> Drift(fs[..k]) == 0 {
      forall i | 0 <= i < |fs|
        ensures Divides(OnFills(fs[..i]), fs[i])
      {
        DriftStep(fs, i);
        RoundsNothingIff(OnFills(fs[..i]), fs[i]);
      }
    }
  }

  /** The drift stays within the bound, and stays zero exactly if every averaging divides. */
  lemma DriftIsBounded(fs: seq<Fill>)
    ensures Abs(Drift(fs)) <= DriftBound(fs)
    ensures (forall k :: 0 <= k <= |fs| ==> Drift(fs[..k]) == 0) <==> AllDivide(fs)
  {
    hide Drift, DriftBound, AllDivide;
    DriftBounded(fs);
    NoDriftIff(fs);
  }

  /** Net cash and the position at the mark, after the first `k` fills, is the P&L. */
  predicate PnlIsExact(fs: seq<Fill>, k: nat, mark: int)
    requires k <= |fs|
  {
    TotalPnl(OnFills(fs[..k]), mark) == NetCash(fs[..k]) + NetPosition(fs[..k]) * mark
  }

  /** The reported P&L is exact after every fill and at every mark exactly if every averaging divides. */
  lemma PnlIsExactIff(fs: seq<Fill>)
    ensures (forall k, mark :: 0 <= k <= |fs| ==> PnlIsExact(fs, k, mark)) <==> AllDivide(fs)
  {
    hide OnFills, Drift, NetCash, NetPosition, Volume, TotalPnl, AllDivide;
    forall k: nat, mark | k <= |fs|
      ensures PnlIsExact(fs, k, mark) <==> Drift(fs[..k]) == 0
    {
      PnlIdentity(fs[..k], mark);
    }
    hide PnlIsExact;
    NoDriftIff(fs);
    if forall k, mark :: 0 <= k <= |fs| ==> PnlIsExact(fs, k, mark) {
      forall k: nat | k <= |fs|
        ensures Drift(fs[..k]) == 0
      {
        assert PnlIsExact(fs, k, 0);
      }
    }
  }

  /** Buys of 1 at the prices 0, 1, 2, ... */
  function Staircase(n: nat): seq<Fill> {
    if n == 0 then [] else Staircase(n - 1) + [Fill(Buy, n - 1, 1)]
  }

  /** Every averaging of the staircase throws the largest possible remainder away. */
  lemma StaircaseStep(n: nat)
    requires n > 0
    ensures OnFill(Position(n, 0, 0, n), Fill(Buy, n, 1)) == Position(n + 1, 0, 0, n + 1)
    ensures Rounding(Position(n, 0, 0, n), Fill(Buy, n, 1)) == n
  {
    assert n / (n + 1) == 0;
  }

  lemma FirstStep()
    ensures OnFill(FLAT, Fill(Buy, 0, 1)) == Position(1, 0, 0, 1) && Rounding(FLAT, Fill(Buy, 0, 1)) == 0
  {
  }

  /** The bound is reached by sequences of any length, however large it gets. */
  lemma {:induction false} DriftBoundIsTight(n: nat)
    ensures |Staircase(n + 1)| == n + 1 && OnFills(Staircase(n + 1)) == Position(n + 1, 0, 0, n + 1)
    ensures Drift(Staircase(n + 1)) == DriftBound(Staircase(n + 1)) >= n
  {
    hide OnFill, Rounding;
    var fs := Staircase(n + 1);
    assert fs[..|fs| - 1] == Staircase(n) && fs[|fs| - 1] == Fill(Buy, n, 1);
    if n == 0 {
      assert OnFills([]) == FLAT && Drift([]) == 0 && DriftBound([]) == 0;
      FirstStep();
    } else {
      DriftBoundIsTight(n - 1);
      StaircaseStep(n);
    }
  }

  // ----- realized profit and average cost -----

  /** The fill closes some of the position. */
  predicate Closes(p: Position, f: Fill) {
    (p.position > 0 && Signed(f) < 0) || (p.position < 0 && Signed(f) > 0)
  }

  /**
    What one fill does to the books: profit is realized on the closed units only, each at its distance
    from the average cost; the average cost is the fill's price once the position has changed sides,
    unchanged while it only shrinks, and less than one off the weighted mean while it grows.
   */
  lemma FillIsBooked(p: Position, f: Fill)
    ensures var r, delta := OnFill(p, f), Signed(f);
            && r.realized == p.realized
                             + (if Closes(p, f) then
                                  Min(Abs(p.position), Abs(delta)) * (Sign(p.position) * (f.price - p.avgCost))
                                else 0)
            && (r.position * p.position <= 0 && r.position != 0 ==> r.avgCost == f.price)
            && (Closes(p, f) && r.position * p.position > 0 ==> r.avgCost == p.avgCost)
            && (p.position * delta > 0 ==>
                  Abs(p.avgCost * Abs(p.position) + f.price * Abs(delta) - r.avgCost * Abs(r.position))
                  < Abs(r.position))
  {
    var r, delta := OnFill(p, f), Signed(f);
    SameSign(p.position, delta);
    SameSign(p.position, r.position);
    if SameDirection(p.position, delta) {
      TruncRemainder(Weighted(p, f), Abs(p.position) + Abs(delta));
      assert Abs(r.position) == Abs(p.position) + Abs(delta);
    } else if p.position != 0 {
      var perUnit := if p.position > 0 then f.price - p.avgCost else p.avgCost - f.price;
      assert perUnit == Sign(p.position) * (f.price - p.avgCost);
      Commutes(perUnit, Min(Abs(p.position), Abs(delta)));
    }
  }

  lemma SameSign(a: int, b: int)
    ensures a * b > 0 <==> (a > 0 && b > 0) || (a < 0 && b < 0)
    ensures a * b == 0 <==> a == 0 || b == 0
  {
  }

  /** Fills of positive quantity, all on one side, at prices from `low` to `high`. */
  predicate OneSided(fs: seq<Fill>, side: Side, low: int, high: int) {
    forall i :: 0 <= i < |fs| ==> fs[i].side == side && fs[i].qty > 0 && low <= fs[i].price <= high
  }

  lemma NextMultiple(a: int, b: int, n: int)
    requires a < b && n > 0
    ensures a * n + n <= b * n
  {
    W.MulBound(b - a, n);
    assert b * n == a * n + (b - a) * n;
  }

  /** A mean of prices between `low` and `high`, truncated, stays between them. */
  lemma AverageBetween(a: int, n: int, low: int, high: int)
    requires n > 0 && low * n <= a <= high * n
    ensures low <= TruncDiv(a, n) <= high
  {
    hide TruncDiv;
    var q := TruncDiv(a, n);
    TruncRemainder(a, n);
    if q < low {
      NextMultiple(q, low, n);
    } else if q > high {
      NextMultiple(high, q, n);
    }
  }

  lemma WeightedBetween(avg: int, have: int, price: int, add: int, low: int, high: int)
    requires have >= 0 && add >= 0 && low <= avg <= high && low <= price <= high
    ensures low * (have + add) <= avg * have + price * add <= high * (have + add)
  {
    assert (avg - low) * have >= 0 && (price - low) * add >= 0;
    assert (high - avg) * have >= 0 && (high - price) * add >= 0;
  }

  /** Building a position up from flat. */
  predicate Building(p: Position, side: Side, low: int, high: int) {
    && (if side.Buy? then p.position >= 0 else p.position <= 0)
    && (p.position != 0 ==> low <= p.avgCost <= high)
  }

  lemma StillBuilding(p: Position, f: Fill, low: int, high: int)
    requires Building(p, f.side, low, high) && f.qty > 0 && low <= f.price <= high
    ensures var r := OnFill(p, f);
            Building(r, f.side, low, high) && r.position != 0 && r.realized == p.realized
  {
    if p.position != 0 {
      var have, add := Abs(p.position), Abs(Signed(f));
      WeightedBetween(p.avgCost, have, f.price, add, low, high);
      AverageBetween(Weighted(p, f), have + add, low, high);
    }
  }

  /**
    Fills on one side only open and add: whenever the position was flat, buys alone or sells alone
    realize nothing after that, and the average cost lies between the lowest and the highest price paid.
   */
  lemma {:induction false} BuildingUp(before: seq<Fill>, fs: seq<Fill>, side: Side, low: int, high: int)
    requires OnFills(before).position == 0 && OneSided(fs, side, low, high)
    ensures var r := OnFills(before + fs);
            && r.realized == OnFills(before).realized
            && Building(r, side, low, high) && (fs != [] ==> r.position != 0 && low <= r.avgCost <= high)
  {
    if fs == [] {
      assert before + fs == before;
    } else {
      hide OnFill, Building;
      var n, all := |fs| - 1, before + fs;
      BuildingUp(before, fs[..n], side, low, high);
      assert all[..|all| - 1] == before + fs[..n] && all[|all| - 1] == fs[n];
      StillBuilding(OnFills(before + fs[..n]), fs[n], low, high);
      BuildingMeans(OnFills(all), side, low, high);
    }
  }

  lemma BuildingMeans(p: Position, side: Side, low: int, high: int)
    requires Building(p, side, low, high) && p.position != 0
    ensures low <= p.avgCost <= high
  {
  }

  /** Fills of positive quantity: a flat position has no average cost, and everything is realized. */
  lemma {:induction false} FlatIsSettled(fs: seq<Fill>)
    requires forall i :: 0 <= i < |fs| ==> fs[i].qty > 0
    ensures var p := OnFills(fs);
            p.position == 0 ==> p.avgCost == 0 && p.realized == NetCash(fs) + Drift(fs)
  {
    if fs != [] {
      BasisLaw(fs);
      hide NetCash, Drift;
      FlatCostsNothing(OnFills(fs[..|fs| - 1]), fs[|fs| - 1]);
    }
  }

  lemma FlatCostsNothing(p: Position, f: Fill)
    requires f.qty > 0
    ensures OnFill(p, f).position == 0 ==> OnFill(p, f).avgCost == 0
  {
  }

  class Portfolio {
    var position: int
    var avgCost: int
    var realized: int
    var gross: int

    ghost function View(): Position
      reads this
    {
      Position(position, avgCost, realized, gross)
    }

    constructor ()
      ensures View() == FLAT
    {
      position, avgCost, realized, gross := 0, 0, 0, 0;
    }

    method Deliver(side: Side, price: int, qty: int)
      modifies this
      ensures View() == OnFill(old(View()), Fill(side, price, qty))
    {
      var delta := if side.Buy? then qty else -qty;
      gross := gross + qty;
      if position == 0 {
        position, avgCost := delta, price;
        return;
      }
      if (position > 0 && delta > 0) || (position < 0 && delta < 0) {
        var absOld, absAdd := Abs(position), Abs(delta);
        avgCost := TruncDiv(avgCost * absOld + price * absAdd, absOld + absAdd);
        position := position + delta;
        return;
      }
      var absPos, absFill := Abs(position), Abs(delta);
      var closed := Min(absPos, absFill);
      var perUnit := if position > 0 then price - avgCost else avgCost - price;
      realized := realized + perUnit * closed;
      if absFill < absPos {
        position := position + delta;
      } else if absFill == absPos {
        position, avgCost := 0, 0;
      } else {
        position, avgCost := delta + position, price;
      }
    }
  }
}
