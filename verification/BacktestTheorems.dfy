/** What a backtest can rely on: attribution, zero-sum internal trades, positions against the trades themselves. */
module BacktestTheorems {
  import opened Orders
  import opened PriorityBook
  import opened BookInvariant
  import opened BookRuns
  import opened Backtest
  import opened BacktestLaws
  import opened BacktestRuns
  import P = Portfolios

  // ----- a strategy is never credited more than it submitted -----

  lemma {:induction false} LedgerSigns(capacity: nat, ops: seq<Op>, id: nat)
    ensures var a := Ledger(Run(Empty(capacity), ops).log, id);
            a.taken >= 0 && a.made >= 0 && a.cancelled >= 0 && a.dropped >= 0
  {
    if ops != [] {
      var n := |ops| - 1;
      var r := Run(Empty(capacity), ops[..n]);
      LedgerSigns(capacity, ops[..n], id);
      RunKeepsInv(Empty(capacity), ops[..n]);
      LedgerStep(r.log, Happen(r.book, ops[n]), id);
      if ops[n].PlaceOp? {
        PlacementSigns(r.book, ops[n].side, ops[n].price, ops[n].qty, id);
      } else {
        RestsHasQty(r.book, ops[n].id);
      }
    }
  }

  lemma PlacementSigns(b: Book, side: Side, price: int, qty: int, id: nat)
    requires PriorityBook.Inv(b)
    ensures var r := Place(b, side, price, qty);
            TakenBy(r.trades, id) >= 0 && MadeBy(r.trades, id) >= 0 && r.dropped >= 0
  {
    var ts := Place(b, side, price, qty).trades;
    PriceTimePriority(b, side, price, qty);
    MadeBySign(ts, id);
    PlaceConserves(b, side, price, qty, id);
    PositiveTotal(ts);
  }

  lemma {:induction false} LossesArePositive(routing: map<nat, nat>, orders: map<nat, Info>, ts: seq<Trade>, k: nat)
    requires k <= |ts| && forall i :: 0 <= i < |ts| ==> ts[i].qty > 0
    ensures forall l :: l in Losses(routing, orders, ts, k) ==> l.qty > 0
    decreases |ts| - k
  {
    if k < |ts| {
      LossesArePositive(routing, orders, ts, k + 1);
    }
  }

  predicate PositiveLosses(ls: seq<Loss>) {
    forall i :: 0 <= i < |ls| ==> ls[i].qty > 0
  }

  ghost predicate History(w: World) {
    && PositiveLosses(w.lost)
    && (forall id :: id in w.orders ==>
          Ledger(Run(Empty(w.capacity), w.ops).log, id).placed == Max(w.orders[id].qty, 0))
  }

  lemma PlacedStep(w: World, v: World, owner: Owner, side: Side, price: int, qty: int)
    requires Backtest.Inv(w) && History(w) && v.capacity == w.capacity
    requires v.ops == w.ops + [PlaceOp(side, price, qty)]
    requires v.orders == w.orders[w.book.nextId := Info(owner, side, qty)]
    requires PositiveLosses(v.lost)
    ensures History(v)
  {
    hide Run, Ledger, PriorityBook.Inv;
    var e := Happen(w.book, PlaceOp(side, price, qty));
    RecordedStep(w, PlaceOp(side, price, qty));
    forall id | id in v.orders
      ensures Ledger(Run(Empty(v.capacity), v.ops).log, id).placed == Max(v.orders[id].qty, 0)
    {
      LedgerStep(Run(Empty(w.capacity), w.ops).log, e, id);
      if id == w.book.nextId {
        UnusedHasNotTraded(w.capacity, w.ops, id);
      }
    }
  }

  lemma CancelledStep(w: World, v: World, x: nat)
    requires Backtest.Inv(w) && History(w) && v.capacity == w.capacity
    requires v.ops == w.ops + [CancelOp(x)] && v.orders == w.orders && v.lost == w.lost
    ensures History(v)
  {
    hide Run, Ledger, PriorityBook.Inv;
    RecordedStep(w, CancelOp(x));
    forall id | id in v.orders
      ensures Ledger(Run(Empty(v.capacity), v.ops).log, id).placed == Max(v.orders[id].qty, 0)
    {
      LedgerStep(Run(Empty(w.capacity), w.ops).log, Happen(w.book, CancelOp(x)), id);
    }
  }

  lemma LostPositive(w: World, routing: map<nat, nat>, side: Side, price: int, qty: int)
    requires Backtest.Inv(w) && History(w)
    ensures var ls := Losses(routing, w.orders, TradesOf(w, side, price, qty), 0);
            PositiveLosses(w.lost + ls)
  {
    var ts := TradesOf(w, side, price, qty);
    PlacementIsFair(w, side, price, qty);
    LossesArePositive(routing, w.orders, ts, 0);
    var ls := Losses(routing, w.orders, ts, 0);
    assert forall i :: 0 <= i < |ls| ==> ls[i] in ls;
  }

  lemma NextKeepsHistory(w: World, step: Step)
    requires Backtest.Inv(w) && History(w)
    ensures History(Next(w, step))
  {
    hide History, PositiveLosses, Backtest.Inv, Deliver, ExoCredits, OwnCredits, Losses, Place;
    var v := Next(w, step);
    match step
    case Add(side, price, qty, extId) =>
      LostPositive(w, w.routing, side, price, qty);
      PlacedStep(w, v, Exogenous, side, price, qty);
    case Remove(extId) =>
      if extId in w.ext {
        CancelledStep(w, v, w.ext[extId]);
      }
    case TradePrint(price) => PrintHistory(w, price);
    case Quote(s, side, price, qty) =>
      LostPositive(w, v.routing, side, price, qty);
      PlacedStep(w, v, Strategy(s), side, price, qty);
    case Pull(s, id) => CancelledStep(w, v, id);
  }

  lemma PrintHistory(w: World, price: int)
    ensures History(Print(w, price)) <==> History(w)
  {
  }

  lemma {:induction false} PlayKeepsHistory(capacity: nat, strategies: nat, steps: seq<Step>)
    requires forall i :: 0 <= i < |steps| ==> Knows(strategies, steps[i])
    ensures History(Play(Start(capacity, strategies), steps))
  {
    if steps != [] {
      var n := |steps| - 1;
      PlayKeepsInv(capacity, strategies, steps[..n]);
      PlayKeepsHistory(capacity, strategies, steps[..n]);
      NextKeepsHistory(Play(Start(capacity, strategies), steps[..n]), steps[n]);
    }
  }

  lemma {:induction false} LostSign(ls: seq<Loss>, id: nat)
    requires PositiveLosses(ls)
    ensures LostQty(ls, id) >= 0
  {
    if ls != [] {
      LostSign(ls[..|ls| - 1], id);
    }
  }

  /**
    After any run: each credit is a trade that happened, credited to the strategy that placed the
    order and on the order's side; what a strategy's order traded was credited or lost, and never
    exceeds what was submitted; and a routed order has lost nothing.
   */
  lemma FillsAreAttributed(capacity: nat, strategies: nat, steps: seq<Step>, id: nat)
    requires forall i :: 0 <= i < |steps| ==> Knows(strategies, steps[i])
    requires OwnedByStrategy(Play(Start(capacity, strategies), steps).orders, id)
    ensures var w := Play(Start(capacity, strategies), steps);
            && CreditsOk(w)
            && CreditedQty(w.credits, id) + LostQty(w.lost, id) == TradedQty(w, id)
            && 0 <= CreditedQty(w.credits, id) + LostQty(w.lost, id) <= Max(w.orders[id].qty, 0)
            && LostQty(w.lost, id) >= 0
            && (id in w.routing ==> LostQty(w.lost, id) == 0)
  {
    hide Run, Ledger, PriorityBook.Inv, CreditedQty, LostQty, HasId, FillsOf;
    var w := Play(Start(capacity, strategies), steps);
    PlayKeepsInv(capacity, strategies, steps);
    PlayKeepsHistory(capacity, strategies, steps);
    LedgerSigns(capacity, w.ops, id);
    PlayCapacity(capacity, strategies, steps);
    Conservation(capacity, w.ops, id);
    RestsHasQty(w.book, id);
    LostSign(w.lost, id);
    if id in w.routing {
      RoutedLosesNothing(w.lost, w.routing, id);
    }
  }

  lemma NextCapacity(w: World, step: Step)
    ensures Next(w, step).capacity == w.capacity
  {
    hide Deliver, ExoCredits, OwnCredits, Losses, Place, ExoRouting, Rests, Cancel, Bump;
  }

  lemma {:induction false} PlayCapacity(capacity: nat, strategies: nat, steps: seq<Step>)
    ensures Play(Start(capacity, strategies), steps).capacity == capacity
  {
    if steps != [] {
      hide Next;
      PlayCapacity(capacity, strategies, steps[..|steps| - 1]);
      NextCapacity(Play(Start(capacity, strategies), steps[..|steps| - 1]), steps[|steps| - 1]);
    }
  }

  lemma {:induction false} RoutedLosesNothing(ls: seq<Loss>, routing: map<nat, nat>, id: nat)
    requires id in routing && forall i :: 0 <= i < |ls| ==> ls[i].order !in routing
    ensures LostQty(ls, id) == 0
  {
    if ls != [] {
      RoutedLosesNothing(ls[..|ls| - 1], routing, id);
    }
  }

  /** Each strategy's P&L obeys the accounting identity over exactly the fills it was credited. */
  lemma StrategyPnl(capacity: nat, strategies: nat, steps: seq<Step>, s: nat, mark: int)
    requires forall i :: 0 <= i < |steps| ==> Knows(strategies, steps[i])
    requires s < strategies
    ensures var w := Play(Start(capacity, strategies), steps);
            var fs := FillsOf(w.credits, s);
            && |w.accounts| == strategies
            && w.accounts[s].portfolio.position == P.NetPosition(fs)
            && P.TotalPnl(w.accounts[s].portfolio, mark)
               == P.NetCash(fs) + P.NetPosition(fs) * mark + P.Drift(fs)
  {
    var w := Play(Start(capacity, strategies), steps);
    PlayKeepsInv(capacity, strategies, steps);
    P.PnlIdentity(FillsOf(w.credits, s), mark);
  }

  // ----- what rests -----

  lemma RestingOld(w: World, side: Side, price: int, qty: int, id: nat)
    requires Backtest.Inv(w) && id != w.book.nextId
    ensures Resting(Place(w.book, side, price, qty).book, id)
            == Resting(w.book, id) - MadeBy(TradesOf(w, side, price, qty), id)
    ensures MadeBy(TradesOf(w, side, price, qty), id) >= 0
  {
    PlaceConserves(w.book, side, price, qty, id);
    PlacementSigns(w.book, side, price, qty, id);
  }

  lemma MakersRest(w: World, side: Side, price: int, qty: int)
    requires Backtest.Inv(w)
    ensures var ts := TradesOf(w, side, price, qty);
            forall i :: 0 <= i < |ts| ==> Resting(w.book, ts[i].makerId) > 0
  {
    var ts := TradesOf(w, side, price, qty);
    PlacementIsFair(w, side, price, qty);
    forall i | 0 <= i < |ts|
      ensures Resting(w.book, ts[i].makerId) > 0
    {
      HasIdRests(w.book, side.Opposite(), ts[i].makerId);
    }
  }

  lemma HasIdRests(b: Book, side: Side, id: nat)
    requires PriorityBook.Inv(b) && HasId(SideOf(b, side), id)
    ensures Resting(b, id) > 0
  {
    var q := SideOf(b, side);
    var k :| 0 <= k < |q| && q[k].id == id;
    assert All(b)[if side.Buy? then k else |b.bids| + k] == q[k];
    RestsHasQty(b, id);
  }

  lemma RestingAfterCancel(b: Book, x: nat, id: nat)
    requires PriorityBook.Inv(b)
    ensures Resting(Cancel(b, x), id) == if x == id then 0 else Resting(b, id)
  {
    QtyOfRemove(b.bids, x, id);
    QtyOfRemove(b.asks, x, id);
    RestsHasQty(b, id);
  }

  // ----- trades between strategies are zero-sum -----

  function TotalPosition(accounts: seq<Standing>): int {
    if accounts == [] then 0
    else TotalPosition(accounts[..|accounts| - 1]) + accounts[|accounts| - 1].portfolio.position
  }

  function SignedSum(cs: seq<Credit>): int {
    if cs == [] then 0 else SignedSum(cs[..|cs| - 1]) + P.Signed(cs[|cs| - 1].fill)
  }

  function Directed(side: Side, qty: int): int {
    if side.Buy? then qty else -qty
  }

  /** Quantity traded, from trade `k` on, with makers that are not routed to a strategy. */
  function TradedOutside(routing: map<nat, nat>, ts: seq<Trade>, k: nat): int
    requires k <= |ts|
    decreases |ts| - k
  {
    if k == |ts| then 0
    else (if ts[k].makerId in routing then 0 else ts[k].qty) + TradedOutside(routing, ts, k + 1)
  }

  lemma {:induction false} TotalUpdate(accounts: seq<Standing>, s: nat, a: Standing)
    requires s < |accounts|
    ensures TotalPosition(accounts[s := a])
            == TotalPosition(accounts) - accounts[s].portfolio.position + a.portfolio.position
  {
    var n := |accounts| - 1;
    if s < n {
      TotalUpdate(accounts[..n], s, a);
      assert accounts[s := a][..n] == accounts[..n][s := a];
    } else {
      assert accounts[s := a][..n] == accounts[..n];
    }
  }

  lemma {:induction false} DeliverSums(accounts: seq<Standing>, cs: seq<Credit>)
    requires forall i :: 0 <= i < |cs| ==> cs[i].strategy < |accounts|
    ensures TotalPosition(Deliver(accounts, cs)) == TotalPosition(accounts) + SignedSum(cs)
  {
    if cs != [] {
      var n := |cs| - 1;
      DeliverSums(accounts, cs[..n]);
      var before := Deliver(accounts, cs[..n]);
      var s := cs[n].strategy;
      TotalUpdate(before, s, CreditStanding(before[s], cs[n].fill));
      P.FillMovesBasis(before[s].portfolio, cs[n].fill);
    }
  }

  lemma {:induction false} SignedAppend(a: seq<Credit>, b: seq<Credit>)
    ensures SignedSum(a + b) == SignedSum(a) + SignedSum(b)
  {
    if b == [] {
      assert a + b == a;
    } else {
      var n := |b| - 1;
      SignedAppend(a, b[..n]);
      assert (a + b)[..|a| + n] == a + b[..n];
    }
  }

  lemma SignedOne(c: Credit)
    ensures SignedSum([c]) == P.Signed(c.fill)
  {
    assert [c][..0] == [];
  }

  lemma {:induction false} OwnCreditsSum(routing: map<nat, nat>, s: nat, side: Side, ts: seq<Trade>, op: nat, k: nat)
    requires k <= |ts|
    ensures SignedSum(OwnCredits(routing, s, side, ts, op, k))
            == Directed(side, TradedOutside(routing, ts, k))
    decreases |ts| - k
  {
    if k < |ts| {
      hide SignedSum;
      OwnCreditsSum(routing, s, side, ts, op, k + 1);
      var a := TakerCredit(s, side, ts[k], op, k);
      var rest := OwnCredits(routing, s, side, ts, op, k + 1);
      SignedOne(a);
      if ts[k].makerId in routing {
        var m := MakerCredit(routing[ts[k].makerId], side, ts[k], op, k);
        SignedOne(m);
        SignedAppend([a], [m]);
        SignedAppend([a] + [m], rest);
      } else {
        SignedAppend([a], rest);
        assert [a] + [] + rest == [a] + rest;
      }
    }
  }

  lemma {:induction false} TotalSame(a: seq<Standing>, b: seq<Standing>)
    requires |a| == |b| && forall s :: 0 <= s < |a| ==> a[s].portfolio == b[s].portfolio
    ensures TotalPosition(a) == TotalPosition(b)
  {
    if a != [] {
      TotalSame(a[..|a| - 1], b[..|b| - 1]);
    }
  }

  /**
    A strategy's placement moves the sum of all positions only by what it trades with makers that
    are not routed to a strategy: trades between strategies cancel out.
   */
  lemma InternalTradesCancel(w: World, s: nat, side: Side, price: int, qty: int)
    requires Backtest.Inv(w) && s < |w.accounts|
    ensures var v := OwnPlace(w, s, side, price, qty);
            TotalPosition(v.accounts) == TotalPosition(w.accounts)
              + Directed(side, TradedOutside(w.routing, TradesOf(w, side, price, qty), 0))
  {
    hide Deliver, Run, PriorityBook.Inv, Losses, TradedOutside, TotalPosition, SignedSum, OwnCredits, Place;
    var v := OwnPlace(w, s, side, price, qty);
    var ts := TradesOf(w, side, price, qty);
    var bumped := Bump(w.accounts, s, 1, 0);
    var cs := OwnCredits(v.routing, s, side, ts, |w.ops|, 0);
    OwnPlaceCredits(w, s, side, price, qty);
    forall i | 0 <= i < |cs|
      ensures cs[i].strategy < |bumped|
    {
      assert v.credits[|w.credits| + i] == cs[i];
      CreditNamesStrategy(w, v, s, cs[i]);
    }
    DeliverSums(bumped, cs);
    TotalSame(bumped, w.accounts);
    OwnCreditsSum(v.routing, s, side, ts, |w.ops|, 0);
    PlacementIsFair(w, side, price, qty);
    TradedOutsideSame(w.routing, v.routing, ts, 0);
  }

  lemma CreditNamesStrategy(w: World, v: World, s: nat, c: Credit)
    requires OrdersOk(w) && s < |w.accounts| && CreditOk(v, c)
    requires exists info :: v.orders == w.orders[w.book.nextId := info] && info.owner == Strategy(s)
    ensures c.strategy < |w.accounts|
  {
  }

  lemma {:induction false} TradedOutsideSame(r1: map<nat, nat>, r2: map<nat, nat>, ts: seq<Trade>, k: nat)
    requires k <= |ts| && forall i :: 0 <= i < |ts| ==> (ts[i].makerId in r1 <==> ts[i].makerId in r2)
    ensures TradedOutside(r1, ts, k) == TradedOutside(r2, ts, k)
    decreases |ts| - k
  {
    if k < |ts| {
      TradedOutsideSame(r1, r2, ts, k + 1);
    }
  }

  // ----- positions against the trades themselves -----

  predicate PlacedBy(orders: map<nat, Info>, s: nat, id: nat) {
    id in orders && orders[id].owner == Strategy(s)
  }

  /** Net quantity credited to the orders of `s` with ids below `n`. */
  function NetCredited(orders: map<nat, Info>, cs: seq<Credit>, s: nat, n: nat): int {
    if n == 0 then 0
    else NetCredited(orders, cs, s, n - 1)
         + if PlacedBy(orders, s, n - 1) then Directed(orders[n - 1].side, CreditedQty(cs, n - 1)) else 0
  }

  /** Net quantity that traded without the strategy being told. */
  function NetLost(w: World, s: nat, n: nat): int {
    if n == 0 then 0
    else NetLost(w, s, n - 1)
         + if PlacedBy(w.orders, s, n - 1) then Directed(w.orders[n - 1].side, LostQty(w.lost, n - 1)) else 0
  }

  /** Net quantity the orders of `s` have traded on the book, whoever was told. */
  function Holdings(w: World, s: nat, n: nat): int {
    if n == 0 then 0
    else Holdings(w, s, n - 1)
         + if PlacedBy(w.orders, s, n - 1) then Directed(w.orders[n - 1].side, TradedQty(w, n - 1)) else 0
  }

  lemma {:induction false} OneMoreCredit(orders: map<nat, Info>, cs: seq<Credit>, c: Credit, s: nat, n: nat)
    requires c.order in orders && orders[c.order].owner == Strategy(c.strategy)
    requires orders[c.order].side == c.fill.side
    ensures NetCredited(orders, cs + [c], s, n)
            == NetCredited(orders, cs, s, n) + if c.order < n && c.strategy == s then P.Signed(c.fill) else 0
  {
    if n > 0 {
      hide CreditedQty;
      OneMoreCredit(orders, cs, c, s, n - 1);
      CreditedAppend(cs, [c], n - 1);
      CreditedOne(c, n - 1);
    }
  }

  lemma {:induction false} NoCredits(orders: map<nat, Info>, s: nat, n: nat)
    ensures NetCredited(orders, [], s, n) == 0
  {
    if n > 0 {
      NoCredits(orders, s, n - 1);
    }
  }

  /** A net position is the signed sum of what its orders were credited. */
  lemma {:induction false} PositionIsCredited(orders: map<nat, Info>, cs: seq<Credit>, s: nat, n: nat)
    requires forall i :: 0 <= i < |cs| ==>
               && cs[i].order in orders && cs[i].order < n
               && orders[cs[i].order].owner == Strategy(cs[i].strategy) && orders[cs[i].order].side == cs[i].fill.side
    ensures P.NetPosition(FillsOf(cs, s)) == NetCredited(orders, cs, s, n)
  {
    if cs == [] {
      NoCredits(orders, s, n);
    } else {
      var k := |cs| - 1;
      PositionIsCredited(orders, cs[..k], s, n);
      OneMoreCredit(orders, cs[..k], cs[k], s, n);
      assert cs == cs[..k] + [cs[k]];
      var fs := FillsOf(cs[..k], s);
      P.NetSnoc(fs, cs[k].fill);
      assert FillsOf(cs, s) == if cs[k].strategy == s then fs + [cs[k].fill] else fs;
    }
  }

  lemma {:induction false} HoldingsSplit(w: World, s: nat, n: nat)
    requires Attributed(w)
    ensures Holdings(w, s, n) == NetCredited(w.orders, w.credits, s, n) + NetLost(w, s, n)
  {
    if n > 0 {
      hide CreditedQty, LostQty, TradedQty;
      HoldingsSplit(w, s, n - 1);
    }
  }

  lemma {:induction false} NothingLostNothingMissing(w: World, s: nat, n: nat)
    requires w.lost == []
    ensures NetLost(w, s, n) == 0
  {
    if n > 0 {
      NothingLostNothingMissing(w, s, n - 1);
    }
  }

  /**
    A strategy's position is what its orders have net traded on the book, less what was lost; with
    nothing lost it is exactly that.
   */
  lemma PositionIsHoldings(w: World, s: nat)
    requires Backtest.Inv(w) && s < |w.accounts|
    ensures var n := w.book.nextId;
            && w.accounts[s].portfolio.position + NetLost(w, s, n) == Holdings(w, s, n)
            && (w.lost == [] ==> w.accounts[s].portfolio.position == Holdings(w, s, n))
  {
    hide FillsOf, Run, PriorityBook.Inv, P.OnFills;
    var n := w.book.nextId;
    forall i | 0 <= i < |w.credits|
      ensures w.credits[i].order in w.orders && w.credits[i].order < n
    {
      assert CreditOk(w, w.credits[i]);
    }
    PositionIsCredited(w.orders, w.credits, s, n);
    HoldingsSplit(w, s, n);
    P.BasisLaw(FillsOf(w.credits, s));
    if w.lost == [] {
      NothingLostNothingMissing(w, s, n);
    }
  }
}
