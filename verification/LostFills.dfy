/** When fills reach nobody: which order strands a route, and exactly which orders lose fills in a run. */
module LostFills {
  import opened Orders
  import opened PriorityBook
  import opened BookInvariant
  import opened BookRuns
  import opened Backtest
  import opened BacktestLaws
  import opened BacktestRuns
  import opened BacktestTheorems

  // ----- when a route is stranded -----

  /** Every resting order of a strategy is still routed to it. */
  ghost predicate NothingStranded(w: World) {
    forall id :: OwnedByStrategy(w.orders, id) && Resting(w.book, id) > 0 ==> id in w.routing
  }

  /** The incoming exogenous order will trade with a strategy's order and leave some of it resting. */
  ghost predicate Strands(w: World, side: Side, price: int, qty: int) {
    var q := SideOf(w.book, side.Opposite());
    exists j :: 0 <= j < |q| && OwnedByStrategy(w.orders, q[j].id) && LeftPartly(q, side, price, qty, j)
  }

  lemma {:induction false} QtyOfAt(q: seq<Order>, j: nat)
    requires DistinctIds(q) && j < |q|
    ensures QtyOf(q, q[j].id) == q[j].qty
  {
    if j == 0 {
      QtyOfNone(q[1..], q[0].id);
    } else {
      QtyOfAt(q[1..], j - 1);
    }
  }

  lemma {:induction false} QtyOfNone(q: seq<Order>, id: nat)
    requires forall i :: 0 <= i < |q| ==> q[i].id != id
    ensures QtyOf(q, id) == 0
  {
    if q != [] {
      QtyOfNone(q[1..], id);
    }
  }

  /** What rests under the id of a queued order is that order's quantity. */
  lemma RestingAt(b: Book, side: Side, j: nat)
    requires PriorityBook.Inv(b) && j < |SideOf(b, side)|
    ensures Resting(b, SideOf(b, side)[j].id) == SideOf(b, side)[j].qty
  {
    InvBySide(b, side);
    QtyOfAt(SideOf(b, side), j);
    QtyOfNone(SideOf(b, side.Opposite()), SideOf(b, side)[j].id);
  }

  /** A maker is left partly filled exactly as the queue before the call tells. */
  lemma PartlyFilled(w: World, side: Side, price: int, qty: int, j: nat)
    requires Backtest.Inv(w) && j < |SideOf(w.book, side.Opposite())|
    ensures var q := SideOf(w.book, side.Opposite());
            var ts := TradesOf(w, side, price, qty);
            && |ts| <= |q|
            && (j < |ts| ==> ts[j].makerId == q[j].id)
            && (j < |ts| <==> Reached(q, side, price, qty, j))
            && (j < |ts| && ts[j].qty < Resting(w.book, q[j].id) <==> LeftPartly(q, side, price, qty, j))
  {
    hide PriorityBook.Inv, Resting, Place;
    PlacementReaches(w.book, side, price, qty, j);
    RestingAt(w.book, side.Opposite(), j);
  }

  lemma ExoAddKeepsRouted(w: World, side: Side, price: int, qty: int, extId: nat, id: nat)
    requires Backtest.Inv(w) && NothingStranded(w) && !Strands(w, side, price, qty)
    requires var v := ExoAdd(w, side, price, qty, extId);
             OwnedByStrategy(v.orders, id) && Resting(v.book, id) > 0
    ensures id in ExoAdd(w, side, price, qty, extId).routing
  {
    hide Resting, ExoCredits, Losses, Deliver, Run, PriorityBook.Inv;
    var v := ExoAdd(w, side, price, qty, extId);
    var ts := TradesOf(w, side, price, qty);
    assert OwnedByStrategy(w.orders, id);
    RestingOld(w, side, price, qty, id);
    ExoRoutingKeeps(w.routing, ts, 0);
    PlacementIsFair(w, side, price, qty);
    if k :| 0 <= k < |ts| && ts[k].makerId == id {
      MadeAt(ts, k);
      GreedyLength(w, side, price, qty);
      PartlyFilled(w, side, price, qty, k);
    }
  }

  lemma GreedyLength(w: World, side: Side, price: int, qty: int)
    requires PriorityBook.Inv(w.book)
    ensures |TradesOf(w, side, price, qty)| <= |SideOf(w.book, side.Opposite())|
  {
    PriceTimePriority(w.book, side, price, qty);
  }

  lemma StrandedMaker(w: World, side: Side, price: int, qty: int, extId: nat, k: nat)
    requires Backtest.Inv(w) && k < |TradesOf(w, side, price, qty)|
    requires var t := TradesOf(w, side, price, qty)[k];
             OwnedByStrategy(w.orders, t.makerId) && t.qty < Resting(w.book, t.makerId)
    ensures !NothingStranded(ExoAdd(w, side, price, qty, extId))
  {
    hide Resting, ExoCredits, ExoRouting, Losses, Deliver, Run, PriorityBook.Inv;
    var v := ExoAdd(w, side, price, qty, extId);
    var ts := TradesOf(w, side, price, qty);
    var id := ts[k].makerId;
    RestingOld(w, side, price, qty, id);
    PlacementIsFair(w, side, price, qty);
    MadeAt(ts, k);
    ExoRoutingKeeps(w.routing, ts, 0);
    assert OwnedByStrategy(v.orders, id) && Resting(v.book, id) > 0 && id !in v.routing;
  }

  /** An exogenous order strands something exactly when it leaves a strategy's order partly filled. */
  lemma StrandsIff(w: World, side: Side, price: int, qty: int, extId: nat)
    requires Backtest.Inv(w) && NothingStranded(w)
    ensures NothingStranded(ExoAdd(w, side, price, qty, extId)) <==> !Strands(w, side, price, qty)
  {
    hide Resting, ExoAdd, TradesOf, Backtest.Inv, LeftPartly;
    var v := ExoAdd(w, side, price, qty, extId);
    var q := SideOf(w.book, side.Opposite());
    if j :| 0 <= j < |q| && OwnedByStrategy(w.orders, q[j].id) && LeftPartly(q, side, price, qty, j) {
      PartlyFilled(w, side, price, qty, j);
      StrandedMaker(w, side, price, qty, extId, j);
    } else {
      forall id | OwnedByStrategy(v.orders, id) && Resting(v.book, id) > 0
        ensures id in v.routing
      {
        ExoAddKeepsRouted(w, side, price, qty, extId, id);
      }
    }
  }

  /** While nothing is stranded, a placement loses no fill. */
  lemma {:induction false} NoLosses(w: World, routing: map<nat, nat>, ts: seq<Trade>, k: nat)
    requires NothingStranded(w) && k <= |ts|
    requires forall id :: id in w.routing ==> id in routing
    requires forall i :: 0 <= i < |ts| ==> Resting(w.book, ts[i].makerId) > 0
    ensures Losses(routing, w.orders, ts, k) == []
    decreases |ts| - k
  {
    if k < |ts| {
      NoLosses(w, routing, ts, k + 1);
    }
  }

  lemma OwnPlaceStrandsNothing(w: World, s: nat, side: Side, price: int, qty: int)
    requires Backtest.Inv(w) && NothingStranded(w)
    ensures NothingStranded(OwnPlace(w, s, side, price, qty))
  {
    hide Resting, OwnCredits, Losses, Deliver, Run, PriorityBook.Inv;
    var v := OwnPlace(w, s, side, price, qty);
    forall id | OwnedByStrategy(v.orders, id) && Resting(v.book, id) > 0
      ensures id in v.routing
    {
      if id != w.book.nextId {
        assert OwnedByStrategy(w.orders, id);
        RestingOld(w, side, price, qty, id);
      }
    }
  }

  lemma CancelStrandsNothing(w: World, v: World, x: nat)
    requires Backtest.Inv(w) && NothingStranded(w)
    requires v.book == Cancel(w.book, x) && v.orders == w.orders
    requires v.routing == w.routing || v.routing == w.routing - {x}
    ensures NothingStranded(v)
  {
    hide Resting, PriorityBook.Inv, Cancel;
    forall id | OwnedByStrategy(v.orders, id) && Resting(v.book, id) > 0
      ensures id in v.routing
    {
      RestingAfterCancel(w.book, x, id);
    }
  }

  lemma NextStrandsNothing(w: World, step: Step)
    requires Backtest.Inv(w) && NothingStranded(w) && w.lost == []
    requires step.Add? ==> !Strands(w, step.side, step.price, step.qty)
    ensures NothingStranded(Next(w, step)) && Next(w, step).lost == []
  {
    hide Backtest.Inv, NothingStranded, Strands, Deliver, ExoCredits, OwnCredits, Losses, Place, ExoRouting;
    var v := Next(w, step);
    match step
    case Add(side, price, qty, extId) =>
      StrandsIff(w, side, price, qty, extId);
      MakersRest(w, side, price, qty);
      NoLosses(w, w.routing, TradesOf(w, side, price, qty), 0);
    case Remove(extId) =>
      if extId in w.ext {
        CancelStrandsNothing(w, v, w.ext[extId]);
      }
    case TradePrint(price) => PrintStrandsNothing(w, price);
    case Quote(s, side, price, qty) =>
      OwnPlaceStrandsNothing(w, s, side, price, qty);
      MakersRest(w, side, price, qty);
      NoLosses(w, v.routing, TradesOf(w, side, price, qty), 0);
    case Pull(s, id) => CancelStrandsNothing(w, v, id);
  }

  lemma PrintStrandsNothing(w: World, price: int)
    ensures NothingStranded(Print(w, price)) <==> NothingStranded(w)
  {
  }

  /** No exogenous order of the run leaves a strategy's order partly filled. */
  ghost predicate WholeFills(w: World, steps: seq<Step>) {
    steps == [] ||
    var n := |steps| - 1;
    && WholeFills(w, steps[..n])
    && (steps[n].Add? ==> !Strands(Play(w, steps[..n]), steps[n].side, steps[n].price, steps[n].qty))
  }

  /** Such a run credits every strategy exactly what its orders traded. */
  lemma {:induction false} NothingLost(capacity: nat, strategies: nat, steps: seq<Step>)
    requires forall i :: 0 <= i < |steps| ==> Knows(strategies, steps[i])
    requires WholeFills(Start(capacity, strategies), steps)
    ensures var w := Play(Start(capacity, strategies), steps);
            && NothingStranded(w) && w.lost == []
            && forall id :: OwnedByStrategy(w.orders, id) ==> CreditedQty(w.credits, id) == TradedQty(w, id)
  {
    var w := Play(Start(capacity, strategies), steps);
    PlayKeepsInv(capacity, strategies, steps);
    if steps != [] {
      var n := |steps| - 1;
      NothingLost(capacity, strategies, steps[..n]);
      PlayKeepsInv(capacity, strategies, steps[..n]);
      NextStrandsNothing(Play(Start(capacity, strategies), steps[..n]), steps[n]);
    }
  }

  // ----- exactly when an order's fills are lost -----

  /** The step is a placement that will trade with the strategy's order `id` although it is not routed. */
  ghost predicate ReachesUnrouted(w: World, step: Step, id: nat) {
    && (step.Add? || step.Quote?)
    && OwnedByStrategy(w.orders, id) && id !in w.routing
    && var q := SideOf(w.book, step.side.Opposite());
       exists j :: 0 <= j < |q| && q[j].id == id && Reached(q, step.side, step.price, step.qty, j)
  }

  /** A placement trades with the makers it reaches and with no other. */
  lemma MadeIffReached(w: World, side: Side, price: int, qty: int, id: nat)
    requires Backtest.Inv(w)
    ensures var q := SideOf(w.book, side.Opposite());
            var made := MadeBy(TradesOf(w, side, price, qty), id);
            && made >= 0
            && (made > 0 <==> exists j :: 0 <= j < |q| && q[j].id == id && Reached(q, side, price, qty, j))
  {
    hide PriorityBook.Inv, Resting, Place, LeftPartly, Reached, MadeBy;
    var q := SideOf(w.book, side.Opposite());
    var ts := TradesOf(w, side, price, qty);
    PlacementIsFair(w, side, price, qty);
    GreedyLength(w, side, price, qty);
    MadeBySign(ts, id);
    if j :| 0 <= j < |q| && q[j].id == id && Reached(q, side, price, qty, j) {
      PartlyFilled(w, side, price, qty, j);
      MadeAt(ts, j);
    } else if k :| 0 <= k < |ts| && ts[k].makerId == id {
      PartlyFilled(w, side, price, qty, k);
    } else {
      NotMade(ts, id);
    }
  }

  lemma PlacementLoses(w: World, routing: map<nat, nat>, side: Side, price: int, qty: int, id: nat)
    requires Backtest.Inv(w) && History(w)
    requires OwnedByStrategy(w.orders, id) ==> (id in routing <==> id in w.routing)
    ensures var ts := TradesOf(w, side, price, qty);
            LostQty(w.lost + Losses(routing, w.orders, ts, 0), id)
            == LostQty(w.lost, id) + if OwnedByStrategy(w.orders, id) && id !in w.routing then MadeBy(ts, id) else 0
  {
    var ts := TradesOf(w, side, price, qty);
    LostAppend(w.lost, Losses(routing, w.orders, ts, 0), id);
    LossesCount(routing, w.orders, ts, 0, id);
    assert ts[0..] == ts;
  }

  /** One step takes a fill away from an order exactly if it reaches the order unrouted. */
  lemma StepLosesIff(w: World, step: Step, id: nat)
    requires Backtest.Inv(w) && History(w)
    ensures LostQty(Next(w, step).lost, id) >= LostQty(w.lost, id) >= 0
    ensures LostQty(Next(w, step).lost, id) > LostQty(w.lost, id) <==> ReachesUnrouted(w, step, id)
  {
    hide Backtest.Inv, Deliver, ExoCredits, OwnCredits, Losses, Place, ExoRouting, Reached, MadeBy, LostQty;
    LostSign(w.lost, id);
    match step
    case Add(side, price, qty, extId) =>
      PlacementLoses(w, w.routing, side, price, qty, id);
      MadeIffReached(w, side, price, qty, id);
    case Remove(extId) =>
    case TradePrint(price) =>
    case Quote(s, side, price, qty) =>
      OwnedIsOld(w, id);
      PlacementLoses(w, w.routing[w.book.nextId := s], side, price, qty, id);
      MadeIffReached(w, side, price, qty, id);
    case Pull(s, x) =>
  }

  lemma OwnedIsOld(w: World, id: nat)
    requires Backtest.Inv(w)
    ensures OwnedByStrategy(w.orders, id) ==> id != w.book.nextId
  {
  }

  /** No placement of the run reaches the order while it is not routed. */
  ghost predicate NeverReachedUnrouted(w: World, steps: seq<Step>, id: nat) {
    steps == [] ||
    var n := |steps| - 1;
    NeverReachedUnrouted(w, steps[..n], id) && !ReachesUnrouted(Play(w, steps[..n]), steps[n], id)
  }

  lemma {:induction false} LostIff(capacity: nat, strategies: nat, steps: seq<Step>, id: nat)
    requires forall i :: 0 <= i < |steps| ==> Knows(strategies, steps[i])
    ensures var w0 := Start(capacity, strategies);
            && LostQty(Play(w0, steps).lost, id) >= 0
            && (LostQty(Play(w0, steps).lost, id) == 0 <==> NeverReachedUnrouted(w0, steps, id))
  {
    if steps != [] {
      hide ReachesUnrouted, LostQty, Next, History, Backtest.Inv;
      var n := |steps| - 1;
      var w := Play(Start(capacity, strategies), steps[..n]);
      LostIff(capacity, strategies, steps[..n], id);
      PlayKeepsInv(capacity, strategies, steps[..n]);
      PlayKeepsHistory(capacity, strategies, steps[..n]);
      StepLosesIff(w, steps[n], id);
    }
  }

  /**
    The exact condition. Over any run, a strategy is credited exactly what its order traded if and
    only if no placement of the run reached the order while it was not routed. What a placement
    reaches is told from the queue before it: the order crosses, and what is queued ahead of it is
    less than the quantity wanted.
   */
  lemma CreditedExactlyIff(capacity: nat, strategies: nat, steps: seq<Step>, id: nat)
    requires forall i :: 0 <= i < |steps| ==> Knows(strategies, steps[i])
    requires OwnedByStrategy(Play(Start(capacity, strategies), steps).orders, id)
    ensures var w := Play(Start(capacity, strategies), steps);
            CreditedQty(w.credits, id) == TradedQty(w, id)
            <==> NeverReachedUnrouted(Start(capacity, strategies), steps, id)
  {
    hide LostQty, CreditedQty, TradedQty, NeverReachedUnrouted, PriorityBook.Inv;
    PlayKeepsInv(capacity, strategies, steps);
    LostIff(capacity, strategies, steps, id);
  }

  /**
    And for all orders at once: everything traded was credited exactly if no placement of the run ever
    reached an order of a strategy that was not routed; and exactly then nothing is recorded as lost.
   */
  lemma AllCreditedIff(capacity: nat, strategies: nat, steps: seq<Step>)
    requires forall i :: 0 <= i < |steps| ==> Knows(strategies, steps[i])
    ensures var w0 := Start(capacity, strategies);
            var w := Play(w0, steps);
            && ((forall id :: OwnedByStrategy(w.orders, id) ==> CreditedQty(w.credits, id) == TradedQty(w, id))
                <==> forall id :: OwnedByStrategy(w.orders, id) ==> NeverReachedUnrouted(w0, steps, id))
            && ((forall id :: OwnedByStrategy(w.orders, id) ==> CreditedQty(w.credits, id) == TradedQty(w, id))
                <==> w.lost == [])
  {
    hide CreditedQty, TradedQty, Play, Start, Knows, NeverReachedUnrouted;
    AllCreditedIffNothingLost(capacity, strategies, steps);
    forall id | OwnedByStrategy(Play(Start(capacity, strategies), steps).orders, id)
      ensures CreditedQty(Play(Start(capacity, strategies), steps).credits, id)
              == TradedQty(Play(Start(capacity, strategies), steps), id)
              <==> NeverReachedUnrouted(Start(capacity, strategies), steps, id)
    {
      CreditedExactlyIff(capacity, strategies, steps, id);
    }
  }

  lemma AllCreditedIffNothingLost(capacity: nat, strategies: nat, steps: seq<Step>)
    requires forall i :: 0 <= i < |steps| ==> Knows(strategies, steps[i])
    ensures var w := Play(Start(capacity, strategies), steps);
            (forall id :: OwnedByStrategy(w.orders, id) ==> CreditedQty(w.credits, id) == TradedQty(w, id))
            <==> w.lost == []
  {
    hide LostQty, CreditedQty, TradedQty, PriorityBook.Inv, FillsOf;
    var w := Play(Start(capacity, strategies), steps);
    PlayKeepsInv(capacity, strategies, steps);
    PlayKeepsHistory(capacity, strategies, steps);
    if w.lost == [] {
      forall id | OwnedByStrategy(w.orders, id)
        ensures CreditedQty(w.credits, id) == TradedQty(w, id)
      {
        NoLossNoQty(id);
      }
    } else {
      var id := w.lost[0].order;
      LossCounts(w.lost, 0);
      assert OwnedByStrategy(w.orders, id) && LostQty(w.lost, id) > 0;
    }
  }

  lemma NoLossNoQty(id: nat)
    ensures LostQty([], id) == 0
  {
  }

  lemma {:induction false} LossCounts(ls: seq<Loss>, k: nat)
    requires PositiveLosses(ls) && k < |ls|
    ensures LostQty(ls, ls[k].order) > 0
  {
    var n := |ls| - 1;
    if k < n {
      LossCounts(ls[..n], k);
    } else {
      LostSign(ls[..n], ls[k].order);
    }
  }

  // ----- the failing family is not empty -----

  lemma QuoteAlone(w: World)
    requires w == Start(8, 1)
    ensures var v := Next(w, Quote(0, Buy, 100, 10));
            && v.book == Book([Order(1, Buy, 100, 10, 1)], [], 2, 2, 7)
            && v.routing == map[1 := 0] && v.orders == map[1 := Info(Strategy(0), Buy, 10)]
            && v.credits == [] && v.lost == []
  {
  }

  lemma FirstHit(w: World)
    requires w.book == Book([Order(1, Buy, 100, 10, 1)], [], 2, 2, 7)
    requires w.routing == map[1 := 0] && w.orders == map[1 := Info(Strategy(0), Buy, 10)]
    requires w.credits == [] && w.lost == []
    ensures var v := Next(w, Add(Sell, 100, 4, 0));
            && v.book == Book([Order(1, Buy, 100, 6, 1)], [], 3, 2, 7)
            && v.routing == map[] && OwnedByStrategy(v.orders, 1)
            && CreditedQty(v.credits, 1) == 4 && v.lost == []
  {
    hide Deliver, CreditedQty;
    var ts := [Trade(2, 1, 100, 4)];
    assert TradesOf(w, Sell, 100, 4) == ts;
    var cs := ExoCredits(w.routing, Sell, ts, |w.ops|, 0);
    assert cs == [MakerCredit(0, Sell, ts[0], |w.ops|, 0)] + ExoCredits(w.routing - {1}, Sell, ts, |w.ops|, 1);
    assert w.credits + cs == [MakerCredit(0, Sell, ts[0], |w.ops|, 0)];
    CreditedOne(MakerCredit(0, Sell, ts[0], |w.ops|, 0), 1);
    assert w.routing - {1} == map[];
  }

  lemma SecondHit(w: World)
    requires w.book == Book([Order(1, Buy, 100, 6, 1)], [], 3, 2, 7)
    requires w.routing == map[] && OwnedByStrategy(w.orders, 1) && w.lost == []
    ensures var v := Next(w, Add(Sell, 100, 6, 0));
            v.credits == w.credits && LostQty(v.lost, 1) == 6 && OwnedByStrategy(v.orders, 1)
  {
    hide Deliver, LostQty;
    var ts := [Trade(3, 1, 100, 6)];
    assert [Order(1, Buy, 100, 6, 1)][1..] == [];
    assert TradesOf(w, Sell, 100, 6) == ts;
    var ls := Losses(w.routing, w.orders, ts, 0);
    assert ls == [Loss(1, 6)] + Losses(w.routing, w.orders, ts, 1);
    assert w.lost + ls == [Loss(1, 6)];
    LostOne(Loss(1, 6), 1);
  }

  /** A bid for 10 hit for 4 and then for 6 is credited 4 only. */
  lemma FillsCanBeLost()
    ensures var w := Play(Start(8, 1), [Quote(0, Buy, 100, 10), Add(Sell, 100, 4, 0), Add(Sell, 100, 6, 0)]);
            OwnedByStrategy(w.orders, 1) && CreditedQty(w.credits, 1) == 4 && TradedQty(w, 1) == 10
  {
    hide Next, TradedQty, CreditedQty, LostQty;
    var a, b, c := Quote(0, Buy, 100, 10), Add(Sell, 100, 4, 0), Add(Sell, 100, 6, 0);
    var steps := [a, b, c];
    assert steps[..2] == [a, b] && [a, b][..1] == [a] && [a][..0] == [];
    var w0 := Start(8, 1);
    assert Play(w0, []) == w0 && Play(w0, [a]) == Next(w0, a) && Play(w0, [a, b]) == Next(Next(w0, a), b);
    QuoteAlone(w0);
    FirstHit(Next(w0, a));
    SecondHit(Next(Next(w0, a), b));
    PlayKeepsInv(8, 1, steps);
  }
}
